/**
 * The outcome classification of `CompatibilityReport::Send`
 * (ui/xemu-reporting.cc): how the transport result and the HTTP status
 * become the return value, the result code and the result message.
 */
module SendOutcome {
  import opened Wrappers

  // ---------------------------------------------------------------------
  // Transport and HTTP codes
  // ---------------------------------------------------------------------

  /** libcurl's `CURLE_OK`: the transfer completed. */
  const CurleOk: int := 0
  /** libcurl's `CURLE_FAILED_INIT`: the value `res` starts with in `Send`. */
  const CurleFailedInit: int := 2

  const MsgOk: string := "Ok"
  const MsgInvalidRequest: string := "Invalid request"
  const MsgInvalidToken: string := "Invalid token"
  const MsgReportTooLong: string := "Report too long"
  /** The default message, spelled as the program spells it. */
  const MsgUnknown: string := "Unknown error occured"

  /** The HTTP statuses the reporting service gives a meaning to. */
  const KnownStatuses: map<int, string> := map[
    200 := MsgOk,
    400 := MsgInvalidRequest,
    411 := MsgInvalidRequest,
    403 := MsgInvalidToken,
    413 := MsgReportTooLong
  ]

  /** The message `Send` stores for a completed transfer with this HTTP status. */
  function StatusMessage(status: int): (m: string)
    ensures status in KnownStatuses ==> m == KnownStatuses[status]
    ensures status !in KnownStatuses ==> m == MsgUnknown
    ensures m == MsgOk <==> status == 200
  {
    if status == 200 then MsgOk
    else if status == 400 || status == 411 then MsgInvalidRequest
    else if status == 403 then MsgInvalidToken
    else if status == 413 then MsgReportTooLong
    else MsgUnknown
  }

  /**
   * The value of `res` once the transfer part of `Send` is over: it keeps
   * `CURLE_FAILED_INIT` when no client could be created, and is otherwise
   * what `curl_easy_perform` returned.
   */
  function TransferCode(initOk: bool, performCode: int): (res: int)
    ensures !initOk ==> res == CurleFailedInit
    ensures initOk ==> res == performCode
    // the transfer counts as completed only when a client existed and perform succeeded
    ensures res == CurleOk <==> initOk && performCode == CurleOk
  {
    if initOk then performCode else CurleFailedInit
  }

  /** What a call of `Send` leaves behind: its return value and the two outcome fields. */
  datatype Outcome = Outcome(sent: bool, resultCode: int, resultMsg: string)

  /**
   * The outcome of `Send` for a given transport behaviour. The HTTP status
   * is the value `CURLINFO_RESPONSE_CODE` would report; `strerror` stands
   * for `curl_easy_strerror`.
   */
  function Classify(initOk: bool, performCode: int, httpStatus: int, strerror: int -> string): (o: Outcome)
    // no client: the initial CURLE_FAILED_INIT is reported, with its text
    ensures !initOk ==> o == Outcome(false, CurleFailedInit, strerror(CurleFailedInit))
    // failed transfer: its own code and text, no HTTP mapping
    ensures initOk && performCode != CurleOk ==> o == Outcome(false, performCode, strerror(performCode))
    // completed transfer: the HTTP status is the result code
    ensures initOk && performCode == CurleOk ==> o.resultCode == httpStatus && o.resultMsg == StatusMessage(httpStatus)
    // the one way to succeed
    ensures o.sent <==> initOk && performCode == CurleOk && httpStatus == 200
  {
    var res := TransferCode(initOk, performCode);
    if res != CurleOk then Outcome(false, res, strerror(res))
    else Outcome(httpStatus == 200, httpStatus, StatusMessage(httpStatus))
  }

  // ---------------------------------------------------------------------
  // The outcome table as a first-match-wins list of rows
  // ---------------------------------------------------------------------

  /** When a row of the outcome table applies. */
  datatype Guard = TransportFailed | StatusIn(statuses: set<int>) | AnyStatus
  /** Where a row takes the result code from. */
  datatype CodeRule = FromTransport | FromStatus
  /** Where a row takes the result message from. */
  datatype MsgRule = TransportText | Fixed(text: string)

  datatype Row = Row(guard: Guard, code: CodeRule, msg: MsgRule, sent: bool)

  /** The outcome mapping as a table; the first row that applies decides. */
  const OutcomeTable: seq<Row> := [
    Row(TransportFailed, FromTransport, TransportText, false),
    Row(StatusIn({200}), FromStatus, Fixed(MsgOk), true),
    Row(StatusIn({400, 411}), FromStatus, Fixed(MsgInvalidRequest), false),
    Row(StatusIn({403}), FromStatus, Fixed(MsgInvalidToken), false),
    Row(StatusIn({413}), FromStatus, Fixed(MsgReportTooLong), false),
    Row(AnyStatus, FromStatus, Fixed(MsgUnknown), false)
  ]

  predicate Applies(g: Guard, res: int, status: int) {
    match g
    case TransportFailed => res != CurleOk
    case StatusIn(s) => status in s
    case AnyStatus => true
  }

  function RowOutcome(row: Row, res: int, status: int, strerror: int -> string): Outcome {
    var code := if row.code.FromTransport? then res else status;
    var msg := if row.msg.TransportText? then strerror(res) else row.msg.text;
    Outcome(row.sent, code, msg)
  }

  /** The outcome given by the first row of `table` that applies, if any does. */
  function FirstMatch(table: seq<Row>, res: int, status: int, strerror: int -> string): (r: Option<Outcome>)
    ensures r.None? <==> forall i :: 0 <= i < |table| ==> !Applies(table[i].guard, res, status)
  {
    if table == [] then None
    else if Applies(table[0].guard, res, status) then Some(RowOutcome(table[0], res, status, strerror))
    else FirstMatch(table[1..], res, status, strerror)
  }

  /** The classification `Send` performs is exactly the outcome table, and some row always applies. */
  lemma {:induction false} ClassifyFollowsTable(initOk: bool, performCode: int, httpStatus: int, strerror: int -> string)
    ensures FirstMatch(OutcomeTable, TransferCode(initOk, performCode), httpStatus, strerror)
         == Some(Classify(initOk, performCode, httpStatus, strerror))
  {
    var res := TransferCode(initOk, performCode);
    var t := OutcomeTable;
    if res == CurleOk && httpStatus != 200 {
      assert FirstMatch(t, res, httpStatus, strerror) == FirstMatch(t[2..], res, httpStatus, strerror);
      if httpStatus != 400 && httpStatus != 411 {
        assert FirstMatch(t[2..], res, httpStatus, strerror) == FirstMatch(t[3..], res, httpStatus, strerror);
        if httpStatus != 403 {
          assert FirstMatch(t[3..], res, httpStatus, strerror) == FirstMatch(t[4..], res, httpStatus, strerror);
          if httpStatus != 413 {
            assert FirstMatch(t[4..], res, httpStatus, strerror) == FirstMatch(t[5..], res, httpStatus, strerror);
          }
        }
      }
    }
  }

  /** When no client could be created the transfer and HTTP results play no part. */
  lemma NoClientIgnoresTransport(p1: int, s1: int, p2: int, s2: int, strerror: int -> string)
    ensures Classify(false, p1, s1, strerror) == Classify(false, p2, s2, strerror)
  {
  }

  /** After a failed transfer the HTTP status plays no part. */
  lemma FailedTransferIgnoresStatus(initOk: bool, performCode: int, s1: int, s2: int, strerror: int -> string)
    requires TransferCode(initOk, performCode) != CurleOk
    ensures Classify(initOk, performCode, s1, strerror) == Classify(initOk, performCode, s2, strerror)
  {
  }

  /** After a completed transfer the error texts play no part. */
  lemma CompletedTransferIgnoresErrorText(httpStatus: int, e1: int -> string, e2: int -> string)
    ensures Classify(true, CurleOk, httpStatus, e1) == Classify(true, CurleOk, httpStatus, e2)
  {
  }

  /** Worked examples of the classification: a 200, a 403, a 411, an unmapped 599 and the transport failure CURLE_COULDNT_RESOLVE_HOST. */
  lemma ClassifyExamples(strerror: int -> string)
    ensures Classify(true, CurleOk, 200, strerror) == Outcome(true, 200, "Ok")
    ensures Classify(true, CurleOk, 403, strerror) == Outcome(false, 403, "Invalid token")
    ensures Classify(true, CurleOk, 411, strerror) == Outcome(false, 411, "Invalid request")
    ensures Classify(true, CurleOk, 599, strerror) == Outcome(false, 599, "Unknown error occured")
    // 6 is libcurl's CURLE_COULDNT_RESOLVE_HOST
    ensures Classify(true, 6, 200, strerror) == Outcome(false, 6, strerror(6))
  {
  }
}
