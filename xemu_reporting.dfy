/**
 * A model of xemu's title-compatibility report (ui/xemu-reporting.cc):
 * the report record, the key/value list it is serialised from, the
 * header-attaching operation and the outcome classification of a submission.
 *
 * The HTTP client, the JSON renderer and the base64 encoder are foreign
 * code. They appear here as parameters: what the transport reported, and
 * functions that stand for `curl_easy_strerror`, `json::dump` and
 * `g_base64_encode`.
 */
module XemuReporting {
  import opened Wrappers
  import opened SendOutcome
  import opened ReportFormat

  newtype byte = x: int | 0 <= x < 256

  // ---------------------------------------------------------------------
  // The executable header collaborator
  // ---------------------------------------------------------------------

  /**
   * The two properties of xemu's parsed executable that the report reads: the
   * header buffer (None for a null pointer) and its declared length.
   */
  datatype Xbe = Xbe(headers: Option<seq<byte>>, headersLen: int)

  /** The header bytes `g_base64_encode` is given: the first `headersLen` of the buffer. */
  function HeaderBytes(xbe: Xbe): (b: seq<byte>)
    requires xbe.headers.Some? && 0 <= xbe.headersLen <= |xbe.headers.value|
    ensures |b| == xbe.headersLen
    ensures b <= xbe.headers.value
  {
    xbe.headers.value[..xbe.headersLen]
  }

  // ---------------------------------------------------------------------
  // The report record
  // ---------------------------------------------------------------------

  class CompatibilityReport {
    var token: string
    var xemuVersion: string
    var xemuBranch: string
    var xemuCommit: string
    var xemuDate: string
    var osPlatform: string
    var osVersion: string
    var cpu: string
    var glVendor: string
    var glRenderer: string
    var glVersion: string
    var glShadingLanguageVersion: string
    var compatRating: int
    var compatComments: string
    var xbeHeaders: string

    var resultCode: int
    var resultMsg: string
    var serialized: string

    /** A new report: every text field empty; the numeric fields are left unspecified. */
    constructor ()
      ensures token == "" && xemuVersion == "" && xemuBranch == "" && xemuCommit == ""
      ensures xemuDate == "" && osPlatform == "" && osVersion == "" && cpu == ""
      ensures glVendor == "" && glRenderer == "" && glVersion == "" && glShadingLanguageVersion == ""
      ensures compatComments == "" && xbeHeaders == "" && resultMsg == "" && serialized == ""
    {
      token, xemuVersion, xemuBranch, xemuCommit, xemuDate := "", "", "", "", "";
      osPlatform, osVersion, cpu := "", "", "";
      glVendor, glRenderer, glVersion, glShadingLanguageVersion := "", "", "", "";
      compatComments, xbeHeaders := "", "";
      resultMsg, serialized := "", "";
    }

    /** The current values of the serialised fields: each field is the member of the same name. */
    function Fields(): (f: ReportFields)
      reads this
      ensures f.token == token && f.xemuVersion == xemuVersion && f.xemuBranch == xemuBranch
      ensures f.xemuCommit == xemuCommit && f.xemuDate == xemuDate && f.osPlatform == osPlatform
      ensures f.osVersion == osVersion && f.cpu == cpu && f.glVendor == glVendor
      ensures f.glRenderer == glRenderer && f.glVersion == glVersion
      ensures f.glShadingLanguageVersion == glShadingLanguageVersion && f.compatRating == compatRating
      ensures f.compatComments == compatComments && f.xbeHeaders == xbeHeaders
    {
      ReportFields(token, xemuVersion, xemuBranch, xemuCommit, xemuDate,
                   osPlatform, osVersion, cpu, glVendor, glRenderer, glVersion,
                   glShadingLanguageVersion, compatRating, compatComments, xbeHeaders)
    }

    /**
     * Renders the report with `dump` (which stands for nlohmann's `dump(2)`) into
     * the `serialized` cache and returns the cached text.
     */
    method GetSerializedReport(dump: KeyValues -> string) returns (s: string)
      modifies this`serialized
      ensures serialized == dump(KeyValueList(Fields()))
      ensures s == serialized
    {
      var report := KeyValueList(Fields());
      serialized := dump(report);
      s := serialized;
    }

    /**
     * Submits the report. The transport is given by its observable results:
     * whether `curl_easy_init` gave a client, what `curl_easy_perform`
     * returned, the HTTP status of the response, and `curl_easy_strerror`.
     */
    method Send(initOk: bool, performCode: int, httpStatus: int,
                strerror: int -> string, dump: KeyValues -> string) returns (sent: bool)
      modifies this`resultCode, this`resultMsg, this`serialized
      ensures Outcome(sent, resultCode, resultMsg) == Classify(initOk, performCode, httpStatus, strerror)
      ensures serialized == if initOk then dump(KeyValueList(Fields())) else old(serialized)
    {
      var res := CurleFailedInit;
      var httpResCode := 0;
      if initOk {
        var s := GetSerializedReport(dump);
        res := performCode;
        if res == CurleOk {
          httpResCode := httpStatus;
        }
      }

      if res != CurleOk {
        resultCode := res;
        resultMsg := strerror(res);
        return false;
      }

      resultCode := httpResCode;
      if httpResCode == 200 {
        resultMsg := MsgOk;
        return true;
      } else if httpResCode == 400 || httpResCode == 411 {
        resultMsg := MsgInvalidRequest;
        return false;
      } else if httpResCode == 403 {
        resultMsg := MsgInvalidToken;
        return false;
      } else if httpResCode == 413 {
        resultMsg := MsgReportTooLong;
        return false;
      } else {
        resultMsg := MsgUnknown;
        return false;
      }
    }

    /**
     * Attaches the executable's headers, encoded by `base64` (which stands for
     * `g_base64_encode`). A null executable, a null buffer or a zero length is a
     * fatal assertion in the program, so here a precondition.
     */
    method SetXbeData(xbe: Option<Xbe>, base64: seq<byte> -> string)
      requires xbe.Some?
      requires xbe.value.headers.Some?
      requires xbe.value.headersLen > 0
      requires xbe.value.headersLen <= |xbe.value.headers.value|
      modifies this`xbeHeaders
      ensures xbeHeaders == base64(HeaderBytes(xbe.value))
      ensures Fields() == old(Fields()).(xbeHeaders := xbeHeaders)
    {
      var buf := base64(HeaderBytes(xbe.value));
      xbeHeaders := buf;
    }
  }

  /** Attaching headers changes only the last pair of the key/value list, the one for `xbe_headers`. */
  lemma SetXbeDataFieldsChange(f: ReportFields, encoded: string)
    ensures KeyValueList(f.(xbeHeaders := encoded))[..14] == KeyValueList(f)[..14]
    ensures KeyValueList(f.(xbeHeaders := encoded))[14] == ("xbe_headers", JString(encoded))
  {
  }
}
