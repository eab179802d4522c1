# xemu compatibility reporting, modelled in Dafny

xemu, the original Xbox emulator, lets a user file a title-compatibility
report with the xemu reporting service. The report is a record of
environment fields: the access token, the xemu build, the OS, the CPU, the
GL driver strings, the user's rating and comments, and the title's
executable (XBE) headers encoded as base64. The report object has three
operations, all in `ui/xemu-reporting.cc`:

- `GetSerializedReport` builds a JSON object from 15 key/field pairs and
  stores its rendering in the `serialized` cache.
- `SetXbeData` asserts that the executable descriptor and its header buffer
  are present and that the header length is positive, then stores the base64 encoding of the
  headers in `xbe_headers`.
- `Send` POSTs the serialised report with libcurl. It then classifies what
  happened into a boolean return value, a `result_code` and a `result_msg`.

The project has four modules:

- `Wrappers`: the `Option` type.
- `SendOutcome`: the outcome classification of `Send` as a pure function,
  `Classify`. It comes with an independent reference, `OutcomeTable`, a
  first-match-wins table of rows, and a lemma showing the two agree on
  every input.
- `ReportFormat`: the 15 report keys, the key/value list the JSON document
  is built from, and lemmas about it. Every key occurs once. Looking a key up
  gives that key's field. Two reports with the same list have the same
  fields.
- `XemuReporting`: the class `CompatibilityReport`. Its fields are the
  report's fields. Its methods `GetSerializedReport`, `Send` and `SetXbeData`
  modify only the fields the program assigns. Each method's postcondition
  ties the new state to the functions above.

Foreign code is passed in as parameters:

- The transport is given by what it reported. `initOk` is whether
  `curl_easy_init` returned a client. `performCode` is what
  `curl_easy_perform` returned. `httpStatus` is what `CURLINFO_RESPONSE_CODE`
  gives.
- `strerror` stands for `curl_easy_strerror`.
- `dump` stands for nlohmann's `json::dump(2)`.
- `base64` stands for `g_base64_encode`.

## Model

| member | source | states |
|---|---|---|
| SendOutcome.StatusMessage | ui/xemu-reporting.cc:105-122 | 200 maps to "Ok"; 400 and 411 to "Invalid request"; 403 to "Invalid token"; 413 to "Report too long"; every other status to "Unknown error occured"; "Ok" is given exactly for 200 |
| SendOutcome.TransferCode | ui/xemu-reporting.cc:71-94 | `res` keeps CURLE_FAILED_INIT when no client is created and is otherwise what the transfer returned; it is CURLE_OK exactly when a client existed and the transfer succeeded |
| SendOutcome.Classify | ui/xemu-reporting.cc:70-122 | no client: false, CURLE_FAILED_INIT (2) and its error text, whatever the transfer and the status were; failed transfer: false, the transport code and its error text; completed transfer: the HTTP status becomes the result code and its message the result message; the return value is true exactly when a client was created, the transfer returned CURLE_OK and the status is 200 |
| SendOutcome.FirstMatch | ui/xemu-reporting.cc:98-122 | a first-match-wins outcome table gives no outcome exactly when none of its rows applies |
| SendOutcome.ClassifyFollowsTable | ui/xemu-reporting.cc:98-122 | for every transport result, status and error-text function, the classification equals the outcome of the first applicable row of the six-row outcome table, and some row always applies |
| SendOutcome.NoClientIgnoresTransport | ui/xemu-reporting.cc:71-78 | when no client is created, the transfer code and the HTTP status do not affect the outcome |
| SendOutcome.FailedTransferIgnoresStatus | ui/xemu-reporting.cc:98-102 | after a transport failure, the HTTP status does not affect the outcome |
| SendOutcome.CompletedTransferIgnoresErrorText | ui/xemu-reporting.cc:104-122 | after a completed transfer, the transport's error texts do not affect the outcome |
| SendOutcome.ClassifyExamples | ui/xemu-reporting.cc:98-122 | 200 gives (true, 200, "Ok"); 403 gives (false, 403, "Invalid token"); 411 gives (false, 411, "Invalid request"); 599 gives (false, 599, "Unknown error occured"); the transport failure CURLE_COULDNT_RESOLVE_HOST (6) gives (false, 6, its error text) |
| ReportFormat.KeyName | ui/xemu-reporting.cc:44-58 | the JSON key of each of the 15 fields; every key is non-empty, starts with a lower-case letter and does not end in `_` |
| ReportFormat.FieldValue | ui/xemu-reporting.cc:44-58 | the value sent under a key is a number exactly for `compat_rating`, and that number is the rating; every other key carries a string |
| ReportFormat.KeyFromName | ui/xemu-reporting.cc:43-59 | a key name that is recognised names exactly the field it is read as |
| ReportFormat.KeyNameRoundTrip | ui/xemu-reporting.cc:43-59 | reading back any field's JSON key gives that same field |
| ReportFormat.KeyNameInjective | ui/xemu-reporting.cc:43-59 | no two fields are sent under the same JSON key |
| ReportFormat.KeyPosition | ui/xemu-reporting.cc:43-59 | every field has a place in the program's fixed key order |
| ReportFormat.KeyOrderDistinct | ui/xemu-reporting.cc:43-59 | every field occurs in the key order exactly once |
| ReportFormat.KeyValueList | ui/xemu-reporting.cc:43-59 | the JSON object is built from exactly 15 pairs, from `token` to `xbe_headers` in the program's order; each pair binds a field's key to that field's value, and the rating is a number |
| ReportFormat.LookupFindsFirst | ui/xemu-reporting.cc:43-59 | a key lookup in a key/value list finds nothing exactly when no pair has the key; otherwise it returns the value of the first pair that has it |
| ReportFormat.LookupDistinct | ui/xemu-reporting.cc:43-59 | in a list whose keys are distinct, looking up any pair's key returns that pair's value |
| ReportFormat.KeyValueListKeysDistinct | ui/xemu-reporting.cc:43-59 | no JSON key occurs twice in a report's key/value list |
| ReportFormat.KeyValueListBindsFields | ui/xemu-reporting.cc:43-59 | for every field, looking up its key in the key/value list returns the value of that field |
| ReportFormat.KeyValueListInjective | ui/xemu-reporting.cc:43-59 | two reports whose key/value lists are equal have equal fields, so the list loses nothing |
| XemuReporting.CompatibilityReport.Fields | ui/xemu-reporting.cc:43-59 | the values serialised are the report's 15 members, each taken from the member of the same name |
| XemuReporting.HeaderBytes | ui/xemu-reporting.cc:132 | the bytes handed to the encoder are the first `headers_len` bytes of the header buffer |
| XemuReporting.CompatibilityReport.constructor | ui/xemu-reporting.cc:33-35 | a new report has every text field empty |
| XemuReporting.CompatibilityReport.GetSerializedReport | ui/xemu-reporting.cc:41-62 | only the `serialized` cache changes; it becomes the rendering of the report's key/value list, and that cached text is returned |
| XemuReporting.CompatibilityReport.Send | ui/xemu-reporting.cc:68-122 | only `result_code`, `result_msg` and `serialized` change; the return value and the two result fields are the classification of the transport's results; the cache is re-rendered exactly when a client was created and is otherwise unchanged |
| XemuReporting.CompatibilityReport.SetXbeData | ui/xemu-reporting.cc:125-135 | the program demands a descriptor, a header buffer and a positive length; `xbe_headers` becomes the encoding of the header bytes, and no other field changes |
| XemuReporting.SetXbeDataFieldsChange | ui/xemu-reporting.cc:125-135 | attaching headers leaves the first 14 pairs of the key/value list as they were; the last pair becomes `xbe_headers` bound to the new encoding |

## Left out

- libcurl's global init and cleanup, `curl_easy_setopt`, `curl_easy_perform`, `curl_easy_getinfo` and `curl_easy_cleanup` are network I/O and process-global state. They are modelled only as the parameters `Send` receives.
- A failed `curl_easy_getinfo` would leave the status at 0. In the model this case is just an `httpStatus` of 0, which the classification maps to "Unknown error occured".
- The endpoint URL and the `DEBUG_COMPAT_SERVICE` switch, which disables TLS verification, are compile-time configuration with no logic.
- nlohmann's rendering (`dump(2)`, indentation, escaping) is foreign code, so `dump` is an uninterpreted function of the key/value list. The library's own key ordering in the rendered text is therefore not modelled. The list keeps the order in which the program writes the keys.
- `dump` is assumed never to throw. nlohmann's `dump(2)` uses the strict error handler and throws `type_error.316` when a string field is not valid UTF-8, and fields such as `cpu`, `gl_renderer`, `os_version` and `compat_comments` come from system or user text. If it throws, `GetSerializedReport` exits before `serialized` is assigned. `Send` then exits at the call to `GetSerializedReport`, leaving `result_code` and `result_msg` unset and skipping `curl_easy_cleanup` and `curl_global_cleanup`. The JSON library is not part of this model, so this exception path is not modelled.
- `g_base64_encode` is an uninterpreted function. The model states no length formula and no decoding round trip, because this file does not establish either.
- The texts returned by `curl_easy_strerror` are foreign and enter as the opaque `strerror` parameter.
- Blocking, timeouts and the thread safety of libcurl's global init concern concurrency and I/O, not the reporting logic.
- The C types of the fields (`long` for the HTTP status, the type of `result_code`) and any narrowing between them are not modelled. Codes are unbounded integers. The header `ui/xemu-reporting.h`, which declares the fields, is not part of this model.
- XemuReporting.CompatibilityReport.SetXbeData: also requires `headers_len` not to exceed the buffer. The program does not check this, but reading the buffer needs it to be valid memory.
- XemuReporting.CompatibilityReport.constructor: the C++ constructor leaves `compat_rating` and `result_code` uninitialised, so the model leaves them unspecified.
- The program terminates on a failed `assert` in `SetXbeData`. The model writes those assertions as preconditions and does not model termination.
- The destructor and `g_free` release memory, which is not modelled.
