/**
 * The key/value list a compatibility report is serialised from
 * (ui/xemu-reporting.cc, `GetSerializedReport`), and the lookups that show
 * each field is bound under its own key and none is lost.
 */
module ReportFormat {
  import opened Wrappers

  /** A JSON value as the report uses them: text, or the numeric rating. */
  datatype JsonValue = JString(s: string) | JNumber(n: int)

  type KeyValues = seq<(string, JsonValue)>

  /** The fields of a report that are serialised, one per JSON key. */
  datatype ReportKey =
    | Token | XemuVersion | XemuBranch | XemuCommit | XemuDate
    | OsPlatform | OsVersion | Cpu | GlVendor | GlRenderer
    | GlVersion | GlShadingLanguageVersion | CompatRating
    | CompatComments | XbeHeaders

  /** The JSON key under which a field is sent: it starts with a lower-case letter and does not end in `_`. */
  function KeyName(k: ReportKey): (n: string)
    ensures |n| > 0 && 'a' <= n[0] <= 'z'
    ensures n[|n| - 1] != '_'
  {
    match k
    case Token => "token"
    case XemuVersion => "xemu_version"
    case XemuBranch => "xemu_branch"
    case XemuCommit => "xemu_commit"
    case XemuDate => "xemu_date"
    case OsPlatform => "os_platform"
    case OsVersion => "os_version"
    case Cpu => "cpu"
    case GlVendor => "gl_vendor"
    case GlRenderer => "gl_renderer"
    case GlVersion => "gl_version"
    case GlShadingLanguageVersion => "gl_shading_language_version"
    case CompatRating => "compat_rating"
    case CompatComments => "compat_comments"
    case XbeHeaders => "xbe_headers"
  }

  /** The field a JSON key names, if it names one. */
  function KeyFromName(name: string): (r: Option<ReportKey>)
    ensures r.Some? ==> KeyName(r.value) == name
  {
    if name == "token" then Some(Token)
    else if name == "xemu_version" then Some(XemuVersion)
    else if name == "xemu_branch" then Some(XemuBranch)
    else if name == "xemu_commit" then Some(XemuCommit)
    else if name == "xemu_date" then Some(XemuDate)
    else if name == "os_platform" then Some(OsPlatform)
    else if name == "os_version" then Some(OsVersion)
    else if name == "cpu" then Some(Cpu)
    else if name == "gl_vendor" then Some(GlVendor)
    else if name == "gl_renderer" then Some(GlRenderer)
    else if name == "gl_version" then Some(GlVersion)
    else if name == "gl_shading_language_version" then Some(GlShadingLanguageVersion)
    else if name == "compat_rating" then Some(CompatRating)
    else if name == "compat_comments" then Some(CompatComments)
    else if name == "xbe_headers" then Some(XbeHeaders)
    else None
  }

  /** Reading a field's key back gives that field. */
  lemma KeyNameRoundTrip(k: ReportKey)
    ensures KeyFromName(KeyName(k)) == Some(k)
  {
    match k
    case Token => assert KeyName(k) == "token";
    case XemuVersion => assert KeyName(k) == "xemu_version";
    case XemuBranch => assert KeyName(k) == "xemu_branch";
    case XemuCommit => assert KeyName(k) == "xemu_commit";
    case XemuDate => assert KeyName(k) == "xemu_date";
    case OsPlatform => assert KeyName(k) == "os_platform";
    case OsVersion => assert KeyName(k) == "os_version";
    case Cpu => assert KeyName(k) == "cpu";
    case GlVendor => assert KeyName(k) == "gl_vendor";
    case GlRenderer => assert KeyName(k) == "gl_renderer";
    case GlVersion => assert KeyName(k) == "gl_version";
    case GlShadingLanguageVersion => assert KeyName(k) == "gl_shading_language_version";
    case CompatRating => assert KeyName(k) == "compat_rating";
    case CompatComments => assert KeyName(k) == "compat_comments";
    case XbeHeaders => assert KeyName(k) == "xbe_headers";
  }

  /** No two fields share a JSON key. */
  lemma KeyNameInjective(a: ReportKey, b: ReportKey)
    requires KeyName(a) == KeyName(b)
    ensures a == b
  {
    KeyNameRoundTrip(a);
    KeyNameRoundTrip(b);
  }

  /** The order in which the program lists the fields. */
  const KeyOrder: seq<ReportKey> := [
    Token, XemuVersion, XemuBranch, XemuCommit, XemuDate,
    OsPlatform, OsVersion, Cpu, GlVendor, GlRenderer,
    GlVersion, GlShadingLanguageVersion, CompatRating,
    CompatComments, XbeHeaders
  ]

  /** Where a field stands in `KeyOrder`. */
  function KeyPosition(k: ReportKey): (i: nat)
    ensures i < |KeyOrder| && KeyOrder[i] == k
  {
    match k
    case Token => 0
    case XemuVersion => 1
    case XemuBranch => 2
    case XemuCommit => 3
    case XemuDate => 4
    case OsPlatform => 5
    case OsVersion => 6
    case Cpu => 7
    case GlVendor => 8
    case GlRenderer => 9
    case GlVersion => 10
    case GlShadingLanguageVersion => 11
    case CompatRating => 12
    case CompatComments => 13
    case XbeHeaders => 14
  }

  /** Every field occurs in `KeyOrder` exactly once. */
  lemma KeyOrderDistinct()
    ensures forall i :: 0 <= i < |KeyOrder| ==> KeyPosition(KeyOrder[i]) == i
  {
  }

  /** The values of the fields that go into a serialised report. */
  datatype ReportFields = ReportFields(
    token: string,
    xemuVersion: string,
    xemuBranch: string,
    xemuCommit: string,
    xemuDate: string,
    osPlatform: string,
    osVersion: string,
    cpu: string,
    glVendor: string,
    glRenderer: string,
    glVersion: string,
    glShadingLanguageVersion: string,
    compatRating: int,
    compatComments: string,
    xbeHeaders: string)

  /** The JSON value of one field; the rating is the one number. */
  function FieldValue(f: ReportFields, k: ReportKey): (v: JsonValue)
    ensures v.JNumber? <==> k == CompatRating
    ensures k == CompatRating ==> v == JNumber(f.compatRating)
  {
    match k
    case Token => JString(f.token)
    case XemuVersion => JString(f.xemuVersion)
    case XemuBranch => JString(f.xemuBranch)
    case XemuCommit => JString(f.xemuCommit)
    case XemuDate => JString(f.xemuDate)
    case OsPlatform => JString(f.osPlatform)
    case OsVersion => JString(f.osVersion)
    case Cpu => JString(f.cpu)
    case GlVendor => JString(f.glVendor)
    case GlRenderer => JString(f.glRenderer)
    case GlVersion => JString(f.glVersion)
    case GlShadingLanguageVersion => JString(f.glShadingLanguageVersion)
    case CompatRating => JNumber(f.compatRating)
    case CompatComments => JString(f.compatComments)
    case XbeHeaders => JString(f.xbeHeaders)
  }

  /**
   * The key/value pairs the JSON document of a report is built from: one pair
   * per field, in `KeyOrder`, each binding a field's key to that field's value.
   */
  function KeyValueList(f: ReportFields): (kv: KeyValues)
    ensures |kv| == |KeyOrder|
    ensures forall i :: 0 <= i < |kv| ==> kv[i] == (KeyName(KeyOrder[i]), FieldValue(f, KeyOrder[i]))
  {
    [ ("token", JString(f.token)),
      ("xemu_version", JString(f.xemuVersion)),
      ("xemu_branch", JString(f.xemuBranch)),
      ("xemu_commit", JString(f.xemuCommit)),
      ("xemu_date", JString(f.xemuDate)),
      ("os_platform", JString(f.osPlatform)),
      ("os_version", JString(f.osVersion)),
      ("cpu", JString(f.cpu)),
      ("gl_vendor", JString(f.glVendor)),
      ("gl_renderer", JString(f.glRenderer)),
      ("gl_version", JString(f.glVersion)),
      ("gl_shading_language_version", JString(f.glShadingLanguageVersion)),
      ("compat_rating", JNumber(f.compatRating)),
      ("compat_comments", JString(f.compatComments)),
      ("xbe_headers", JString(f.xbeHeaders)) ]
  }

  /** The value bound to `key` by the first pair that has it. */
  function Lookup(kv: KeyValues, key: string): Option<JsonValue> {
    if kv == [] then None
    else if kv[0].0 == key then Some(kv[0].1)
    else Lookup(kv[1..], key)
  }

  /** A key is found exactly when some pair has it, and then with the value of the first such pair. */
  lemma {:induction false} LookupFindsFirst(kv: KeyValues, key: string)
    ensures Lookup(kv, key).None? <==> forall i :: 0 <= i < |kv| ==> kv[i].0 != key
    ensures Lookup(kv, key).Some? ==> exists i :: (0 <= i < |kv| && kv[i] == (key, Lookup(kv, key).value)
      && forall j :: 0 <= j < i ==> kv[j].0 != key)
  {
    if kv != [] && kv[0].0 != key {
      LookupFindsFirst(kv[1..], key);
      if Lookup(kv, key).Some? {
        var i :| 0 <= i < |kv[1..]| && kv[1..][i] == (key, Lookup(kv, key).value)
          && forall j :: 0 <= j < i ==> kv[1..][j].0 != key;
        assert kv[i + 1] == (key, Lookup(kv, key).value);
        forall j | 0 <= j < i + 1 ensures kv[j].0 != key {
          if j > 0 { assert kv[j] == kv[1..][j - 1]; }
        }
      }
      forall i | 0 <= i < |kv[1..]| ensures kv[1..][i] == kv[i + 1] { }
    }
  }

  /** With distinct keys, looking a key up finds the pair that holds it. */
  lemma {:induction false} LookupDistinct(kv: KeyValues, i: nat)
    requires i < |kv|
    requires forall a, b :: 0 <= a < b < |kv| ==> kv[a].0 != kv[b].0
    ensures Lookup(kv, kv[i].0) == Some(kv[i].1)
  {
    if i > 0 {
      assert kv[0].0 != kv[i].0;
      assert kv[1..][i - 1] == kv[i];
      LookupDistinct(kv[1..], i - 1);
    }
  }

  /** No key occurs twice in the key/value list of a report. */
  lemma KeyValueListKeysDistinct(f: ReportFields)
    ensures var kv := KeyValueList(f);
      forall a, b :: 0 <= a < b < |kv| ==> kv[a].0 != kv[b].0
  {
    var kv := KeyValueList(f);
    forall a, b | 0 <= a < b < |kv| ensures kv[a].0 != kv[b].0 {
      if kv[a].0 == kv[b].0 {
        KeyNameInjective(KeyOrder[a], KeyOrder[b]);
        KeyOrderDistinct();
      }
    }
  }

  /** In the key/value list of a report, each field's key is bound to that field's value. */
  lemma KeyValueListBindsFields(f: ReportFields, k: ReportKey)
    ensures Lookup(KeyValueList(f), KeyName(k)) == Some(FieldValue(f, k))
  {
    KeyValueListKeysDistinct(f);
    LookupDistinct(KeyValueList(f), KeyPosition(k));
  }

  /** Two reports with the same key/value list have the same fields. */
  lemma KeyValueListInjective(f: ReportFields, g: ReportFields)
    requires KeyValueList(f) == KeyValueList(g)
    ensures f == g
  {
  }
}
