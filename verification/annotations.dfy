/** The typed read view over an Ingress's annotation map (`config.Annotations`):
    each accessor looks a key up and either parses the stored text or falls back
    to an optional default. The Go accessors take their default as a variadic
    argument; here it is a sequence, of which only the first element matters.
    Other packages call these accessors `String`, `StringSlice`, `Bool`, `Int` and
    `JSON`; they are the functions below. */
module Annotations {
  import opened Outcomes
  import Text
  import Strconv

  type AnnotationMap = map<string, string>

  // Global annotations.
  const Enabled: string := "ingress-monitor.bonial.com/enabled"
  const ForceHTTPS: string := "ingress-monitor.bonial.com/force-https"
  const PathOverride: string := "ingress-monitor.bonial.com/path-override"

  // Site24x7 provider annotations.
  const Site24x7Actions: string := "site24x7.ingress-monitor.bonial.com/actions"
  const Site24x7AuthPass: string := "site24x7.ingress-monitor.bonial.com/auth-pass"
  const Site24x7AuthUser: string := "site24x7.ingress-monitor.bonial.com/auth-user"
  const Site24x7CheckFrequency: string := "site24x7.ingress-monitor.bonial.com/check-frequency"
  const Site24x7CustomHeaders: string := "site24x7.ingress-monitor.bonial.com/custom-headers"
  const Site24x7HTTPMethod: string := "site24x7.ingress-monitor.bonial.com/http-method"
  const Site24x7LocationProfileID: string := "site24x7.ingress-monitor.bonial.com/location-profile-id"
  const Site24x7MatchCase: string := "site24x7.ingress-monitor.bonial.com/match-case"
  const Site24x7MonitorGroupIDs: string := "site24x7.ingress-monitor.bonial.com/monitor-group-ids"
  const Site24x7NotificationProfileID: string := "site24x7.ingress-monitor.bonial.com/notification-profile-id"
  const Site24x7ThresholdProfileID: string := "site24x7.ingress-monitor.bonial.com/threshold-profile-id"
  const Site24x7Timeout: string := "site24x7.ingress-monitor.bonial.com/timeout"
  const Site24x7UseNameServer: string := "site24x7.ingress-monitor.bonial.com/use-name-server"
  const Site24x7UserAgent: string := "site24x7.ingress-monitor.bonial.com/user-agent"
  const Site24x7UserGroupIDs: string := "site24x7.ingress-monitor.bonial.com/user-group-ids"

  /** Go's map index: the stored value, or the zero string for a missing key. */
  function Lookup(a: AnnotationMap, name: string): (v: string)
    ensures name !in a ==> v == ""
    ensures name in a ==> v == a[name]
  {
    if name in a then a[name] else ""
  }

  /** `StringValue`: a present key yields its value, even when that value is
      empty; a missing key yields the first default, else "". */
  function StringValue(a: AnnotationMap, name: string, defaults: seq<string>): (r: string)
    ensures name in a ==> r == a[name]
    ensures name !in a && |defaults| > 0 ==> r == defaults[0]
    ensures name !in a && |defaults| == 0 ==> r == ""
  {
    if name in a then a[name]
    else if |defaults| > 0 then defaults[0]
    else ""
  }

  /** `StringSliceValue`: a non-empty value is cut at every comma, keeping order
      and empty pieces; an empty or missing value yields the first default, else
      the empty (nil) list. */
  function StringSliceValue(a: AnnotationMap, name: string, defaults: seq<seq<string>>): (r: seq<string>)
    ensures Lookup(a, name) != "" ==> Text.Join(r, ',') == a[name]
    ensures Lookup(a, name) != "" ==> forall i :: 0 <= i < |r| ==> ',' !in r[i]
    ensures Lookup(a, name) == "" && |defaults| > 0 ==> r == defaults[0]
    ensures Lookup(a, name) == "" && |defaults| == 0 ==> r == []
  {
    var val := StringValue(a, name, []);
    if |val| > 0 then
      Text.JoinSplit(val, ',');
      Text.Split(val, ',')
    else if |defaults| > 0 then defaults[0]
    else []
  }

  /** `BoolValue`: a present key is read with ParseBool and the default is
      ignored; an unparsable value reads as false. A missing key yields the
      first default, else false. */
  function BoolValue(a: AnnotationMap, name: string, defaults: seq<bool>): (r: bool)
    ensures name in a ==> (r <==> a[name] in Strconv.TrueSpellings)
    ensures name !in a && |defaults| > 0 ==> r == defaults[0]
    ensures name !in a && |defaults| == 0 ==> !r
  {
    if name in a then
      match Strconv.ParseBool(a[name])
      case Some(b) => b
      case None => false
    else if |defaults| > 0 then defaults[0]
    else false
  }

  /** `IntValue`: a present key is read with Atoi and the default is ignored;
      the value Atoi returns is used even when Atoi reports an error (0 for a
      syntax error, the clamped bound for an out-of-range number). A missing key
      yields the first default, else 0. */
  function IntValue(a: AnnotationMap, name: string, defaults: seq<int>): (r: int)
    ensures name in a ==> r == Strconv.ParseInt(a[name]).value
    ensures name in a ==> Strconv.MinInt64 <= r <= Strconv.MaxInt64
    ensures name !in a && |defaults| > 0 ==> r == defaults[0]
    ensures name !in a && |defaults| == 0 ==> r == 0
  {
    if name in a then
      Strconv.AtoiIsParseInt(a[name]);
      Strconv.Atoi(a[name]).value
    else if |defaults| > 0 then defaults[0]
    else 0
  }

  /** A present numeral is read back exactly, whatever the default. */
  lemma IntValueReadsNumerals(a: AnnotationMap, name: string, defaults: seq<int>, n: int)
    requires Strconv.MinInt64 <= n <= Strconv.MaxInt64
    requires name in a && a[name] == Strconv.FormatInt(n)
    ensures IntValue(a, name, defaults) == n
  {
    Strconv.ParseFormatInt(n);
  }

  /** What the JSON decoder (an oracle here) makes of a text: a value of the
      target type, or the decoder's error message. */
  datatype Decoded<T> = Decoded(value: T) | Undecodable(reason: string)

  /** The message of a ParseJSON failure. The annotation's name is put
      between double quotes; `%q` escapes nothing else in the names the
      annotations use (see `InvalidJsonMessageQuotes`). */
  function InvalidJsonMessage(name: string, val: string, reason: string): string
  {
    "invalid json in annotation \"" + name + "\": " + val + ": " + reason
  }

  /** For a name of printable ASCII characters without double quotes or
      backslashes, the message is the `%q` rendering of the name with the
      text and the decoder's error. */
  lemma InvalidJsonMessageQuotes(name: string, val: string, reason: string)
    requires forall i :: 0 <= i < |name| ==> ' ' <= name[i] <= '~'
    requires '"' !in name && '\\' !in name
    ensures InvalidJsonMessage(name, val, reason) == "invalid json in annotation " + Text.Quote(name) + ": " + val + ": " + reason
  {
    Text.QuoteBodyPlain(name);
  }

  /** `json.Unmarshal` into a target, supplied by the caller: the text and
      the target's current value give the target's new value (a JSON object
      may merge into a map or struct, `null` may leave it as it was), or the
      decoder's error. */
  type Unmarshal<!T> = (string, T) -> Decoded<T>

  /** `ParseJSON`: decodes the value stored under `name` into the target and
      returns the target's new value. A missing key leaves the target as it was
      and is not an error. */
  function ParseJSON<T>(a: AnnotationMap, name: string, decode: Unmarshal<T>, target: T): (r: Result<T>)
    ensures name !in a ==> r == Ok(target)
    ensures name in a && decode(a[name], target).Decoded? ==> r == Ok(decode(a[name], target).value)
    ensures name in a && decode(a[name], target).Undecodable? ==>
              r == Err(Failure(InvalidJsonMessage(name, a[name], decode(a[name], target).reason)))
  {
    if name !in a then Ok(target)
    else match decode(a[name], target)
      case Decoded(v) => Ok(v)
      case Undecodable(reason) => Err(Failure(InvalidJsonMessage(name, a[name], reason)))
  }

  /** The JSON cases of the test table, for a decoder that reads the object
      of annotation "e" into an empty map as the map it spells and rejects
      the text of "invalidjson". */
  lemma JsonExamples(decode: Unmarshal<map<string, string>>)
    requires decode(ExampleAnnotations()["e"], map[]) == Decoded(map["foo" := "bar"])
    requires decode(ExampleAnnotations()["invalidjson"], map[]).Undecodable?
    ensures ParseJSON(ExampleAnnotations(), "e", decode, map[]) == Ok(map["foo" := "bar"])
    ensures ParseJSON(ExampleAnnotations(), "nonexistent", decode, map[]) == Ok(map[])
    ensures ParseJSON(ExampleAnnotations(), "invalidjson", decode, map[]).Err?
  {
  }

  /** The test table's annotation map. */
  function ExampleAnnotations(): AnnotationMap
  {
    map["a" := "somestring", "b" := "true", "c" := "42",
        "d" := "foo,bar,baz", "e" := "{\"foo\":\"bar\"}", "invalidjson" := "{invalidjson"]
  }

  /** Present keys are read and parsed. */
  lemma PresentKeyExamples()
    ensures StringValue(ExampleAnnotations(), "a", []) == "somestring"
    ensures BoolValue(ExampleAnnotations(), "b", [])
    ensures IntValue(ExampleAnnotations(), "c", []) == 42
  {
    var a := ExampleAnnotations();
    assert Strconv.FormatInt(42) == "42" by {
      assert Strconv.FormatUint(4) == "4";
    }
    IntValueReadsNumerals(a, "c", [], 42);
  }

  /** A present list is cut at its commas. */
  lemma PresentListExample()
    ensures StringSliceValue(ExampleAnnotations(), "d", []) == ["foo", "bar", "baz"]
  {
    var parts := ["foo", "bar", "baz"];
    Text.SplitJoin(parts, ',');
    Text.JoinCons("bar", ["baz"], ',');
    Text.JoinCons("foo", ["bar", "baz"], ',');
    assert Text.Join(parts, ',') == "foo,bar,baz";
  }

  /** Missing keys fall back to the first default, or to the zero value. */
  lemma MissingKeyExamples()
    ensures StringValue(ExampleAnnotations(), "nonexistent", ["thedefault"]) == "thedefault"
    ensures BoolValue(ExampleAnnotations(), "nonexistent", [true])
    ensures IntValue(ExampleAnnotations(), "nonexistent", [2]) == 2
    ensures StringSliceValue(ExampleAnnotations(), "nonexistent", [["thedefault"]]) == ["thedefault"]
    ensures StringValue(ExampleAnnotations(), "nonexistent", []) == ""
    ensures !BoolValue(ExampleAnnotations(), "nonexistent", [])
    ensures IntValue(ExampleAnnotations(), "nonexistent", []) == 0
    ensures StringSliceValue(ExampleAnnotations(), "nonexistent", []) == []
  {
  }

  /** Unparsable values read as false and 0. */
  lemma UnparsableExamples()
    ensures !BoolValue(ExampleAnnotations(), "invalidjson", [true])
    ensures IntValue(ExampleAnnotations(), "invalidjson", [7]) == 0
  {
    var s := "{invalidjson";
    ScanStopsAtBrace(s);
  }

  /** A text that starts with a non-digit is a syntax error for ParseUint. */
  lemma {:induction false} ScanStopsAtBrace(s: string)
    requires |s| >= 1 && !Strconv.IsDigit(s[0])
    ensures Strconv.ScanUint(s) == Strconv.SyntaxStop
    decreases |s|
  {
    if |s| > 1 {
      ScanStopsAtBrace(s[..|s| - 1]);
    } else {
      assert s[..|s| - 1] == [];
    }
  }
}
