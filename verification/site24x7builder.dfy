/** The Site24x7 monitor builder (`pkg/provider/site24x7/builder.go`). It
    turns a provider-neutral monitor into a Site24x7 website monitor: each
    setting is the Ingress annotation's value when present, else the
    configured default; then the defaulters fill the profile and group
    settings. The builder keeps the first error it meets, and every later step
    is a no-op that passes it on. */
module Site24x7Builder {
  import opened Outcomes
  import opened Site24x7Api
  import opened Site24x7Defaulters
  import Config
  import Models
  import Annotations
  import Strconv
  import Text

  /** The JSON decoder (an oracle) for the two JSON-valued annotations; a
      decoded `null` is a nil list. `withModel` always decodes into a fresh
      monitor's nil list. */
  datatype Decoders = Decoders(
    headers: Annotations.Unmarshal<Option<seq<Header>>>,
    actions: Annotations.Unmarshal<Option<seq<ActionRef>>>)

  datatype Builder = Builder(
    client: Client,
    defaults: Config.MonitorDefaults,
    monitor: Option<SiteMonitor>,
    defaulters: seq<Listing>,
    err: Option<Error>)

  /** `newBuilder`. */
  function NewBuilder(c: Client, d: Config.MonitorDefaults): (b: Builder)
    ensures b.client == c && b.defaults == d
    ensures b.monitor == None && b.defaulters == [] && b.err == None
  {
    Builder(c, d, None, [], None)
  }

  /** `withDefaulters`: sets the defaulters `build` runs, unless an error was kept. */
  function WithDefaulters(b: Builder, ks: seq<Listing>): (r: Builder)
    ensures b.err.Some? ==> r == b
    ensures b.err.None? ==> r == b.(defaulters := ks)
  {
    if b.err.Some? then b else b.(defaulters := ks)
  }

  /** A setting read from annotation `key`: the annotation's text when
      present, else `default`. */
  predicate Picks(a: map<string, string>, key: string, field: string, default: string)
  {
    (key in a ==> field == a[key]) && (key !in a ==> field == default)
  }

  /** The settings of the monitor that `withModel` builds, before the JSON
      lists: identity from the model, type "URL", every other setting from
      its annotation or the defaults. A group-ID annotation is cut at its
      commas into comma-free IDs, which fixes the list (`Text.SplitJoin`). */
  function Mapped(model: Models.Monitor, d: Config.MonitorDefaults): (m: SiteMonitor)
    ensures m.monitorType == "URL" && m.monitorID == model.id
    ensures m.displayName == model.name && m.website == model.url
    ensures Picks(model.annotations, Annotations.Site24x7CheckFrequency, m.checkFrequency, d.checkFrequency)
    ensures Picks(model.annotations, Annotations.Site24x7HTTPMethod, m.httpMethod, d.httpMethod)
    ensures Picks(model.annotations, Annotations.Site24x7AuthUser, m.authUser, d.authUser)
    ensures Picks(model.annotations, Annotations.Site24x7AuthPass, m.authPass, d.authPass)
    ensures Picks(model.annotations, Annotations.Site24x7UserAgent, m.userAgent, d.userAgent)
    ensures Picks(model.annotations, Annotations.Site24x7LocationProfileID, m.locationProfileID, d.locationProfileID)
    ensures Picks(model.annotations, Annotations.Site24x7NotificationProfileID, m.notificationProfileID, d.notificationProfileID)
    ensures Picks(model.annotations, Annotations.Site24x7ThresholdProfileID, m.thresholdProfileID, d.thresholdProfileID)
    ensures Annotations.Site24x7Timeout !in model.annotations ==> m.timeout == d.timeout
    ensures Annotations.Site24x7Timeout in model.annotations ==>
              m.timeout == Strconv.ParseInt(model.annotations[Annotations.Site24x7Timeout]).value
    ensures Annotations.Site24x7MatchCase !in model.annotations ==> m.matchCase == d.matchCase
    ensures Annotations.Site24x7MatchCase in model.annotations ==>
              (m.matchCase <==> model.annotations[Annotations.Site24x7MatchCase] in Strconv.TrueSpellings)
    ensures Annotations.Site24x7UseNameServer !in model.annotations ==> m.useNameServer == d.useNameServer
    ensures Annotations.Site24x7UseNameServer in model.annotations ==>
              (m.useNameServer <==> model.annotations[Annotations.Site24x7UseNameServer] in Strconv.TrueSpellings)
    ensures Annotations.Lookup(model.annotations, Annotations.Site24x7UserGroupIDs) == "" ==> m.userGroupIDs == d.userGroupIDs
    ensures Annotations.Lookup(model.annotations, Annotations.Site24x7UserGroupIDs) != "" ==>
              && Text.Join(m.userGroupIDs, ',') == model.annotations[Annotations.Site24x7UserGroupIDs]
              && forall i :: 0 <= i < |m.userGroupIDs| ==> ',' !in m.userGroupIDs[i]
    ensures Annotations.Lookup(model.annotations, Annotations.Site24x7MonitorGroupIDs) == "" ==> m.monitorGroups == d.monitorGroupIDs
    ensures Annotations.Lookup(model.annotations, Annotations.Site24x7MonitorGroupIDs) != "" ==>
              && Text.Join(m.monitorGroups, ',') == model.annotations[Annotations.Site24x7MonitorGroupIDs]
              && forall i :: 0 <= i < |m.monitorGroups| ==> ',' !in m.monitorGroups[i]
    ensures m.customHeaders == None && m.actionIDs == None
  {
    var a := model.annotations;
    SiteMonitor(
      model.id, model.name, "URL", model.url,
      Annotations.StringValue(a, Annotations.Site24x7CheckFrequency, [d.checkFrequency]),
      Annotations.StringValue(a, Annotations.Site24x7HTTPMethod, [d.httpMethod]),
      Annotations.StringValue(a, Annotations.Site24x7AuthUser, [d.authUser]),
      Annotations.StringValue(a, Annotations.Site24x7AuthPass, [d.authPass]),
      Annotations.BoolValue(a, Annotations.Site24x7MatchCase, [d.matchCase]),
      Annotations.StringValue(a, Annotations.Site24x7UserAgent, [d.userAgent]),
      Annotations.IntValue(a, Annotations.Site24x7Timeout, [d.timeout]),
      Annotations.BoolValue(a, Annotations.Site24x7UseNameServer, [d.useNameServer]),
      Annotations.StringSliceValue(a, Annotations.Site24x7UserGroupIDs, [d.userGroupIDs]),
      Annotations.StringSliceValue(a, Annotations.Site24x7MonitorGroupIDs, [d.monitorGroupIDs]),
      Annotations.StringValue(a, Annotations.Site24x7LocationProfileID, [d.locationProfileID]),
      Annotations.StringValue(a, Annotations.Site24x7NotificationProfileID, [d.notificationProfileID]),
      Annotations.StringValue(a, Annotations.Site24x7ThresholdProfileID, [d.thresholdProfileID]),
      None, None)
  }

  /** A JSON-valued list annotation: undecodable text is the error; a
      missing annotation, or one that decodes to nil, gives the configured
      default list. */
  function JsonList<T>(a: map<string, string>, key: string, decode: Annotations.Unmarshal<Option<seq<T>>>,
                       default: Option<seq<T>>): (r: Result<Option<seq<T>>>)
    ensures key !in a ==> r == Ok(default)
    ensures key in a && decode(a[key], None) == Annotations.Decoded(None) ==> r == Ok(default)
    ensures key in a && decode(a[key], None).Decoded? && decode(a[key], None).value.Some? ==> r == Ok(decode(a[key], None).value)
    ensures key in a && decode(a[key], None).Undecodable? ==>
              r == Err(Failure(Annotations.InvalidJsonMessage(key, a[key], decode(a[key], None).reason)))
  {
    match Annotations.ParseJSON(a, key, decode, None)
    case Err(e) => Err(e)
    case Ok(list) => Ok(if list.None? then default else list)
  }

  /** The monitor `withModel` builds: the mapped settings, then the custom
      headers and the actions decoded from their annotations. An undecodable
      annotation is the error; a missing one, or one that decodes to nil,
      leaves the configured default list. Headers are decoded first. */
  function FromModel(model: Models.Monitor, d: Config.MonitorDefaults, dec: Decoders): (r: Result<SiteMonitor>)
    ensures var a := model.annotations;
            var h, ac := Annotations.Site24x7CustomHeaders, Annotations.Site24x7Actions;
            && (h in a && dec.headers(a[h], None).Undecodable? ==>
                  r == Err(Failure(Annotations.InvalidJsonMessage(h, a[h], dec.headers(a[h], None).reason))))
            && (!(h in a && dec.headers(a[h], None).Undecodable?) && ac in a && dec.actions(a[ac], None).Undecodable? ==>
                  r == Err(Failure(Annotations.InvalidJsonMessage(ac, a[ac], dec.actions(a[ac], None).reason))))
            && (r.Ok? <==> !(h in a && dec.headers(a[h], None).Undecodable?) && !(ac in a && dec.actions(a[ac], None).Undecodable?))
    ensures r.Ok? ==> r.value.(customHeaders := None, actionIDs := None) == Mapped(model, d)
    ensures r.Ok? ==> r.value.customHeaders == JsonList(model.annotations, Annotations.Site24x7CustomHeaders, dec.headers, d.customHeaders).value
    ensures r.Ok? ==> r.value.actionIDs == JsonList(model.annotations, Annotations.Site24x7Actions, dec.actions, d.actions).value
  {
    var a := model.annotations;
    match JsonList(a, Annotations.Site24x7CustomHeaders, dec.headers, d.customHeaders)
    case Err(e) => Err(e)
    case Ok(headers) =>
      match JsonList(a, Annotations.Site24x7Actions, dec.actions, d.actions)
      case Err(e) => Err(e)
      case Ok(actions) => Ok(Mapped(model, d).(customHeaders := headers, actionIDs := actions))
  }

  /** An undecodable actions annotation, alone, is the building error. */
  lemma ActionsErrorAlone(model: Models.Monitor, d: Config.MonitorDefaults, dec: Decoders, text: string)
    requires model.annotations == map[Annotations.Site24x7Actions := text]
    requires dec.actions(text, None).Undecodable?
    ensures FromModel(model, d, dec)
            == Err(Failure(Annotations.InvalidJsonMessage(Annotations.Site24x7Actions, text, dec.actions(text, None).reason)))
  {
    assert |Annotations.Site24x7CustomHeaders| != |Annotations.Site24x7Actions|;
  }

  /** The location profile annotation overrides that setting and nothing
      else: the monitor built from a model annotated with it alone is the one
      built without annotations, with that profile. */
  lemma LocationProfileAnnotation(model: Models.Monitor, d: Config.MonitorDefaults, dec: Decoders, id: string)
    requires model.annotations == map[Annotations.Site24x7LocationProfileID := id]
    ensures FromModel(model.(annotations := map[]), d, dec).Ok?
    ensures FromModel(model, d, dec) == Ok(FromModel(model.(annotations := map[]), d, dec).value.(locationProfileID := id))
  {
    var k := Annotations.Site24x7LocationProfileID;
    assert |k| != |Annotations.Site24x7CheckFrequency|;
    assert |k| != |Annotations.Site24x7HTTPMethod|;
    assert |k| != |Annotations.Site24x7AuthUser|;
    assert |k| != |Annotations.Site24x7AuthPass|;
    assert |k| != |Annotations.Site24x7UserAgent|;
    assert |k| != |Annotations.Site24x7Timeout|;
    assert |k| != |Annotations.Site24x7MatchCase|;
    assert |k| != |Annotations.Site24x7UseNameServer|;
    assert |k| != |Annotations.Site24x7UserGroupIDs|;
    assert |k| != |Annotations.Site24x7MonitorGroupIDs|;
    assert |k| != |Annotations.Site24x7NotificationProfileID|;
    assert |k| != |Annotations.Site24x7ThresholdProfileID|;
    assert |k| != |Annotations.Site24x7CustomHeaders|;
    assert |k| != |Annotations.Site24x7Actions|;
  }

  /** `withModel`: unless an error was kept, the built monitor is kept, or
      the decoding error is. */
  function WithModel(b: Builder, model: Models.Monitor, dec: Decoders): (r: Builder)
    ensures b.err.Some? ==> r == b
    ensures b.err.None? && FromModel(model, b.defaults, dec).Ok? ==>
              r == b.(monitor := Some(FromModel(model, b.defaults, dec).value))
    ensures b.err.None? && FromModel(model, b.defaults, dec).Err? ==>
              r == b.(err := Some(FromModel(model, b.defaults, dec).error))
  {
    if b.err.Some? then b
    else match FromModel(model, b.defaults, dec)
      case Err(e) => b.(err := Some(e))
      case Ok(m) => b.(monitor := Some(m))
  }

  /** The client calls `build` made and the monitor it built. */
  datatype Built = Built(calls: seq<ClientCall>, result: Result<SiteMonitor>)

  const NoModelMessage: string := "cannot build monitor without model"

  /** `build`: a kept error is returned without any client call, as is a
      missing model; otherwise the defaulters run in order and the first of
      their errors is returned. */
  function Build(b: Builder): (r: Built)
    ensures b.err.Some? ==> r == Built([], Err(b.err.value))
    ensures b.err.None? && b.monitor.None? ==> r == Built([], Err(Failure(NoModelMessage)))
    ensures b.err.None? && b.monitor.Some? ==>
              var run := RunDefaulters(b.client, b.defaulters, b.monitor.value);
              && r.calls == run.calls
              && (run.err.Some? ==> r.result == Err(run.err.value))
              && (run.err.None? ==> r.result == Ok(run.monitor))
    ensures forall i :: 0 <= i < |r.calls| ==> r.calls[i].List?
  {
    if b.err.Some? then Built([], Err(b.err.value))
    else if b.monitor.None? then Built([], Err(Failure(NoModelMessage)))
    else
      var run := RunDefaulters(b.client, b.defaulters, b.monitor.value);
      if run.err.Some? then Built(run.calls, Err(run.err.value)) else Built(run.calls, Ok(run.monitor))
  }

  /** Once an error is kept, no later step changes the builder, and `build`
      returns that error without a client call. */
  lemma ErrorIsSticky(b: Builder, ks: seq<Listing>, model: Models.Monitor, dec: Decoders)
    requires b.err.Some?
    ensures WithModel(WithDefaulters(b, ks), model, dec) == b
    ensures WithDefaulters(WithModel(b, model, dec), ks) == b
    ensures Build(WithModel(WithDefaulters(b, ks), model, dec)) == Built([], Err(b.err.value))
  {
  }

  /** A built monitor has its settings from the model and the defaults, and
      each defaulted profile or group filled. */
  lemma BuiltMonitorSettings(c: Client, d: Config.MonitorDefaults, ks: seq<Listing>, model: Models.Monitor, dec: Decoders)
    requires Build(WithModel(WithDefaulters(NewBuilder(c, d), ks), model, dec)).result.Ok?
    ensures var m := Build(WithModel(WithDefaulters(NewBuilder(c, d), ks), model, dec)).result.value;
            var from := FromModel(model, d, dec);
            && from.Ok?
            && Rest(m) == Rest(from.value)
            && (forall k :: k in ks ==> Filled(c, from.value, m, k))
            && (forall k :: k !in ks ==> Setting(m, k) == Setting(from.value, k))
  {
    var from := FromModel(model, d, dec);
    RunDefaultersFills(c, ks, from.value);
  }
}
