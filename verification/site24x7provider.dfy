/** The Site24x7 monitor provider (`pkg/provider/site24x7/provider.go`).
    Monitors are found by display name among the listed monitors; creating
    and updating first build the Site24x7 monitor, and send nothing when that
    fails; deleting looks the monitor up and deletes it by its ID. Each
    operation returns the client calls it made with its Go result. */
module Site24x7Provider {
  import opened Outcomes
  import opened Site24x7Api
  import opened Site24x7Defaulters
  import opened Site24x7Builder
  import Config
  import Models
  import Annotations

  datatype Site24x7 = Site24x7(client: Client, config: Config.Site24x7Config, decoders: Decoders)

  /** The client calls an operation made and what it returned. */
  datatype Called<T> = Called(calls: seq<ClientCall>, out: T)

  /** The position of a defaulter in `getDefaulters`'s order. */
  function Rank(k: Listing): nat
  {
    match k
    case LocationProfiles => 0
    case MonitorGroups => 1
    case NotificationProfiles => 2
    case ThresholdProfiles => 3
    case UserGroups => 4
  }

  /** Strictly increasing in rank: in `getDefaulters`'s order, each at most once. */
  predicate InRankOrder(ks: seq<Listing>)
  {
    forall i, j :: 0 <= i < j < |ks| ==> Rank(ks[i]) < Rank(ks[j])
  }

  /** The order in which `getDefaulters` considers the defaulters. */
  const DefaulterOrder: seq<Listing> := [LocationProfiles, MonitorGroups, NotificationProfiles, ThresholdProfiles, UserGroups]

  /** The listings of `order` whose `Auto*` option is on, in `order`'s order. */
  function Keep(d: Config.MonitorDefaults, order: seq<Listing>): (ks: seq<Listing>)
    ensures forall k :: k in ks <==> k in order && Auto(d, k)
    ensures InRankOrder(order) ==> InRankOrder(ks)
    decreases |order|
  {
    if |order| == 0 then []
    else
      var rest := Keep(d, order[1..]);
      if InRankOrder(order) then
        RankOrderTail(order);
        RankOrderCons(order[0], rest);
        (if Auto(d, order[0]) then [order[0]] else []) + rest
      else
        (if Auto(d, order[0]) then [order[0]] else []) + rest
  }

  /** The tail of a list in rank order is in rank order, and ranks above its head. */
  lemma RankOrderTail(order: seq<Listing>)
    requires |order| > 0 && InRankOrder(order)
    ensures InRankOrder(order[1..])
    ensures forall k :: k in order[1..] ==> Rank(order[0]) < Rank(k)
  {
    forall k | k in order[1..]
      ensures Rank(order[0]) < Rank(k)
    {
      var j :| 0 <= j < |order[1..]| && order[1..][j] == k;
      assert order[j + 1] == k;
    }
  }

  /** A listing ranked below every element of a list in rank order can be put in front. */
  lemma RankOrderCons(x: Listing, rest: seq<Listing>)
    requires InRankOrder(rest)
    requires forall k :: k in rest ==> Rank(x) < Rank(k)
    ensures InRankOrder([x] + rest)
  {
    var ks := [x] + rest;
    forall i, j | 0 <= i < j < |ks|
      ensures Rank(ks[i]) < Rank(ks[j])
    {
      assert ks[j] == rest[j - 1];
      if i > 0 {
        assert ks[i] == rest[i - 1];
      }
    }
  }

  /** `getDefaulters`: the defaulters whose `Auto*` option is on, each once,
      in the order location profile, monitor group, notification profile,
      threshold profile, user group. */
  function GetDefaulters(d: Config.MonitorDefaults): (ks: seq<Listing>)
    ensures forall k :: k in ks <==> Auto(d, k)
    ensures InRankOrder(ks)
  {
    OrderSorted();
    var ks := Keep(d, DefaulterOrder);
    assert forall k :: k in ks <==> Auto(d, k) by {
      forall k: Listing
        ensures k in ks <==> Auto(d, k)
      {
        OrderComplete(k);
      }
    }
    ks
  }

  lemma OrderSorted()
    ensures InRankOrder(DefaulterOrder)
  {
    assert forall i :: 0 <= i < |DefaulterOrder| ==> Rank(DefaulterOrder[i]) == i;
  }

  lemma OrderComplete(k: Listing)
    ensures k in DefaulterOrder
  {
    assert DefaulterOrder[Rank(k)] == k;
  }

  /** A fresh builder with the configured defaults and the defaulters `ks`,
      given the model: a decoding error is returned without a client call;
      otherwise the defaulters run on the decoded monitor. */
  function BuildWith(p: Site24x7, ks: seq<Listing>, m: Models.Monitor): (r: Built)
    ensures FromModel(m, p.config.monitorDefaults, p.decoders).Err? ==>
              r == Built([], Err(FromModel(m, p.config.monitorDefaults, p.decoders).error))
    ensures FromModel(m, p.config.monitorDefaults, p.decoders).Ok? ==>
              var run := RunDefaulters(p.client, ks, FromModel(m, p.config.monitorDefaults, p.decoders).value);
              r == Built(run.calls, if run.err.Some? then Err(run.err.value) else Ok(run.monitor))
    ensures forall i :: 0 <= i < |r.calls| ==> r.calls[i].List?
  {
    Build(WithModel(WithDefaulters(NewBuilder(p.client, p.config.monitorDefaults), ks), m, p.decoders))
  }

  /** `buildMonitor`: a fresh builder with the configured defaults and
      defaulters, given the model. */
  function BuildMonitor(p: Site24x7, m: Models.Monitor): (r: Built)
    ensures FromModel(m, p.config.monitorDefaults, p.decoders).Err? ==>
              r == Built([], Err(FromModel(m, p.config.monitorDefaults, p.decoders).error))
    ensures FromModel(m, p.config.monitorDefaults, p.decoders).Ok? ==>
              var run := RunDefaulters(p.client, GetDefaulters(p.config.monitorDefaults),
                                       FromModel(m, p.config.monitorDefaults, p.decoders).value);
              r == Built(run.calls, if run.err.Some? then Err(run.err.value) else Ok(run.monitor))
    ensures forall i :: 0 <= i < |r.calls| ==> r.calls[i].List?
  {
    BuildWith(p, GetDefaulters(p.config.monitorDefaults), m)
  }

  /** `Create`: the built monitor is created; a build failure is returned
      with no monitor created. */
  function Create(p: Site24x7, m: Models.Monitor): (r: Called<Option<Error>>)
    ensures var built := BuildMonitor(p, m);
            && (built.result.Err? ==> r == Called(built.calls, Some(built.result.error)))
            && (built.result.Ok? ==>
                  r == Called(built.calls + [CreateCall(built.result.value)], p.client.create(built.result.value)))
  {
    var built := BuildMonitor(p, m);
    match built.result
    case Err(e) => Called(built.calls, Some(e))
    case Ok(monitor) => Called(built.calls + [CreateCall(monitor)], p.client.create(monitor))
  }

  /** `Update`: the built monitor is sent as an update; a build failure is
      returned with nothing sent. */
  function Update(p: Site24x7, m: Models.Monitor): (r: Called<Option<Error>>)
    ensures var built := BuildMonitor(p, m);
            && (built.result.Err? ==> r == Called(built.calls, Some(built.result.error)))
            && (built.result.Ok? ==>
                  r == Called(built.calls + [UpdateCall(built.result.value)], p.client.update(built.result.value)))
  {
    var built := BuildMonitor(p, m);
    match built.result
    case Err(e) => Called(built.calls, Some(e))
    case Ok(monitor) => Called(built.calls + [UpdateCall(monitor)], p.client.update(monitor))
  }

  /** A monitor that cannot be built is not created: only the defaulters'
      list calls are made. */
  lemma NoCreateWhenBuildFails(p: Site24x7, m: Models.Monitor)
    requires BuildMonitor(p, m).result.Err?
    ensures forall i :: 0 <= i < |Create(p, m).calls| ==> !IsMonitorChange(Create(p, m).calls[i])
  {
    var calls := BuildMonitor(p, m).calls;
    assert Create(p, m).calls == calls;
  }

  /** A monitor that cannot be built is not updated either. */
  lemma NoUpdateWhenBuildFails(p: Site24x7, m: Models.Monitor)
    requires BuildMonitor(p, m).result.Err?
    ensures forall i :: 0 <= i < |Update(p, m).calls| ==> !IsMonitorChange(Update(p, m).calls[i])
  {
    var calls := BuildMonitor(p, m).calls;
    assert Update(p, m).calls == calls;
  }

  /** The position of the first monitor with the display name `name`. */
  function FirstNamed(ms: seq<SiteMonitor>, name: string): (r: Option<nat>)
    ensures r.None? <==> forall i :: 0 <= i < |ms| ==> ms[i].displayName != name
    ensures r.Some? ==> r.value < |ms| && ms[r.value].displayName == name
    ensures r.Some? ==> forall j :: 0 <= j < r.value ==> ms[j].displayName != name
    decreases |ms|
  {
    if |ms| == 0 then None
    else if ms[0].displayName == name then Some(0)
    else match FirstNamed(ms[1..], name)
      case None => None
      case Some(i) => Some(i + 1)
  }

  /** The provider-neutral view of a listed monitor: its ID, name and URL,
      and no annotations. */
  function ToModel(m: SiteMonitor): Models.Monitor
  {
    Models.Monitor(m.monitorID, m.displayName, m.website, map[])
  }

  /** `Get`: the monitors are listed once; the first whose display name is
      `name` is returned, a list error is returned as it is, and no match is
      `MonitorNotFound`. */
  function Get(p: Site24x7, name: string): (r: Called<Result<Models.Monitor>>)
    ensures r.calls == [ListMonitors]
    ensures p.client.monitors.Err? ==> r.out == Err(p.client.monitors.error)
    ensures p.client.monitors.Ok? ==>
              (r.out == Err(MonitorNotFound) <==> forall i :: 0 <= i < |p.client.monitors.value| ==>
                                                    p.client.monitors.value[i].displayName != name)
    ensures r.out.Ok? ==>
              var ms := p.client.monitors.value;
              exists i :: 0 <= i < |ms| && ms[i].displayName == name && r.out.value == ToModel(ms[i])
                          && forall j :: 0 <= j < i ==> ms[j].displayName != name
    ensures r.out.Ok? ==> r.out.value.name == name
  {
    match p.client.monitors
    case Err(e) => Called([ListMonitors], Err(e))
    case Ok(ms) =>
      match FirstNamed(ms, name)
      case None => Called([ListMonitors], Err(MonitorNotFound))
      case Some(i) => Called([ListMonitors], Ok(ToModel(ms[i])))
  }

  /** `Delete`: a failed lookup (including `MonitorNotFound`) is returned
      without deleting anything; otherwise the found monitor is deleted by
      its ID. */
  function Delete(p: Site24x7, name: string): (r: Called<Option<Error>>)
    ensures Get(p, name).out.Err? ==> r == Called([ListMonitors], Some(Get(p, name).out.error))
    ensures Get(p, name).out.Ok? ==>
              r == Called([ListMonitors, DeleteCall(Get(p, name).out.value.id)], p.client.delete(Get(p, name).out.value.id))
  {
    var found := Get(p, name);
    match found.out
    case Err(e) => Called(found.calls, Some(e))
    case Ok(m) => Called(found.calls + [DeleteCall(m.id)], p.client.delete(m.id))
  }

  /** With every `Auto*` option on, all five defaulters run, in order. */
  lemma AllDefaulters(d: Config.MonitorDefaults)
    requires d.autoLocationProfile && d.autoMonitorGroup && d.autoNotificationProfile
    requires d.autoThresholdProfile && d.autoUserGroup
    ensures GetDefaulters(d) == DefaulterOrder
  {
    KeepAll(d, DefaulterOrder);
  }

  /** Keeping from a list whose options are all on keeps the whole list. */
  lemma {:induction false} KeepAll(d: Config.MonitorDefaults, order: seq<Listing>)
    requires forall i :: 0 <= i < |order| ==> Auto(d, order[i])
    ensures Keep(d, order) == order
    decreases |order|
  {
    if |order| > 0 {
      KeepAll(d, order[1..]);
      assert [order[0]] + order[1..] == order;
    }
  }

  /** With exactly one `Auto*` option on, only its defaulter runs. */
  lemma OneDefaulter(d: Config.MonitorDefaults, k: Listing)
    requires forall o :: Auto(d, o) <==> o == k
    ensures GetDefaulters(d) == [k]
  {
    OnlyOneInRankOrder(GetDefaulters(d), k);
  }

  /** A list in rank order that holds `k` and nothing else is `[k]`. */
  lemma OnlyOneInRankOrder(ks: seq<Listing>, k: Listing)
    requires InRankOrder(ks)
    requires forall o :: o in ks <==> o == k
    ensures ks == [k]
  {
    assert k in ks;
    if |ks| >= 2 {
      FirstTwoDiffer(ks);
      assert false;
    }
  }

  /** A list in rank order with two entries holds two different listings. */
  lemma FirstTwoDiffer(ks: seq<Listing>)
    requires InRankOrder(ks) && |ks| >= 2
    ensures ks[0] in ks && ks[1] in ks && ks[0] != ks[1]
  {
    assert Rank(ks[0]) < Rank(ks[1]);
  }

  /** The provider's `Get` tests: a monitor of another name is not found; a
      monitor of the name is returned as ID, name and URL. */
  lemma GetExamples(p: Site24x7)
    ensures var other := SiteMonitor("", "some-other-monitor", "", "", "", "", "", "", false, "", 0, false, [], [], "", "", "", None, None);
            Get(p.(client := p.client.(monitors := Ok([other]))), "my-monitor").out == Err(MonitorNotFound)
    ensures var mine := SiteMonitor("123", "my-monitor", "", "http://my-monitor", "", "", "", "", false, "", 0, false, [], [], "", "", "", None, None);
            Get(p.(client := p.client.(monitors := Ok([mine]))), "my-monitor").out
            == Ok(Models.Monitor("123", "my-monitor", "http://my-monitor", map[]))
  {
    var other := SiteMonitor("", "some-other-monitor", "", "", "", "", "", "", false, "", 0, false, [], [], "", "", "", None, None);
    assert other.displayName != "my-monitor" by {
      assert |other.displayName| != |"my-monitor"|;
    }
  }

  /** The provider's `Delete` tests: with no monitors the lookup's
      `MonitorNotFound` is returned; otherwise the matching monitor's ID is
      deleted. */
  lemma DeleteExamples(p: Site24x7)
    requires p.client.delete("456") == None
    ensures Delete(p.(client := p.client.(monitors := Ok([]))), "my-monitor")
            == Called([ListMonitors], Some(MonitorNotFound))
    ensures var a := SiteMonitor("123", "some-other-monitor", "", "", "", "", "", "", false, "", 0, false, [], [], "", "", "", None, None);
            var b := SiteMonitor("456", "my-monitor", "", "", "", "", "", "", false, "", 0, false, [], [], "", "", "", None, None);
            Delete(p.(client := p.client.(monitors := Ok([a, b]))), "my-monitor")
            == Called([ListMonitors, DeleteCall("456")], None)
  {
    var a := SiteMonitor("123", "some-other-monitor", "", "", "", "", "", "", false, "", 0, false, [], [], "", "", "", None, None);
    assert a.displayName != "my-monitor" by {
      assert |a.displayName| != |"my-monitor"|;
    }
  }

  /** Monitor defaults that switch the given discoveries on and leave every
      other setting at Go's zero value, as the provider's tests configure. */
  function AutoOnly(location: bool, notification: bool, threshold: bool, monitorGroup: bool, userGroup: bool): Config.MonitorDefaults
  {
    Config.MonitorDefaults(location, notification, threshold, monitorGroup, userGroup, false, 0, "", "", "", "", "", false,
                           "", "", "", [], [], None, None)
  }

  /** The tests' monitor model. */
  function TestModel(annotations: map<string, string>): Models.Monitor
  {
    Models.Monitor("", "my-monitor", "http://my-monitor", annotations)
  }

  /** A URL monitor for the tests' model with the given profiles and groups. */
  function TestSiteMonitor(location: string, notification: string, threshold: string,
                           monitorGroups: seq<string>, userGroups: seq<string>): SiteMonitor
  {
    SiteMonitor("", "my-monitor", "URL", "http://my-monitor", "", "", "", "", false, "", 0, false,
                userGroups, monitorGroups, location, notification, threshold, None, None)
  }

  /** Without annotations the built monitor, before the defaulters run, is
      the model's identity with every setting at its default. */
  lemma PlainModelMaps(d: Config.MonitorDefaults, dec: Decoders)
    requires d == AutoOnly(d.autoLocationProfile, d.autoNotificationProfile, d.autoThresholdProfile,
                           d.autoMonitorGroup, d.autoUserGroup)
    ensures FromModel(TestModel(map[]), d, dec) == Ok(TestSiteMonitor("", "", "", [], []))
  {
  }

  /** Building a monitor that maps without error is running the configured
      defaulters on it. */
  lemma BuildRunsDefaulters(p: Site24x7, m: Models.Monitor, ks: seq<Listing>, from: SiteMonitor)
    requires GetDefaulters(p.config.monitorDefaults) == ks
    requires FromModel(m, p.config.monitorDefaults, p.decoders) == Ok(from)
    ensures var run := RunDefaulters(p.client, ks, from);
            BuildMonitor(p, m) == Built(run.calls, if run.err.Some? then Err(run.err.value) else Ok(run.monitor))
  {
  }

  /** Running defaulters whose first setting is unset and whose list has
      entries: the first ID fills it, and the rest run on the result. */
  lemma RunFirstFills(c: Client, k: Listing, ks: seq<Listing>, m: SiteMonitor, id: string)
    requires !IsSet(m, k) && c.list(k).Ok? && |c.list(k).value| > 0 && c.list(k).value[0] == id
    ensures var rest := RunDefaulters(c, ks, WithSetting(m, k, id));
            RunDefaulters(c, [k] + ks, m) == Defaulted([List(k)] + rest.calls, rest.monitor, rest.err)
  {
    assert ([k] + ks)[1..] == ks;
  }

  /** Running defaulters whose first setting is already set: it is skipped
      without a call. */
  lemma RunFirstKept(c: Client, k: Listing, ks: seq<Listing>, m: SiteMonitor)
    requires IsSet(m, k)
    ensures RunDefaulters(c, [k] + ks, m) == RunDefaulters(c, ks, m)
  {
    assert ([k] + ks)[1..] == ks;
    assert [] + RunDefaulters(c, ks, m).calls == RunDefaulters(c, ks, m).calls;
  }

  /** The client of the `Update` test with every discovery on: each list
      endpoint answers with one ID. */
  predicate OneOfEach(c: Client)
  {
    && c.list(LocationProfiles) == Ok(["123"])
    && c.list(NotificationProfiles) == Ok(["456"])
    && c.list(ThresholdProfiles) == Ok(["789"])
    && c.list(UserGroups) == Ok(["012"])
    && c.list(MonitorGroups) == Ok(["345"])
  }

  /** The last defaulter of that test, on the monitor the first four left. */
  lemma DiscoverLastOne(c: Client)
    requires OneOfEach(c)
    ensures RunDefaulters(c, [UserGroups], TestSiteMonitor("123", "456", "789", ["345"], []))
            == Defaulted([List(UserGroups)], TestSiteMonitor("123", "456", "789", ["345"], ["012"]), None)
  {
    var m4 := TestSiteMonitor("123", "456", "789", ["345"], []);
    var m5 := TestSiteMonitor("123", "456", "789", ["345"], ["012"]);
    var none: seq<Listing> := [];
    assert RunDefaulters(c, none, m5) == Defaulted([], m5, None);
    RunFirstFills(c, UserGroups, none, m4, "012");
    assert WithSetting(m4, UserGroups, "012") == m5;
    assert [UserGroups] + none == [UserGroups];
    assert [List(UserGroups)] + [] == [List(UserGroups)];
  }

  /** The last two defaulters of that test. */
  lemma DiscoverLastTwo(c: Client)
    requires OneOfEach(c)
    ensures RunDefaulters(c, [ThresholdProfiles, UserGroups], TestSiteMonitor("123", "456", "", ["345"], []))
            == Defaulted([List(ThresholdProfiles), List(UserGroups)], TestSiteMonitor("123", "456", "789", ["345"], ["012"]), None)
  {
    var m3 := TestSiteMonitor("123", "456", "", ["345"], []);
    DiscoverLastOne(c);
    RunFirstFills(c, ThresholdProfiles, [UserGroups], m3, "789");
    assert WithSetting(m3, ThresholdProfiles, "789") == TestSiteMonitor("123", "456", "789", ["345"], []);
    assert [ThresholdProfiles] + [UserGroups] == [ThresholdProfiles, UserGroups];
    assert [List(ThresholdProfiles)] + [List(UserGroups)] == [List(ThresholdProfiles), List(UserGroups)];
  }

  /** The last three defaulters of that test. */
  lemma DiscoverLastThree(c: Client)
    requires OneOfEach(c)
    ensures RunDefaulters(c, [NotificationProfiles, ThresholdProfiles, UserGroups], TestSiteMonitor("123", "", "", ["345"], []))
            == Defaulted([List(NotificationProfiles), List(ThresholdProfiles), List(UserGroups)],
                         TestSiteMonitor("123", "456", "789", ["345"], ["012"]), None)
  {
    var m2 := TestSiteMonitor("123", "", "", ["345"], []);
    DiscoverLastTwo(c);
    RunFirstFills(c, NotificationProfiles, [ThresholdProfiles, UserGroups], m2, "456");
    assert WithSetting(m2, NotificationProfiles, "456") == TestSiteMonitor("123", "456", "", ["345"], []);
    ConsTwo(NotificationProfiles, ThresholdProfiles, UserGroups);
    ConsTwo(List(NotificationProfiles), List(ThresholdProfiles), List(UserGroups));
  }

  /** The last four defaulters of that test. */
  lemma DiscoverLastFour(c: Client)
    requires OneOfEach(c)
    ensures RunDefaulters(c, [MonitorGroups, NotificationProfiles, ThresholdProfiles, UserGroups], TestSiteMonitor("123", "", "", [], []))
            == Defaulted([List(MonitorGroups), List(NotificationProfiles), List(ThresholdProfiles), List(UserGroups)],
                         TestSiteMonitor("123", "456", "789", ["345"], ["012"]), None)
  {
    var m1 := TestSiteMonitor("123", "", "", [], []);
    DiscoverLastThree(c);
    RunFirstFills(c, MonitorGroups, [NotificationProfiles, ThresholdProfiles, UserGroups], m1, "345");
    assert WithSetting(m1, MonitorGroups, "345") == TestSiteMonitor("123", "", "", ["345"], []);
    ConsThree(MonitorGroups, NotificationProfiles, ThresholdProfiles, UserGroups);
    ConsThree(List(MonitorGroups), List(NotificationProfiles), List(ThresholdProfiles), List(UserGroups));
  }

  lemma ConsTwo<T>(a: T, b: T, c: T)
    ensures [a] + [b, c] == [a, b, c]
  {
  }

  lemma ConsThree<T>(a: T, b: T, c: T, d: T)
    ensures [a] + [b, c, d] == [a, b, c, d]
  {
  }

  /** The defaulters of that test on the unannotated monitor: each list is
      read once, in order, and its first ID fills its setting. */
  lemma DiscoverAll(c: Client)
    requires OneOfEach(c)
    ensures RunDefaulters(c, DefaulterOrder, TestSiteMonitor("", "", "", [], []))
            == Defaulted([List(LocationProfiles), List(MonitorGroups), List(NotificationProfiles), List(ThresholdProfiles),
                          List(UserGroups)], TestSiteMonitor("123", "456", "789", ["345"], ["012"]), None)
  {
    var m0 := TestSiteMonitor("", "", "", [], []);
    var ks1 := [MonitorGroups, NotificationProfiles, ThresholdProfiles, UserGroups];
    DiscoverLastFour(c);
    RunFirstFills(c, LocationProfiles, ks1, m0, "123");
    assert WithSetting(m0, LocationProfiles, "123") == TestSiteMonitor("123", "", "", [], []);
    ConsFour(LocationProfiles, MonitorGroups, NotificationProfiles, ThresholdProfiles, UserGroups);
    ConsFour(List(LocationProfiles), List(MonitorGroups), List(NotificationProfiles), List(ThresholdProfiles), List(UserGroups));
  }

  lemma ConsFour<T>(a: T, b: T, c: T, d: T, e: T)
    ensures [a] + [b, c, d, e] == [a, b, c, d, e]
  {
  }

  /** The `Update` test with every discovery on: the five lists are read in
      `getDefaulters`'s order and the update carries the first ID of each. */
  lemma UpdateDiscoversEverything(p: Site24x7)
    requires p.config.monitorDefaults == AutoOnly(true, true, true, true, true)
    requires OneOfEach(p.client)
    ensures var expected := TestSiteMonitor("123", "456", "789", ["345"], ["012"]);
            Update(p, TestModel(map[])) ==
            Called([List(LocationProfiles), List(MonitorGroups), List(NotificationProfiles), List(ThresholdProfiles),
                    List(UserGroups), UpdateCall(expected)], p.client.update(expected))
  {
    var d := p.config.monitorDefaults;
    var expected := TestSiteMonitor("123", "456", "789", ["345"], ["012"]);
    var calls := [List(LocationProfiles), List(MonitorGroups), List(NotificationProfiles), List(ThresholdProfiles),
                  List(UserGroups)];
    assert BuildMonitor(p, TestModel(map[])) == Built(calls, Ok(expected)) by {
      AllDefaulters(d);
      assert GetDefaulters(d) == DefaulterOrder;
      PlainModelMaps(d, p.decoders);
      DiscoverAll(p.client);
    }
    SnocFive(List(LocationProfiles), List(MonitorGroups), List(NotificationProfiles), List(ThresholdProfiles),
             List(UserGroups), UpdateCall(expected));
  }

  lemma SnocFive<T>(a: T, b: T, c: T, d: T, e: T, f: T)
    ensures [a, b, c, d, e] + [f] == [a, b, c, d, e, f]
  {
  }

  /** The `Update` test with an explicit location profile: it is kept and
      the account's profiles are not listed. */
  lemma UpdateKeepsExplicitProfile(p: Site24x7)
    requires p.config.monitorDefaults == AutoOnly(true, false, false, false, false)
    ensures var expected := TestSiteMonitor("456", "", "", [], []);
            Update(p, TestModel(map[Annotations.Site24x7LocationProfileID := "456"]))
            == Called([UpdateCall(expected)], p.client.update(expected))
  {
    var model := TestModel(map[Annotations.Site24x7LocationProfileID := "456"]);
    var expected := TestSiteMonitor("456", "", "", [], []);
    var calls: seq<ClientCall> := [];
    assert Update(p, model) == Called(calls + [UpdateCall(expected)], p.client.update(expected)) by {
      ExplicitProfileBuilt(p);
      UpdateOfBuilt(p, model, calls, expected);
    }
    assert calls + [UpdateCall(expected)] == [UpdateCall(expected)];
  }

  /** The monitor of that test is built without a client call. */
  lemma ExplicitProfileBuilt(p: Site24x7)
    requires p.config.monitorDefaults == AutoOnly(true, false, false, false, false)
    ensures BuildMonitor(p, TestModel(map[Annotations.Site24x7LocationProfileID := "456"]))
            == Built([], Ok(TestSiteMonitor("456", "", "", [], [])))
  {
    var d := p.config.monitorDefaults;
    OneDefaulter(d, LocationProfiles);
    var model := TestModel(map[Annotations.Site24x7LocationProfileID := "456"]);
    var expected := TestSiteMonitor("456", "", "", [], []);
    assert FromModel(model, d, p.decoders) == Ok(expected) by {
      LocationProfileOnly(d, p.decoders);
    }
    var none: seq<Listing> := [];
    RunFirstKept(p.client, LocationProfiles, none, expected);
    assert [LocationProfiles] + none == [LocationProfiles];
    BuildRunsDefaulters(p, model, [LocationProfiles], expected);
  }

  /** A built monitor is sent as the update, after the build's calls. */
  lemma UpdateOfBuilt(p: Site24x7, m: Models.Monitor, calls: seq<ClientCall>, monitor: SiteMonitor)
    requires BuildMonitor(p, m) == Built(calls, Ok(monitor))
    ensures Update(p, m) == Called(calls + [UpdateCall(monitor)], p.client.update(monitor))
  {
  }

  /** With only a location profile annotated, the built monitor, before the
      defaulters run, carries that profile and every other default. */
  lemma LocationProfileOnly(d: Config.MonitorDefaults, dec: Decoders)
    requires d == AutoOnly(d.autoLocationProfile, d.autoNotificationProfile, d.autoThresholdProfile,
                           d.autoMonitorGroup, d.autoUserGroup)
    ensures FromModel(TestModel(map[Annotations.Site24x7LocationProfileID := "456"]), d, dec)
            == Ok(TestSiteMonitor("456", "", "", [], []))
  {
    var model := TestModel(map[Annotations.Site24x7LocationProfileID := "456"]);
    LocationProfileAnnotation(model, d, dec, "456");
    assert model.(annotations := map[]) == TestModel(map[]);
    PlainModelMaps(d, dec);
  }

  /** The `Update` test whose account has no location profiles: the update
      fails with that error and nothing is sent. */
  lemma UpdateFailsWithoutProfiles(p: Site24x7)
    requires p.config.monitorDefaults == AutoOnly(true, false, false, false, false)
    requires p.client.list(LocationProfiles) == Ok([])
    ensures Update(p, TestModel(map[]))
            == Called([List(LocationProfiles)], Some(Failure("no location profiles configured")))
  {
    var d := p.config.monitorDefaults;
    OneDefaulter(d, LocationProfiles);
    PlainModelMaps(d, p.decoders);
  }

  /** The `Create` test with an undecodable actions annotation: the decoding
      error is returned and the client is not called. */
  lemma CreateRejectsInvalidJson(p: Site24x7, reason: string)
    requires p.config.monitorDefaults == AutoOnly(false, false, false, false, false)
    requires p.decoders.actions("{invalidjson", None) == Annotations.Undecodable(reason)
    ensures Create(p, TestModel(map[Annotations.Site24x7Actions := "{invalidjson"]))
            == Called([], Some(Failure(Annotations.InvalidJsonMessage(Annotations.Site24x7Actions, "{invalidjson", reason))))
  {
    var model := TestModel(map[Annotations.Site24x7Actions := "{invalidjson"]);
    ActionsErrorAlone(model, p.config.monitorDefaults, p.decoders, "{invalidjson");
    CreateOfUnmapped(p, model);
  }

  /** A model that does not map is not created, and nothing is called. */
  lemma CreateOfUnmapped(p: Site24x7, m: Models.Monitor)
    requires FromModel(m, p.config.monitorDefaults, p.decoders).Err?
    ensures Create(p, m) == Called([], Some(FromModel(m, p.config.monitorDefaults, p.decoders).error))
  {
  }
}
