/** Filling a Site24x7 monitor's profile and group settings from the account
    (`pkg/provider/site24x7/defaulters.go` and `finalizers.go`). There is one
    defaulter per setting; each leaves a setting that is already set alone,
    and otherwise lists the account's profiles or groups and takes the first.
    The finalizers are the same steps, switched off by the `Auto*` option of
    their setting. */
module Site24x7Defaulters {
  import opened Outcomes
  import opened Site24x7Api
  import Config

  /** The setting a listing fills is set: a non-empty profile ID, or a
      non-empty list of group IDs. */
  predicate IsSet(m: SiteMonitor, k: Listing)
  {
    match k
    case LocationProfiles => m.locationProfileID != ""
    case NotificationProfiles => m.notificationProfileID != ""
    case ThresholdProfiles => m.thresholdProfileID != ""
    case MonitorGroups => |m.monitorGroups| > 0
    case UserGroups => |m.userGroupIDs| > 0
  }

  /** The IDs a setting holds; a profile ID is a one-element list. */
  function Setting(m: SiteMonitor, k: Listing): seq<string>
  {
    match k
    case LocationProfiles => [m.locationProfileID]
    case NotificationProfiles => [m.notificationProfileID]
    case ThresholdProfiles => [m.thresholdProfileID]
    case MonitorGroups => m.monitorGroups
    case UserGroups => m.userGroupIDs
  }

  /** The monitor without the five settings the defaulters fill. */
  function Rest(m: SiteMonitor): SiteMonitor
  {
    m.(locationProfileID := "", notificationProfileID := "", thresholdProfileID := "",
       monitorGroups := [], userGroupIDs := [])
  }

  /** The monitor with the setting of `k` holding exactly `id`, for a group
      setting as a one-element list. */
  function WithSetting(m: SiteMonitor, k: Listing, id: string): (r: SiteMonitor)
    ensures Setting(r, k) == [id]
    ensures forall o :: o != k ==> Setting(r, o) == Setting(m, o)
    ensures Rest(r) == Rest(m)
  {
    match k
    case LocationProfiles => m.(locationProfileID := id)
    case NotificationProfiles => m.(notificationProfileID := id)
    case ThresholdProfiles => m.(thresholdProfileID := id)
    case MonitorGroups => m.(monitorGroups := [id])
    case UserGroups => m.(userGroupIDs := [id])
  }

  /** The error for an account that has nothing of a kind configured. */
  function EmptyMessage(k: Listing): string
  {
    match k
    case LocationProfiles => "no location profiles configured"
    case NotificationProfiles => "no notification profiles configured"
    case ThresholdProfiles => "no threshold profiles configured"
    case MonitorGroups => "no monitor groups configured"
    case UserGroups => "no user groups configured"
  }

  /** The option that switches a finalizer on. */
  function Auto(d: Config.MonitorDefaults, k: Listing): bool
  {
    match k
    case LocationProfiles => d.autoLocationProfile
    case NotificationProfiles => d.autoNotificationProfile
    case ThresholdProfiles => d.autoThresholdProfile
    case MonitorGroups => d.autoMonitorGroup
    case UserGroups => d.autoUserGroup
  }

  /** The client calls a defaulter made, the monitor as it leaves it, and its error. */
  datatype Defaulted = Defaulted(calls: seq<ClientCall>, monitor: SiteMonitor, err: Option<Error>)

  /** List the account's items of kind `k` and take the first one's ID: a list
      error is returned as it is, an empty list is an error, and a failure
      leaves the monitor alone. */
  function FillFromList(c: Client, k: Listing, m: SiteMonitor): (r: Defaulted)
    ensures r.calls == [List(k)]
    ensures c.list(k).Err? ==> r.err == Some(c.list(k).error) && r.monitor == m
    ensures c.list(k) == Ok([]) ==> r.err == Some(Failure(EmptyMessage(k))) && r.monitor == m
    ensures r.err == None <==> c.list(k).Ok? && |c.list(k).value| > 0
    ensures r.err == None ==> Setting(r.monitor, k) == [c.list(k).value[0]]
    ensures forall o :: o != k ==> Setting(r.monitor, o) == Setting(m, o)
    ensures Rest(r.monitor) == Rest(m)
  {
    match c.list(k)
    case Err(e) => Defaulted([List(k)], m, Some(e))
    case Ok(ids) =>
      if |ids| == 0 then Defaulted([List(k)], m, Some(Failure(EmptyMessage(k))))
      else Defaulted([List(k)], WithSetting(m, k, ids[0]), None)
  }

  /** `withDefaultLocationProfile`, `withDefaultNotificationProfile`,
      `withDefaultThresholdProfile`, `withDefaultMonitorGroup` and
      `withDefaultUserGroup`: a set setting is kept without any client call;
      an unset one is filled from the account's list. Only that setting
      changes. */
  function WithDefault(c: Client, k: Listing, m: SiteMonitor): (r: Defaulted)
    ensures IsSet(m, k) ==> r == Defaulted([], m, None)
    ensures !IsSet(m, k) ==> r.calls == [List(k)]
    ensures !IsSet(m, k) && c.list(k).Err? ==> r.err == Some(c.list(k).error)
    ensures !IsSet(m, k) && c.list(k) == Ok([]) ==> r.err == Some(Failure(EmptyMessage(k)))
    ensures r.err == None && !IsSet(m, k) ==>
              c.list(k).Ok? && |c.list(k).value| > 0 && Setting(r.monitor, k) == [c.list(k).value[0]]
    ensures forall o :: o != k ==> Setting(r.monitor, o) == Setting(m, o)
    ensures Rest(r.monitor) == Rest(m)
  {
    if IsSet(m, k) then Defaulted([], m, None) else FillFromList(c, k, m)
  }

  /** `finalizeLocationProfile` and its four siblings: no-ops when the
      setting is set or its `Auto*` option is off; otherwise filled from the
      account's list. */
  function Finalize(c: Client, d: Config.MonitorDefaults, k: Listing, m: SiteMonitor): (r: Defaulted)
    ensures IsSet(m, k) || !Auto(d, k) ==> r == Defaulted([], m, None)
    ensures !IsSet(m, k) && Auto(d, k) ==> r.calls == [List(k)]
    ensures forall o :: o != k ==> Setting(r.monitor, o) == Setting(m, o)
    ensures Rest(r.monitor) == Rest(m)
  {
    if IsSet(m, k) || !Auto(d, k) then Defaulted([], m, None) else FillFromList(c, k, m)
  }

  /** A finalizer is its defaulter gated by the `Auto*` option. */
  lemma FinalizeIsGatedDefault(c: Client, d: Config.MonitorDefaults, k: Listing, m: SiteMonitor)
    ensures Finalize(c, d, k, m) == if Auto(d, k) then WithDefault(c, k, m) else Defaulted([], m, None)
  {
  }

  /** Running a defaulter a second time on its own result changes nothing
      and calls nothing when the first run set a non-empty ID. */
  lemma WithDefaultIdempotent(c: Client, k: Listing, m: SiteMonitor)
    requires WithDefault(c, k, m).err == None
    requires IsSet(m, k) || c.list(k).value[0] != ""
    ensures var once := WithDefault(c, k, m).monitor;
            WithDefault(c, k, once) == Defaulted([], once, None)
  {
    var once := WithDefault(c, k, m).monitor;
    if !IsSet(m, k) {
      assert Setting(once, k) == [c.list(k).value[0]];
      match k
      case LocationProfiles =>
      case NotificationProfiles =>
      case ThresholdProfiles =>
      case MonitorGroups =>
      case UserGroups =>
    }
  }

  /** A run that succeeded followed by another run: the calls of both, and
      the second run's monitor and error. */
  function Then(x: Defaulted, y: Defaulted): Defaulted
  {
    Defaulted(x.calls + y.calls, y.monitor, y.err)
  }

  /** The defaulters of `build`, run in order: the first error ends the run
      and is returned. */
  function RunDefaulters(c: Client, ks: seq<Listing>, m: SiteMonitor): (r: Defaulted)
    ensures |r.calls| <= |ks|
    ensures forall i :: 0 <= i < |r.calls| ==> r.calls[i].List? && r.calls[i].listing in ks
    ensures forall o :: o !in ks ==> Setting(r.monitor, o) == Setting(m, o)
    ensures Rest(r.monitor) == Rest(m)
    ensures |ks| == 0 ==> r == Defaulted([], m, None)
    ensures |ks| > 0 && WithDefault(c, ks[0], m).err.Some? ==> r == WithDefault(c, ks[0], m)
    decreases |ks|
  {
    if |ks| == 0 then Defaulted([], m, None)
    else
      var first := WithDefault(c, ks[0], m);
      if first.err.Some? then first
      else Then(first, RunDefaulters(c, ks[1..], first.monitor))
  }

  /** The defaulters run in the order listed: running `a` then `b` is
      running `a`, and, unless that failed, running `b` on its result with
      the calls of both in that order. An error in `a` ends the run before
      any defaulter of `b` is called. */
  lemma {:induction false} RunDefaultersAppend(c: Client, a: seq<Listing>, b: seq<Listing>, m: SiteMonitor)
    ensures RunDefaulters(c, a, m).err.Some? ==> RunDefaulters(c, a + b, m) == RunDefaulters(c, a, m)
    ensures RunDefaulters(c, a, m).err.None? ==>
              RunDefaulters(c, a + b, m)
                == Then(RunDefaulters(c, a, m), RunDefaulters(c, b, RunDefaulters(c, a, m).monitor))
    decreases |a|
  {
    if |a| == 0 {
      assert a + b == b;
    } else {
      var first := WithDefault(c, a[0], m);
      if first.err.None? {
        RunDefaultersAppend(c, a[1..], b, first.monitor);
        var ra' := RunDefaulters(c, a[1..], first.monitor);
        assert RunDefaulters(c, a + b, m) == Then(first, RunDefaulters(c, a[1..] + b, first.monitor)) by {
          assert (a + b)[0] == a[0];
          assert (a + b)[1..] == a[1..] + b;
        }
        assert RunDefaulters(c, a, m) == Then(first, ra');
        if ra'.err.None? {
          ThenAssoc(first, ra', RunDefaulters(c, b, ra'.monitor));
        }
      } else {
        assert (a + b)[0] == a[0];
      }
    }
  }

  /** Chaining runs is associative. */
  lemma ThenAssoc(x: Defaulted, y: Defaulted, z: Defaulted)
    ensures Then(x, Then(y, z)) == Then(Then(x, y), z)
  {
    assert x.calls + (y.calls + z.calls) == (x.calls + y.calls) + z.calls;
  }

  /** What a setting holds after its defaulter ran without error: what it
      held, when it was set, else the first listed ID. */
  predicate Filled(c: Client, before: SiteMonitor, after: SiteMonitor, k: Listing)
  {
    if IsSet(before, k) then Setting(after, k) == Setting(before, k)
    else c.list(k).Ok? && |c.list(k).value| > 0 && Setting(after, k) == [c.list(k).value[0]]
  }

  /** After an error-free run every listed setting is filled, however often
      it is listed. */
  lemma {:induction false} RunDefaultersFills(c: Client, ks: seq<Listing>, m: SiteMonitor)
    requires RunDefaulters(c, ks, m).err == None
    ensures forall k :: k in ks ==> Filled(c, m, RunDefaulters(c, ks, m).monitor, k)
    decreases |ks|
  {
    if |ks| > 0 {
      var k0 := ks[0];
      var first := WithDefault(c, k0, m);
      var after := RunDefaulters(c, ks, m).monitor;
      assert first.err == None;
      RunDefaultersFills(c, ks[1..], first.monitor);
      assert after == RunDefaulters(c, ks[1..], first.monitor).monitor;
      forall k | k in ks
        ensures Filled(c, m, after, k)
      {
        if k != k0 {
          assert k in ks[1..];
          assert Filled(c, first.monitor, after, k);
          assert IsSet(first.monitor, k) == IsSet(m, k) by {
            assert Setting(first.monitor, k) == Setting(m, k);
            SettingDecidesIsSet(first.monitor, m, k);
          }
        } else if k in ks[1..] {
          assert Filled(c, first.monitor, after, k);
          FilledTwice(c, m, first.monitor, after, k);
        } else {
          assert Setting(after, k) == Setting(first.monitor, k);
        }
      }
    }
  }

  /** Whether a setting is set depends only on the IDs it holds. */
  lemma SettingDecidesIsSet(a: SiteMonitor, b: SiteMonitor, k: Listing)
    requires Setting(a, k) == Setting(b, k)
    ensures IsSet(a, k) == IsSet(b, k)
  {
    match k
    case LocationProfiles => assert Setting(a, k)[0] == Setting(b, k)[0];
    case NotificationProfiles => assert Setting(a, k)[0] == Setting(b, k)[0];
    case ThresholdProfiles => assert Setting(a, k)[0] == Setting(b, k)[0];
    case MonitorGroups =>
    case UserGroups =>
  }

  /** Filling a setting that a defaulter already filled from the list leaves
      it filled as the first time. */
  lemma FilledTwice(c: Client, m: SiteMonitor, mid: SiteMonitor, after: SiteMonitor, k: Listing)
    requires WithDefault(c, k, m).err == None && mid == WithDefault(c, k, m).monitor
    requires Filled(c, mid, after, k)
    ensures Filled(c, m, after, k)
  {
    if !IsSet(m, k) && IsSet(mid, k) {
      assert Setting(after, k) == Setting(mid, k);
    }
  }
}
