/** Merging the monitoring provider's source ranges into an Ingress's nginx
    source-range whitelist (`pkg/monitor/annotation.go`). The whitelist is a
    comma-separated annotation; provider ranges that it lacks are appended, in
    the provider's order, after the ranges already there. */
module SourceRangeWhitelist {
  import opened Outcomes
  import opened Kube
  import Text
  import Strconv
  import Annotations
  import MonitorUrl
  import opened MonitorService
  import MonitorStore

  const WhitelistSourceRange: string := "nginx.ingress.kubernetes.io/whitelist-source-range"

  /** `shouldPatchSourceRangeWhitelist`: the monitor is enabled and the
      whitelist annotation holds a non-empty value. */
  function ShouldPatch(ing: Ingress): (r: bool)
    ensures r <==> && Annotations.Enabled in ing.annotations
                   && ing.annotations[Annotations.Enabled] in Strconv.TrueSpellings
                   && WhitelistSourceRange in ing.annotations
                   && ing.annotations[WhitelistSourceRange] != ""
  {
    Annotations.BoolValue(ing.annotations, Annotations.Enabled, [])
    && |Annotations.Lookup(ing.annotations, WhitelistSourceRange)| > 0
  }

  /** `difference`: the elements of `a` that are not in `b`, in `a`'s order and
      with `a`'s repetitions. */
  function Difference(a: seq<string>, b: seq<string>): (d: seq<string>)
    ensures forall x {:trigger x in d} :: x in d <==> x in a && x !in b
    ensures forall x {:trigger multiset(d)[x]} :: multiset(d)[x] == if x in b then 0 else multiset(a)[x]
    ensures |d| <= |a|
    decreases |a|
  {
    if |a| == 0 then []
    else
      var init := a[..|a| - 1];
      var last := a[|a| - 1];
      assert a == init + [last];
      Difference(init, b) + (if last in b then [] else [last])
  }

  /** `Difference` keeps `a`'s order: the difference of a concatenation is
      the concatenation of the differences. */
  lemma {:induction false} DifferenceAppend(a1: seq<string>, a2: seq<string>, b: seq<string>)
    ensures Difference(a1 + a2, b) == Difference(a1, b) + Difference(a2, b)
    decreases |a2|
  {
    if |a2| == 0 {
      assert a1 + a2 == a1;
    } else {
      var init, last := a2[..|a2| - 1], a2[|a2| - 1];
      var tail := if last in b then [] else [last];
      assert a1 + a2 == (a1 + init) + [last];
      DifferenceSnoc(a1 + init, last, b);
      DifferenceSnoc(init, last, b);
      assert a2 == init + [last];
      DifferenceAppend(a1, init, b);
      var d1, di := Difference(a1, b), Difference(init, b);
      assert (d1 + di) + tail == d1 + (di + tail);
    }
  }

  /** Appending one element to the first list appends it to the difference
      unless `b` holds it. */
  lemma DifferenceSnoc(a: seq<string>, x: string, b: seq<string>)
    ensures Difference(a + [x], b) == Difference(a, b) + (if x in b then [] else [x])
  {
    assert (a + [x])[..|a + [x]| - 1] == a;
  }

  /** A single element is kept exactly when `b` lacks it. */
  lemma DifferenceOne(x: string, b: seq<string>)
    ensures Difference([x], b) == if x in b then [] else [x]
  {
    assert [x][..0] == [];
  }

  /** Nothing is left over exactly when `b` holds every element of `a`. */
  lemma DifferenceEmpty(a: seq<string>, b: seq<string>)
    ensures Difference(a, b) == [] <==> forall i :: 0 <= i < |a| ==> a[i] in b
  {
    if Difference(a, b) == [] {
      forall i | 0 <= i < |a|
        ensures a[i] in b
      {
        assert a[i] !in Difference(a, b);
      }
    } else {
      var x := Difference(a, b)[0];
      assert x in Difference(a, b);
      var i :| 0 <= i < |a| && a[i] == x;
    }
  }

  /** The Go loop: a set of `b`'s elements is built first, then `a` is scanned
      once. It computes `Difference`. */
  method ComputeDifference(a: seq<string>, b: seq<string>) returns (diff: seq<string>)
    ensures diff == Difference(a, b)
  {
    var seen: set<string> := {};
    for i := 0 to |b|
      invariant forall x :: x in seen <==> x in b[..i]
    {
      assert b[..i + 1] == b[..i] + [b[i]];
      seen := seen + {b[i]};
    }
    assert b[..|b|] == b;
    diff := [];
    for i := 0 to |a|
      invariant diff == Difference(a[..i], b)
    {
      assert a[..i + 1][..i] == a[..i];
      if a[i] !in seen {
        diff := diff + [a[i]];
      }
    }
    assert a[..|a|] == a;
  }

  /** What `mergeProviderSourceRanges` returns. */
  datatype Merged = Merged(ranges: seq<string>, updated: bool)

  /** `mergeProviderSourceRanges`: provider ranges that are missing are
      appended after the existing ones; nothing is reported as updated when
      none is missing. */
  function Merge(current: seq<string>, provider: seq<string>): (r: Merged)
    ensures r.updated <==> exists i :: 0 <= i < |provider| && provider[i] !in current
    ensures !r.updated ==> r.ranges == current
    ensures |r.ranges| >= |current| && r.ranges[..|current|] == current
    ensures forall x :: x in r.ranges <==> x in current || x in provider
    ensures forall x :: x in r.ranges[|current|..] ==> x !in current
    ensures r.ranges == current + Difference(provider, current)
  {
    var missing := Difference(provider, current);
    if |missing| == 0 then
      DifferenceEmpty(provider, current);
      Merged(current, false)
    else
      assert missing[0] in missing && missing[0] in provider;
      assert (current + missing)[..|current|] == current;
      assert (current + missing)[|current|..] == missing;
      Merged(current + missing, true)
  }

  /** Merging a second time adds nothing. */
  lemma MergeIdempotent(current: seq<string>, provider: seq<string>)
    ensures Merge(Merge(current, provider).ranges, provider) == Merged(Merge(current, provider).ranges, false)
  {
  }

  /** What `AnnotateIngress` returns, together with the provider calls it
      made and the Ingress as it leaves it. */
  datatype AnnotateRun = AnnotateRun(calls: seq<ProviderCall>, updated: bool, ingress: Ingress, err: Option<Error>)

  /** `AnnotateIngress`: when the whitelist should be patched, the provider's
      ranges for the Ingress are fetched and merged into the whitelist. The
      Ingress changes, and `updated` is reported, only when a provider range
      was missing; then only the whitelist annotation changes and its new value
      is the old one, a comma, and the missing ranges joined by commas. */
  function AnnotateIngress(svc: Service, ing: Ingress): (r: AnnotateRun)
    ensures !ShouldPatch(ing) ==> r == AnnotateRun([], false, ing, None)
    ensures ShouldPatch(ing) ==> r.calls == GetProviderIPSourceRanges(svc, ing).calls
    ensures ShouldPatch(ing) && GetProviderIPSourceRanges(svc, ing).out.Err? ==>
              r.err == Some(GetProviderIPSourceRanges(svc, ing).out.error)
    ensures r.err.Some? <==> ShouldPatch(ing) && GetProviderIPSourceRanges(svc, ing).out.Err?
    ensures r.err.Some? ==> !r.updated
    ensures !r.updated ==> r.ingress == ing
    ensures r.updated <==>
              && ShouldPatch(ing)
              && GetProviderIPSourceRanges(svc, ing).out.Ok?
              && (exists i :: 0 <= i < |GetProviderIPSourceRanges(svc, ing).out.value|
                    && GetProviderIPSourceRanges(svc, ing).out.value[i]
                       !in Text.Split(ing.annotations[WhitelistSourceRange], ','))
    ensures r.updated ==> r.err == None && r.ingress.(annotations := ing.annotations) == ing
    ensures r.updated ==> r.ingress.annotations == ing.annotations[WhitelistSourceRange :=
              ing.annotations[WhitelistSourceRange] + "," + Text.Join(Difference(GetProviderIPSourceRanges(svc, ing).out.value,
                                                                             Text.Split(ing.annotations[WhitelistSourceRange], ',')), ',')]
  {
    if !ShouldPatch(ing) then AnnotateRun([], false, ing, None)
    else
      var fetched := GetProviderIPSourceRanges(svc, ing);
      match fetched.out
      case Err(e) => AnnotateRun(fetched.calls, false, ing, Some(e))
      case Ok(ranges) =>
        if |ranges| == 0 then AnnotateRun(fetched.calls, false, ing, None)
        else
          var existing := ing.annotations[WhitelistSourceRange];
          var current := Text.Split(existing, ',');
          var merged := Merge(current, ranges);
          if !merged.updated then AnnotateRun(fetched.calls, false, ing, None)
          else
            var missing := Difference(ranges, current);
            Text.JoinSplit(existing, ',');
            Text.JoinAppend(current, missing, ',');
            AnnotateRun(fetched.calls, true,
                        ing.(annotations := ing.annotations[WhitelistSourceRange := Text.Join(merged.ranges, ',')]), None)
  }

  /** Joining the merged whitelist is appending a comma and the joined
      missing ranges to the whitelist's text. */
  lemma MergedText(existing: string, missing: seq<string>)
    requires |missing| >= 1
    ensures Text.Join(Text.Split(existing, ',') + missing, ',') == existing + "," + Text.Join(missing, ',')
  {
    Text.JoinSplit(existing, ',');
    Text.JoinAppend(Text.Split(existing, ','), missing, ',');
  }

  /** The reference store offers no ranges for an unsupported Ingress and its
      one list of ranges for any other. */
  lemma StoreRanges(svc: Service, s: MonitorStore.Store, ranges: seq<string>, ing: Ingress)
    ensures var out := GetProviderIPSourceRanges(MonitorStore.OnStore(svc, s, ranges), ing).out;
            out.Ok? ==> out.value == [] || out.value == ranges
  {
  }

  /** A whitelist value holding every provider range: merging those ranges
      into it finds nothing missing and leaves the whitelist as it is. */
  lemma NothingMissing(value: string, ranges: seq<string>)
    requires forall x :: x in ranges ==> x in Text.Split(value, ',')
    ensures !Merge(Text.Split(value, ','), ranges).updated
    ensures Merge(Text.Split(value, ','), ranges).ranges == Text.Split(value, ',')
  {
  }

  /** After an update, the whitelist value splits into the old ranges followed
      by the missing provider ranges, so it holds every provider range. */
  lemma UpdatedValueHoldsRanges(existing: string, ranges: seq<string>)
    requires forall i :: 0 <= i < |ranges| ==> ',' !in ranges[i]
    requires Merge(Text.Split(existing, ','), ranges).updated
    ensures var current := Text.Split(existing, ',');
            var value := existing + "," + Text.Join(Difference(ranges, current), ',');
            && Text.Split(value, ',') == current + Difference(ranges, current)
            && forall x :: x in ranges ==> x in Text.Split(value, ',')
  {
    var current := Text.Split(existing, ',');
    var missing := Difference(ranges, current);
    var value := existing + "," + Text.Join(missing, ',');
    assert |missing| >= 1 by {
      var i :| 0 <= i < |ranges| && ranges[i] !in current;
      assert ranges[i] in missing;
    }
    assert Text.Join(current + missing, ',') == value by {
      Text.JoinSplit(existing, ',');
      Text.JoinAppend(current, missing, ',');
    }
    assert Text.Split(value, ',') == current + missing by {
      CommaFreeAppend(current, missing);
      Text.SplitJoin(current + missing, ',');
    }
  }

  /** Gluing two lists of comma-free pieces keeps every piece comma-free. */
  lemma CommaFreeAppend(a: seq<string>, b: seq<string>)
    requires forall i :: 0 <= i < |a| ==> ',' !in a[i]
    requires forall x :: x in b ==> ',' !in x
    ensures forall i :: 0 <= i < |a + b| ==> ',' !in (a + b)[i]
  {
    forall i | 0 <= i < |a + b|
      ensures ',' !in (a + b)[i]
    {
      if i >= |a| {
        assert (a + b)[i] == b[i - |a|];
        assert b[i - |a|] in b;
      }
    }
  }

  /** The Ingress with its whitelist annotation set to `v`. */
  function WithWhitelist(ing: Ingress, v: string): Ingress
  {
    ing.(annotations := ing.annotations[WhitelistSourceRange := v])
  }

  /** The whitelist annotation plays no part in whether an Ingress is
      supported or in the URL its monitor checks. */
  lemma WhitelistLeavesUrl(ing: Ingress, v: string, parse: MonitorUrl.Parser)
    ensures MonitorUrl.IsSupported(WithWhitelist(ing, v)) == MonitorUrl.IsSupported(ing)
    ensures MonitorUrl.HasHost(ing) ==> MonitorUrl.BuildURL(WithWhitelist(ing, v), parse) == MonitorUrl.BuildURL(ing, parse)
  {
    assert |WhitelistSourceRange| != |Annotations.ForceHTTPS|;
    assert |WhitelistSourceRange| != |MonitorUrl.NginxForceSSLRedirect|;
    assert |WhitelistSourceRange| != |Annotations.PathOverride|;
  }

  /** Annotating twice, with a provider that offers the same comma-free
      ranges for the annotated Ingress as for the original: the second run
      reports no update, keeps the Ingress as the first run left it, and ends
      with the first run's error (none, when the first run succeeded). */
  lemma AnnotateTwice(svc: Service, ing: Ingress)
    requires GetProviderIPSourceRanges(svc, AnnotateIngress(svc, ing).ingress).out == GetProviderIPSourceRanges(svc, ing).out
    requires GetProviderIPSourceRanges(svc, ing).out.Ok? ==>
               forall i :: 0 <= i < |GetProviderIPSourceRanges(svc, ing).out.value| ==>
                 ',' !in GetProviderIPSourceRanges(svc, ing).out.value[i]
    ensures var first := AnnotateIngress(svc, ing);
            var second := AnnotateIngress(svc, first.ingress);
            && !second.updated && second.ingress == first.ingress && second.err == first.err
  {
    var first := AnnotateIngress(svc, ing);
    if first.updated {
      var ranges := GetProviderIPSourceRanges(svc, ing).out.value;
      UpdatedHoldsAll(svc, ing, ranges);
      NothingToAdd(svc, first.ingress, ranges);
    }
  }

  /** After an update the Ingress is still to be patched, and its whitelist
      holds every range the provider offered. */
  lemma UpdatedHoldsAll(svc: Service, ing: Ingress, ranges: seq<string>)
    requires AnnotateIngress(svc, ing).updated
    requires GetProviderIPSourceRanges(svc, ing).out == Ok(ranges)
    requires forall i :: 0 <= i < |ranges| ==> ',' !in ranges[i]
    ensures ShouldPatch(AnnotateIngress(svc, ing).ingress)
    ensures !Merge(Text.Split(AnnotateIngress(svc, ing).ingress.annotations[WhitelistSourceRange], ','), ranges).updated
  {
    var ing' := AnnotateIngress(svc, ing).ingress;
    var existing := ing.annotations[WhitelistSourceRange];
    var current := Text.Split(existing, ',');
    UpdatedValueHoldsRanges(existing, ranges);
    var value := ing'.annotations[WhitelistSourceRange];
    assert value == existing + "," + Text.Join(Difference(ranges, current), ',');
    assert ShouldPatch(ing') by {
      assert Annotations.Enabled != WhitelistSourceRange by {
        assert |Annotations.Enabled| != |WhitelistSourceRange|;
      }
    }
    NothingMissing(value, ranges);
  }

  /** An Ingress to be patched whose whitelist already holds every range the
      provider offers is left alone, without error. */
  lemma NothingToAdd(svc: Service, ing: Ingress, ranges: seq<string>)
    requires ShouldPatch(ing) && GetProviderIPSourceRanges(svc, ing).out == Ok(ranges)
    requires !Merge(Text.Split(ing.annotations[WhitelistSourceRange], ','), ranges).updated
    ensures AnnotateIngress(svc, ing) == AnnotateRun(GetProviderIPSourceRanges(svc, ing).calls, false, ing, None)
  {
  }

  /** Annotating an Ingress a second time against the reference store reports
      no update, leaves the Ingress as the first run left it, and ends with
      the first run's error. */
  lemma AnnotateIdempotent(svc: Service, s: MonitorStore.Store, ranges: seq<string>, ing: Ingress)
    requires forall i :: 0 <= i < |ranges| ==> ',' !in ranges[i]
    ensures var svc' := MonitorStore.OnStore(svc, s, ranges);
            var first := AnnotateIngress(svc', ing);
            var second := AnnotateIngress(svc', first.ingress);
            && !second.updated && second.ingress == first.ingress && second.err == first.err
  {
    var svc' := MonitorStore.OnStore(svc, s, ranges);
    var first := AnnotateIngress(svc', ing);
    StoreRanges(svc, s, ranges, ing);
    if first.updated {
      var v := first.ingress.annotations[WhitelistSourceRange];
      assert first.ingress == WithWhitelist(ing, v);
      WhitelistLeavesUrl(ing, v, svc.parseUrl);
      assert BuildMonitorModel(svc', first.ingress).Ok?;
    }
    AnnotateTwice(svc', ing);
  }
}
