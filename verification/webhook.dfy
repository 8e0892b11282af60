/** The mutating admission webhook (`pkg/admission/webhook.go`). For an
    Ingress whose monitor is enabled and whose nginx whitelist is set, it
    answers with a JSON patch (RFC 6902) that replaces the whitelist annotation
    by the whitelist merged with the provider's source ranges. Every decodable
    request is admitted; only a request whose object cannot be decoded is
    answered with an error. */
module AdmissionWebhook {
  import opened Outcomes
  import opened Kube
  import Text
  import Annotations
  import opened SourceRangeWhitelist
  import MonitorService

  /** `metav1.GroupVersionResource`. */
  datatype GroupVersionResource = GroupVersionResource(group: string, version: string, resource: string)

  /** The resources the webhook handles; any other is admitted untouched. */
  const IngressResources: seq<GroupVersionResource> := [
    GroupVersionResource("networking.k8s.io", "v1beta1", "ingresses"),
    GroupVersionResource("extensions", "v1beta1", "ingresses")
  ]

  /** `isSupportedResource`: Ingresses of the two v1beta1 API groups. */
  function IsSupportedResource(gvr: GroupVersionResource): (r: bool)
    ensures r <==> && gvr.resource == "ingresses" && gvr.version == "v1beta1"
                   && (gvr.group == "networking.k8s.io" || gvr.group == "extensions")
  {
    gvr in IngressResources
  }

  /** One operation of a JSON patch; the value is always a string here. */
  datatype PatchOperation = PatchOperation(op: string, path: string, value: string)

  const AnnotationsPointer: string := "/metadata/annotations/"

  /** The escaping the webhook applies to an annotation key before it becomes a
      JSON pointer token: each '/' becomes "~1". A '~' is left as it is. */
  function EscapeKey(key: string): (token: string)
    ensures '/' !in token
    ensures '/' !in key ==> token == key
  {
    Text.ReplaceAll(key, '/', "~1")
  }

  /** Decoding of a JSON pointer token by section 4 of RFC 6901: "~1" stands for
      '/' and "~0" for '~'. */
  function UnescapeToken(token: string): string
    decreases |token|
  {
    if |token| == 0 then ""
    else if |token| >= 2 && token[0] == '~' && token[1] == '1' then "/" + UnescapeToken(token[2..])
    else if |token| >= 2 && token[0] == '~' && token[1] == '0' then "~" + UnescapeToken(token[2..])
    else [token[0]] + UnescapeToken(token[1..])
  }

  /** For a key without '~', the token the webhook writes decodes back to the key. */
  lemma {:induction false} UnescapeEscapeKey(key: string)
    requires '~' !in key
    ensures UnescapeToken(EscapeKey(key)) == key
    decreases |key|
  {
    if |key| > 0 {
      UnescapeEscapeKey(key[1..]);
      var rest := EscapeKey(key[1..]);
      assert EscapeKey(key) == (if key[0] == '/' then "~1" else [key[0]]) + rest;
      if key[0] == '/' {
        UnescapeSlash(rest);
      } else {
        UnescapePlain(key[0], rest);
      }
      assert key == [key[0]] + key[1..];
    }
  }

  /** A leading "~1" decodes to '/'. */
  lemma UnescapeSlash(rest: string)
    ensures UnescapeToken("~1" + rest) == "/" + UnescapeToken(rest)
  {
    assert ("~1" + rest)[2..] == rest;
  }

  /** A leading character other than '~' decodes to itself. */
  lemma UnescapePlain(c: char, rest: string)
    requires c != '~'
    ensures UnescapeToken([c] + rest) == [c] + UnescapeToken(rest)
  {
    assert ([c] + rest)[1..] == rest;
  }

  /** A key holding "~1" does not survive the webhook's escaping: without a
      "~0" for its '~', the token reads back as a different key. */
  lemma TildeKeyDoesNotRoundTrip()
    ensures EscapeKey("a~1b") == "a~1b"
    ensures UnescapeToken("a~1b") == "a/b"
  {
    TildeOneBetween('a', 'b');
  }

  /** A "~1" between two plain characters is left alone by the escaping and
      read back as '/'. */
  lemma TildeOneBetween(x: char, y: char)
    requires x != '~' && x != '/' && y != '~' && y != '/'
    ensures EscapeKey([x, '~', '1', y]) == [x, '~', '1', y]
    ensures UnescapeToken([x, '~', '1', y]) == [x, '/', y]
  {
    var k := [x, '~', '1', y];
    assert '/' !in k;
    assert k[1..] == ['~', '1', y] && k[1..][2..] == [y];
    assert UnescapeToken([y]) == [y] by {
      assert [y][1..] == [];
    }
    assert UnescapeToken(k[1..]) == ['/', y];
    assert UnescapeToken(k) == [x] + ['/', y];
  }

  /** `createSourceRangeWhitelistPatch`: one "replace" operation on the
      escaped annotation key whose value is the ranges joined by commas. */
  function CreateSourceRangeWhitelistPatch(key: string, ranges: seq<string>): (patch: seq<PatchOperation>)
    ensures |patch| == 1 && patch[0].op == "replace"
    ensures patch[0].path == AnnotationsPointer + EscapeKey(key)
    ensures patch[0].value == Text.Join(ranges, ',')
    ensures |ranges| >= 1 && (forall i :: 0 <= i < |ranges| ==> ',' !in ranges[i]) ==>
              Text.Split(patch[0].value, ',') == ranges
  {
    var patch := [PatchOperation("replace", AnnotationsPointer + EscapeKey(key), Text.Join(ranges, ','))];
    if |ranges| >= 1 && (forall i :: 0 <= i < |ranges| ==> ',' !in ranges[i]) then
      Text.SplitJoin(ranges, ',');
      patch
    else patch
  }

  /** Applying a patch of "replace" operations on annotation pointers to an
      annotation map, as RFC 6902 prescribes: the target must exist. */
  function ApplyPatch(annotations: map<string, string>, patch: seq<PatchOperation>): Result<map<string, string>>
    decreases |patch|
  {
    if |patch| == 0 then Ok(annotations)
    else
      var op := patch[0];
      var n := |AnnotationsPointer|;
      if op.op != "replace" || |op.path| < n || op.path[..n] != AnnotationsPointer then
        Err(Failure("unsupported patch operation"))
      else
        var key := UnescapeToken(op.path[n..]);
        if key !in annotations then Err(Failure("replace target does not exist"))
        else ApplyPatch(annotations[key := op.value], patch[1..])
  }

  /** The part of an admission request the webhook reads: the resource and the
      raw object as the deserializer decodes it. */
  datatype AdmissionRequest = AdmissionRequest(resource: GroupVersionResource, decoded: Annotations.Decoded<Ingress>)

  /** `AdmissionResponse`: a patch always comes with the JSON-patch type. */
  datatype AdmissionResponse = AdmissionResponse(allowed: bool, patch: Option<seq<PatchOperation>>, patchType: Option<string>)

  /** `allowedResponse`. */
  function AllowedResponse(): AdmissionResponse
  {
    AdmissionResponse(true, None, None)
  }

  /** `patchResponse`. */
  function PatchResponse(patch: seq<PatchOperation>): AdmissionResponse
  {
    AdmissionResponse(true, Some(patch), Some("JSONPatch"))
  }

  /** `Admit`. `ranges` stands for the service's `GetProviderIPSourceRanges`.
      Unsupported resources, Ingresses that need no patch, provider errors,
      empty provider ranges and whitelists already holding every provider range
      are all admitted unchanged; otherwise the response carries the patch that
      writes the merged whitelist. */
  function Admit(req: AdmissionRequest, ranges: Ingress -> Result<seq<string>>): (r: Result<AdmissionResponse>)
    ensures !IsSupportedResource(req.resource) ==> r == Ok(AllowedResponse())
    ensures IsSupportedResource(req.resource) && req.decoded.Undecodable? ==>
              r == Err(Failure("failed to decode ingress object: " + req.decoded.reason))
    ensures r.Ok? ==> r.value.allowed && (r.value.patch.Some? <==> r.value.patchType == Some("JSONPatch"))
    ensures r.Err? ==> IsSupportedResource(req.resource) && req.decoded.Undecodable?
    ensures r.Ok? && r.value.patch.Some? ==>
              && req.decoded.Decoded?
              && ShouldPatch(req.decoded.value)
              && ranges(req.decoded.value).Ok?
              && var current := Text.Split(req.decoded.value.annotations[WhitelistSourceRange], ',');
                 && Merge(current, ranges(req.decoded.value).value).updated
                 && r.value.patch.value
                    == CreateSourceRangeWhitelistPatch(WhitelistSourceRange, Merge(current, ranges(req.decoded.value).value).ranges)
    ensures IsSupportedResource(req.resource) && req.decoded.Decoded? && ShouldPatch(req.decoded.value)
            && ranges(req.decoded.value).Ok?
            && Merge(Text.Split(req.decoded.value.annotations[WhitelistSourceRange], ','), ranges(req.decoded.value).value).updated
            ==> r.Ok? && r.value.patch.Some?
  {
    if !IsSupportedResource(req.resource) then Ok(AllowedResponse())
    else match req.decoded
      case Undecodable(reason) => Err(Failure("failed to decode ingress object: " + reason))
      case Decoded(ing) =>
        if !ShouldPatch(ing) then Ok(AllowedResponse())
        else match ranges(ing)
          case Err(_) => Ok(AllowedResponse())
          case Ok(provided) =>
            if |provided| == 0 then Ok(AllowedResponse())
            else
              var merged := Merge(Text.Split(ing.annotations[WhitelistSourceRange], ','), provided);
              if !merged.updated then Ok(AllowedResponse())
              else Ok(PatchResponse(CreateSourceRangeWhitelistPatch(WhitelistSourceRange, merged.ranges)))
  }

  /** The whitelist key: a '/' between two parts free of '/' and '~'. */
  lemma WhitelistKeyShape()
    ensures WhitelistSourceRange == "nginx.ingress.kubernetes.io" + "/" + "whitelist-source-range"
    ensures '/' !in "nginx.ingress.kubernetes.io" && '/' !in "whitelist-source-range"
    ensures '~' !in WhitelistSourceRange
  {
    var a, b := "nginx.ingress.kubernetes.io", "whitelist-source-range";
    assert WhitelistSourceRange == a + "/" + b;
    forall i | 0 <= i < |a|
      ensures a[i] != '~' && a[i] != '/'
    {
    }
    forall i | 0 <= i < |b|
      ensures b[i] != '~' && b[i] != '/'
    {
    }
  }

  /** The whitelist key holds no '~', so its escaped form reads back as it. */
  lemma WhitelistKeyHasNoTilde()
    ensures '~' !in WhitelistSourceRange
  {
    WhitelistKeyShape();
  }

  /** The webhook and the controller agree: for a decodable Ingress, the
      webhook answers with a patch exactly when `AnnotateIngress` reports an
      update, and applying that patch to the Ingress's annotations yields the
      annotations `AnnotateIngress` leaves behind. */
  lemma AdmitAgreesWithAnnotate(svc: MonitorService.Service, res: GroupVersionResource, ing: Ingress)
    requires IsSupportedResource(res)
    ensures var r := Admit(AdmissionRequest(res, Annotations.Decoded(ing)),
                           (i: Ingress) => MonitorService.GetProviderIPSourceRanges(svc, i).out);
            var a := AnnotateIngress(svc, ing);
            && r.Ok?
            && (r.value.patch.Some? <==> a.updated)
            && (a.updated ==> ApplyPatch(ing.annotations, r.value.patch.value) == Ok(a.ingress.annotations))
  {
    var ranges := (i: Ingress) => MonitorService.GetProviderIPSourceRanges(svc, i).out;
    AdmitFollowsAnnotate(svc, res, ing, ranges);
    if AnnotateIngress(svc, ing).updated {
      PatchAppliesAnnotation(svc, ing);
    }
  }

  /** When `AnnotateIngress` updates, the whitelist patch for the merged
      ranges turns the Ingress's annotations into the ones it leaves. */
  lemma PatchAppliesAnnotation(svc: MonitorService.Service, ing: Ingress)
    requires AnnotateIngress(svc, ing).updated
    ensures var current := Text.Split(ing.annotations[WhitelistSourceRange], ',');
            var missing := Difference(MonitorService.GetProviderIPSourceRanges(svc, ing).out.value, current);
            ApplyPatch(ing.annotations, CreateSourceRangeWhitelistPatch(WhitelistSourceRange, current + missing))
            == Ok(AnnotateIngress(svc, ing).ingress.annotations)
  {
    var existing := ing.annotations[WhitelistSourceRange];
    var current := Text.Split(existing, ',');
    var missing := Difference(MonitorService.GetProviderIPSourceRanges(svc, ing).out.value, current);
    MergedText(existing, missing);
    WhitelistKeyHasNoTilde();
    WhitelistPatchApplies(ing.annotations, WhitelistSourceRange, current + missing);
  }

  /** For a decodable Ingress, the webhook patches exactly when
      `AnnotateIngress` updates, with the whitelist followed by the missing
      provider ranges. */
  lemma AdmitFollowsAnnotate(svc: MonitorService.Service, res: GroupVersionResource, ing: Ingress,
                             ranges: Ingress -> Result<seq<string>>)
    requires IsSupportedResource(res)
    requires ranges(ing) == MonitorService.GetProviderIPSourceRanges(svc, ing).out
    ensures var r := Admit(AdmissionRequest(res, Annotations.Decoded(ing)), ranges);
            var a := AnnotateIngress(svc, ing);
            && r.Ok?
            && (r.value.patch.Some? <==> a.updated)
            && (a.updated ==>
                  var current := Text.Split(ing.annotations[WhitelistSourceRange], ',');
                  r.value.patch.value
                  == CreateSourceRangeWhitelistPatch(WhitelistSourceRange, current + Difference(ranges(ing).value, current)))
  {
    var a := AnnotateIngress(svc, ing);
    if a.updated {
      var current := Text.Split(ing.annotations[WhitelistSourceRange], ',');
      var merged := Merge(current, ranges(ing).value);
      assert merged.updated && merged.ranges == current + Difference(ranges(ing).value, current);
    }
  }

  /** The webhook's patch for a key without '~', applied to annotations that
      hold the key, writes the joined ranges under the key and changes nothing
      else. */
  lemma WhitelistPatchApplies(annotations: map<string, string>, key: string, ranges: seq<string>)
    requires '~' !in key && key in annotations
    ensures ApplyPatch(annotations, CreateSourceRangeWhitelistPatch(key, ranges))
            == Ok(annotations[key := Text.Join(ranges, ',')])
  {
    var patch := CreateSourceRangeWhitelistPatch(key, ranges);
    UnescapeEscapeKey(key);
    var n := |AnnotationsPointer|;
    assert patch[0].path[..n] == AnnotationsPointer && patch[0].path[n..] == EscapeKey(key);
    assert patch[1..] == [];
  }

  /** The whitelist test Ingress: monitor enabled, whitelist `value`. */
  function WhitelistedIngress(value: string): Ingress
  {
    Ingress("", "", 0, map[Annotations.Enabled := "true", WhitelistSourceRange := value], [], [])
  }

  function IngressRequest(ing: Ingress): AdmissionRequest
  {
    AdmissionRequest(GroupVersionResource("extensions", "v1beta1", "ingresses"), Annotations.Decoded(ing))
  }

  /** A key with one '/' between two slash-free parts escapes to the parts
      joined by "~1". */
  lemma EscapeOneSlash(a: string, b: string)
    requires '/' !in a && '/' !in b
    ensures EscapeKey(a + "/" + b) == a + "~1" + b
  {
    Text.ReplaceAllOne(a, b, '/', "~1");
  }

  /** The path of the whitelist annotation in a patch. */
  lemma WhitelistPatchPath()
    ensures AnnotationsPointer + EscapeKey(WhitelistSourceRange)
            == "/metadata/annotations/" + "nginx.ingress.kubernetes.io" + "~1" + "whitelist-source-range"
  {
    var a, b := "nginx.ingress.kubernetes.io", "whitelist-source-range";
    WhitelistKeyShape();
    EscapeOneSlash(a, b);
    assert EscapeKey(WhitelistSourceRange) == a + "~1" + b;
    Regroup(AnnotationsPointer, a, "~1", b);
  }

  lemma Regroup(p: string, a: string, m: string, b: string)
    ensures p + (a + m + b) == p + a + m + b
  {
  }

  /** Requests the webhook admits without a patch. */
  lemma UnpatchedExamples(ranges: Ingress -> Result<seq<string>>)
    ensures Admit(AdmissionRequest(GroupVersionResource("apps", "v1", "deployments"), Annotations.Decoded(WhitelistedIngress("x"))), ranges)
            == Ok(AllowedResponse())
    ensures Admit(IngressRequest(Ingress("", "", 0, map[], [], [])), ranges) == Ok(AllowedResponse())
    ensures Admit(IngressRequest(Ingress("", "", 0, map[Annotations.Enabled := "false"], [], [])), ranges) == Ok(AllowedResponse())
    ensures Admit(IngressRequest(Ingress("", "", 0, map[Annotations.Enabled := "true"], [], [])), ranges) == Ok(AllowedResponse())
  {
    assert Annotations.Enabled != WhitelistSourceRange by {
      assert |Annotations.Enabled| != |WhitelistSourceRange|;
    }
  }

  /** A provider error or an empty list of provider ranges leaves the Ingress
      unpatched. */
  lemma NoRangesExamples(ranges: Ingress -> Result<seq<string>>)
    requires ranges(WhitelistedIngress("1.2.3.4/32")) == Err(Failure("whoops"))
             || ranges(WhitelistedIngress("1.2.3.4/32")) == Ok([])
    ensures Admit(IngressRequest(WhitelistedIngress("1.2.3.4/32")), ranges) == Ok(AllowedResponse())
  {
  }

  /** A whitelist that should be patched and lacks a provider range is answered
      with the patch that writes the merged list. */
  lemma AdmitPatches(ing: Ingress, ranges: Ingress -> Result<seq<string>>, provided: seq<string>, merged: seq<string>)
    requires ShouldPatch(ing) && ranges(ing) == Ok(provided) && |provided| > 0
    requires Merge(Text.Split(ing.annotations[WhitelistSourceRange], ','), provided) == Merged(merged, true)
    ensures Admit(IngressRequest(ing), ranges) == Ok(PatchResponse(CreateSourceRangeWhitelistPatch(WhitelistSourceRange, merged)))
  {
  }

  /** A missing provider range is appended and the patch carries the merged list. */
  lemma MergeExample(ranges: Ingress -> Result<seq<string>>)
    requires ranges(WhitelistedIngress("1.2.3.4/32")) == Ok(["5.6.7.8/32"])
             || ranges(WhitelistedIngress("1.2.3.4/32")) == Ok(["5.6.7.8/32", "1.2.3.4/32"])
    ensures Admit(IngressRequest(WhitelistedIngress("1.2.3.4/32")), ranges)
            == Ok(PatchResponse([PatchOperation("replace",
                   "/metadata/annotations/" + "nginx.ingress.kubernetes.io" + "~1" + "whitelist-source-range",
                   "1.2.3.4/32" + "," + "5.6.7.8/32")]))
  {
    var ing := WhitelistedIngress("1.2.3.4/32");
    WhitelistedShouldPatch("1.2.3.4/32");
    ExampleMerge(ranges(ing).value);
    AdmitPatches(ing, ranges, ranges(ing).value, ["1.2.3.4/32", "5.6.7.8/32"]);
    MergedPatch();
  }

  /** The whitelist test Ingress is to be patched whenever its whitelist is set. */
  lemma WhitelistedShouldPatch(value: string)
    requires value != ""
    ensures ShouldPatch(WhitelistedIngress(value))
  {
    assert |Annotations.Enabled| != |WhitelistSourceRange|;
  }

  /** Merging either provider list of the example into "1.2.3.4/32". */
  lemma ExampleMerge(provided: seq<string>)
    requires provided == ["5.6.7.8/32"] || provided == ["5.6.7.8/32", "1.2.3.4/32"]
    ensures Merge(Text.Split("1.2.3.4/32", ','), provided) == Merged(["1.2.3.4/32", "5.6.7.8/32"], true)
  {
    var a, b := "1.2.3.4/32", "5.6.7.8/32";
    assert a != b by {
      assert a[0] != b[0];
    }
    assert ',' !in a;
    MergeOneMissing(a, b, provided);
  }

  /** A whitelist holding one range `a`, and a provider offering another range
      `b`, possibly followed by `a`: `b` is appended. */
  lemma MergeOneMissing(a: string, b: string, provided: seq<string>)
    requires a != b && ',' !in a
    requires provided == [b] || provided == [b, a]
    ensures Merge(Text.Split(a, ','), provided) == Merged([a, b], true)
  {
    Text.SplitWithoutSeparator(a, ',');
    var single: seq<string> := [b];
    assert Difference(single, [a]) == single by {
      assert single[..0] == [];
    }
    if provided == [b, a] {
      assert provided[..1] == single;
    }
    assert [a] + [b] == [a, b];
  }

  /** The patch for the merged list of the example. */
  lemma MergedPatch()
    ensures CreateSourceRangeWhitelistPatch(WhitelistSourceRange, ["1.2.3.4/32", "5.6.7.8/32"])
            == [PatchOperation("replace",
                  "/metadata/annotations/" + "nginx.ingress.kubernetes.io" + "~1" + "whitelist-source-range",
                  "1.2.3.4/32" + "," + "5.6.7.8/32")]
  {
    var patch := CreateSourceRangeWhitelistPatch(WhitelistSourceRange, ["1.2.3.4/32", "5.6.7.8/32"]);
    WhitelistPatchPath();
    assert patch[0].value == "1.2.3.4/32" + "," + "5.6.7.8/32" by {
      Text.JoinCons("1.2.3.4/32", ["5.6.7.8/32"], ',');
    }
    assert patch == [patch[0]];
  }

  /** A whitelist that already holds every provider range is left alone; the
      test's whitelist "5.6.7.8/32,1.2.3.4/32,9.10.11.12/32" with the provider
      ranges "1.2.3.4/32" and "5.6.7.8/32" is the instance a = "5.6.7.8/32",
      b = "1.2.3.4/32", c = "9.10.11.12/32". */
  lemma AlreadyWhitelistedExample(ranges: Ingress -> Result<seq<string>>, a: string, b: string, c: string)
    requires ',' !in a && ',' !in b && ',' !in c
    requires ranges(WhitelistedIngress(a + "," + b + "," + c)) == Ok([b, a])
    ensures Admit(IngressRequest(WhitelistedIngress(a + "," + b + "," + c)), ranges) == Ok(AllowedResponse())
  {
    var value := a + "," + b + "," + c;
    WhitelistedShouldPatch(value);
    assert Text.Split(value, ',') == [a, b, c] by {
      SplitThree(a, b, c);
    }
    AdmitsWhenNothingMissing(WhitelistedIngress(value), ranges, [b, a]);
  }

  /** Three comma-free pieces joined by commas split back into the pieces. */
  lemma SplitThree(a: string, b: string, c: string)
    requires ',' !in a && ',' !in b && ',' !in c
    ensures Text.Split(a + "," + b + "," + c, ',') == [a, b, c]
  {
    Text.SplitAfterHead(a, b + "," + c, ',');
    Text.SplitAfterHead(b, c, ',');
    Text.SplitWithoutSeparator(c, ',');
    assert a + "," + b + "," + c == a + [','] + (b + [','] + c);
    assert [a] + ([b] + [c]) == [a, b, c];
  }

  /** An Ingress to be patched whose whitelist holds every provider range is
      admitted without a patch. */
  lemma AdmitsWhenNothingMissing(ing: Ingress, ranges: Ingress -> Result<seq<string>>, provided: seq<string>)
    requires ShouldPatch(ing) && ranges(ing) == Ok(provided)
    requires forall x :: x in provided ==> x in Text.Split(ing.annotations[WhitelistSourceRange], ',')
    ensures Admit(IngressRequest(ing), ranges) == Ok(AllowedResponse())
  {
  }
}
