# ingress-monitor-controller, modelled in Dafny

This project models the decision logic of ingress-monitor-controller. The
controller watches Kubernetes Ingress objects and keeps one external
uptime monitor per enabled Ingress. The monitor is a Site24x7 website
monitor, or nothing at all with the null provider. The admission webhook
merges the monitoring provider's source IP ranges into an Ingress's nginx
whitelist annotation.

The model covers:

- the typed annotation accessors. Go's `strconv.ParseBool` and `strconv.Atoi` for 64-bit `int` are written out.
- the rules that decide which Ingresses are supported and which URL a monitor checks.
- the monitor service: ensure, delete, build the monitor model, and ask for the provider's source ranges.
- the whitelist merge and the admission webhook's JSON Patch.
- update and delete events, the reconciler, and the controller's retry rule.
- option validation and the option defaults.
- the Site24x7 monitor builder, with its defaulters and finalizers.
- the Site24x7 provider and the null provider.

Go interfaces (the provider, the monitor service, the Site24x7 API client)
are records of functions. Every operation that calls one returns the
calls it made, in order, together with its result. Errors are
`Option<Error>` or `Result<T>`, and `MonitorNotFound` stands for
`models.ErrMonitorNotFound`. Time is integer nanoseconds. The namer is a
function `(namespace, name) -> Result<string>`. Its default instance is
`namespace + "-" + name`, the default template in
`pkg/config/options.go:17`.

The modules follow the source:

| module | source |
|---|---|
| `Annotations`, `Strconv`, `Text` | `pkg/config/annotations.go` and the Go library functions it uses |
| `MonitorUrl` | `pkg/monitor/url.go` |
| `MonitorService`, `MonitorStore`, `Models` | `pkg/monitor/service.go`, `namer.go` |
| `SourceRangeWhitelist` | `pkg/monitor/annotation.go` |
| `AdmissionWebhook` | `pkg/admission/webhook.go` |
| `ControllerEvents`, `Reconciler`, `Controller` | `pkg/controller/events.go`, `reconciler.go`, `controller.go` |
| `Config` | `pkg/config/options.go` and `providers.go` |
| `Site24x7Api`, `Site24x7Builder`, `Site24x7Defaulters`, `Site24x7Provider` | `pkg/provider/site24x7/*` |
| `NullProvider` | `pkg/provider/null/provider.go` |

`MonitorStore` is a reference provider: an in-memory map from monitor names
to monitors. It gives the service's ensure and delete a state in which
convergence and idempotence can be stated.

Where the code departs from its own tests or from the standards it follows, the model follows the code:

- The JSON Pointer to the whitelist annotation escapes only `/` as `~1`. It does not escape `~` as `~0`, which section 3 of RFC 6901 requires, and it does not percent-encode the key (`pkg/admission/webhook.go:150`). `AdmissionWebhook.TildeKeyDoesNotRoundTrip` exhibits a key that does not decode back. The one key the program patches has no `~` (`AdmissionWebhook.WhitelistKeyHasNoTilde`), so the program itself is not affected.
- `pkg/controller/reconciler.go:35-69` never calls `AnnotateIngress`, but its tests expect the annotation to be merged before the monitor is ensured. `Reconciler.Reconcile` models the code as written. `Reconciler.ReconcileAnnotating` models the behaviour the tests expect.
- The null provider's `GetIPSourceRanges` is not in `pkg/provider/null/provider.go`. The model answers an empty list.

## Model

| member | source | states |
|---|---|---|
| Annotations.Lookup | pkg/config/annotations.go:124 | A missing annotation reads as the empty string; a present one reads as its value. |
| Annotations.StringValue | pkg/config/annotations.go:108-118 | A present key gives its stored value, even an empty one. A missing key gives the first default, or "" when there is none. |
| Annotations.StringSliceValue | pkg/config/annotations.go:123-134 | A non-empty value is cut at every comma: the parts hold no comma and join back to the value, so order and empty segments are kept. An empty or missing value gives the first default, or the empty list. |
| Annotations.BoolValue | pkg/config/annotations.go:139-154 | A present key is true exactly for the six spellings ParseBool reads as true; anything unparsable is false and the default is ignored. A missing key gives the first default, or false. |
| Annotations.IntValue | pkg/config/annotations.go:159-174 | A present key gives Atoi's value, always within int64, and ignores the default. A missing key gives the first default, or 0. |
| Annotations.IntValueReadsNumerals | pkg/config/annotations.go:159-167 | Any int64 written in decimal is read back as itself. |
| Annotations.InvalidJsonMessageQuotes | pkg/config/annotations.go:187 | For names of printable ASCII without quotes or backslashes, the error message is `invalid json in annotation <%q of name>: <value>: <decoder error>`. |
| Annotations.ParseJSON | pkg/config/annotations.go:179-191 | A missing key leaves the target unchanged with no error. A decodable value gives what the decoder makes of the text and the target's current value, so a merge into an existing map or a `null` that keeps the target is the decoder's to decide. An undecodable one is an error naming the key, the value and the decoder's reason. |
| Annotations.JsonExamples | pkg/config/annotations_test.go:42-52 | Annotation "e" decodes into the map foo: bar. A missing key leaves the empty map with no error. The invalid JSON is an error. |
| Annotations.PresentKeyExamples | pkg/config/annotations_test.go:21-23 | Present string, bool and int annotations are read as stored. |
| Annotations.PresentListExample | pkg/config/annotations_test.go:24 | "foo,bar,baz" is read as the list foo, bar, baz. |
| Annotations.MissingKeyExamples | pkg/config/annotations_test.go:27-40 | Missing keys give the supplied default, or the type's zero value when none is supplied. |
| Annotations.UnparsableExamples | pkg/config/annotations_test.go:33-34 | An unparsable value gives false or 0, not the default. |
| Strconv.ParseBool | pkg/config/annotations.go:141 | Exactly 1, t, T, TRUE, true and True parse as true. Exactly 0, f, F, FALSE, false and False parse as false. Everything else is a syntax error. |
| Strconv.ParseFormatBool | pkg/config/annotations.go:141 | Formatting a bool and parsing it back gives the same bool. |
| Strconv.ParseInt | pkg/config/annotations.go:161 | The result lies within int64. A syntax error gives 0. An out-of-range numeral gives the int64 bound on its side. |
| Strconv.AtoiIsParseInt | pkg/config/annotations.go:161 | Atoi's fast path for short numerals agrees with the general ParseInt path on every string. |
| Strconv.ShortScansAgree | pkg/config/annotations.go:161 | On strings of at most 18 characters, the fast digit scan and the general unsigned scan accept the same strings and give the same value. |
| Strconv.ScanFormatUint | pkg/config/annotations.go:161 | Scanning the decimal form of a uint64 gives back that number. |
| Strconv.ParseFormatInt | pkg/config/annotations.go:161 | Parsing the decimal form of any int64 gives back that number with no error. |
| Strconv.AtoiFormatInt | pkg/config/annotations.go:161 | Atoi reads back the decimal form of any int64. |
| Text.Split | pkg/monitor/annotation.go:30 | Splitting at a separator gives at least one part, and no part holds the separator. |
| Text.JoinSplit | pkg/monitor/annotation.go:30-40 | Joining the parts of a split with the same separator gives back the original string. |
| Text.SplitJoin | pkg/monitor/annotation.go:30-40 | Splitting the join of separator-free parts gives back those parts. |
| Text.ReplaceAll | pkg/admission/webhook.go:150 | A string without the character is unchanged. The result holds the character only if the replacement does. Every other character of the input survives. |
| Text.ReplaceAllAppend | pkg/admission/webhook.go:150 | Replacing in a concatenation is replacing in each part. |
| Text.ReplaceAllOne | pkg/admission/webhook.go:150 | A string with one occurrence of the character has exactly that occurrence replaced. |
| Text.QuoteBodyPlain | pkg/config/annotations.go:187 | Quoting a string without quotes or backslashes leaves its body unchanged. |
| Models.DefaultName | pkg/config/options.go:17 | The default monitor name is the namespace, a dash, then the Ingress name. |
| Models.DefaultNameInjective | pkg/config/options.go:17 | For namespaces without a dash, different Ingresses get different default monitor names. |
| Models.DefaultNameClash | pkg/config/options.go:17 | With dashes allowed, "a-b"/"c" and "a"/"b-c" get the same monitor name "a-b-c". |
| Kube.MetadataOnly | pkg/controller/reconciler.go:42-47 | The Ingress built for a deleted object carries only the request's namespace and name. |
| MonitorUrl.IsSupported | pkg/monitor/url.go:19-29 | With a usable first TLS host, support means that host has no `*`. Otherwise it means there is a first rule and its host has no `*`. A supported Ingress always has a host to monitor. |
| MonitorUrl.GetHost | pkg/monitor/url.go:47-71 | A usable first TLS host gives https with that host, whatever the annotations. Otherwise force-https or nginx force-ssl-redirect parsing true gives https with the first rule's host. Otherwise it is http with the first rule's host. |
| MonitorUrl.BuildURL | pkg/monitor/url.go:32-45 | A URL parse error is returned unchanged. A present path-override annotation replaces the path. A missing one keeps the parsed URL as it is. The result is the URL as `URL.String` writes it, with the path as `URL.EscapedPath` gives it, so an override "*" stays unescaped. |
| MonitorUrl.PlainParse | pkg/monitor/url.go:35 | A stand-in parser accepts only http:// or https:// followed by a host of ASCII letters, digits, '-' and '.', which url.Parse accepts and URL.String writes unchanged; the path is empty. |
| MonitorUrl.Utf8 | pkg/monitor/url.go:44 | A character is one to four bytes, each below 256; exactly the ASCII characters are one byte, their own code. |
| MonitorUrl.PercentBytes | pkg/monitor/url.go:44 | Each byte becomes three characters, each a '%' or an upper-case hex digit. |
| MonitorUrl.EscapePath | pkg/monitor/url.go:44 | Go's `escape(p, encodePath)`: the escaped path holds only path-safe characters and '%', so no space, '?' or '#', and is never shorter than the path. |
| MonitorUrl.EscapedPath | pkg/monitor/url.go:44 | `URL.EscapedPath` without a raw path: the result is "*" exactly when the path is "*"; any other result holds only path-safe characters and '%'. |
| MonitorUrl.EscapedPathStar | pkg/monitor/url.go:44 | Only the path "*" is written as "*"; in every other path a '*' is escaped. |
| MonitorUrl.EscapePathIdentity | pkg/monitor/url.go:44 | A path is written unchanged exactly when every character is path-safe: an ASCII letter or digit, or one of -_.~$&+,/:;=@. |
| MonitorUrl.EscapePathAppend | pkg/monitor/url.go:44 | Escaping a concatenation escapes each part. |
| MonitorUrl.EscapeSpace | pkg/monitor/url.go:41-44 | The path "a b" is written "a%20b". |
| MonitorUrl.EscapeQuestion | pkg/monitor/url.go:41-44 | The path "x?y" is written "x%3Fy". |
| MonitorUrl.BuildURLPlain | pkg/monitor/url.go:32-57 | For plain hosts, the URL is the scheme and host getHost picks, then the escaped override path when one is present, with a "/" before a relative one. |
| MonitorUrl.RenderPlain | pkg/monitor/url.go:44 | Rendering scheme, host and path writes "scheme://host" and the path as `URL.EscapedPath` gives it ("*" unescaped), with a "/" before a non-empty one that lacks it. |
| MonitorUrl.SupportExamples | pkg/ingress/ingress_test.go:19-72 | A plain rule host is supported, and so is a plain TLS host. A wildcard TLS host, a wildcard rule host and an Ingress without rules are not. |
| MonitorUrl.PlainRuleURL | pkg/monitor/url.go:19-57 | An Ingress with one rule host of ASCII letters, digits, '-' and '.' and no scheme or path annotations is supported and monitored at http:// plus that host. |
| MonitorUrl.UrlExamples | pkg/ingress/ingress_test.go:94-150 | The plain rule case gives http. The TLS case, the nginx force-ssl-redirect case and the force-https case give https. |
| MonitorUrl.ForcedOverride | pkg/monitor/url.go:32-57 | A rule Ingress with force-https and a path override is monitored at https:// plus its host plus the override as `URL.EscapedPath` writes it. |
| MonitorUrl.StarOverride | pkg/monitor/url.go:41-44 | With force-https, the override "*" gives https://host/* unescaped, while "a*" gives https://host/a%2A. |
| MonitorUrl.PathOverrideExample | pkg/ingress/ingress_test.go:151-167 | Force-https with path override "health" gives https://host/health. |
| SourceRangeWhitelist.ShouldPatch | pkg/monitor/annotation.go:50-58 | Patching is due exactly when the enabled annotation parses true and the whitelist annotation is non-empty. |
| SourceRangeWhitelist.Difference | pkg/monitor/annotation.go:80-96 | The difference holds exactly the elements of the first list that the second lacks, each as often as in the first list. |
| SourceRangeWhitelist.DifferenceAppend | pkg/monitor/annotation.go:80-96 | The difference keeps the first list's order: the difference of a concatenation is the concatenation of the differences. |
| SourceRangeWhitelist.DifferenceOne | pkg/monitor/annotation.go:88-92 | A single element is kept exactly when the second list lacks it. |
| SourceRangeWhitelist.DifferenceEmpty | pkg/monitor/annotation.go:80-96 | The difference is empty exactly when the second list holds every element of the first. |
| SourceRangeWhitelist.ComputeDifference | pkg/monitor/annotation.go:80-96 | The loop with a seen set computes the list difference, in the first list's order. |
| SourceRangeWhitelist.Merge | pkg/monitor/annotation.go:65-77 | The existing ranges stay first and unchanged. The appended ranges are exactly the provider ranges they lacked, in the provider's order, each as often as the provider lists it (the existing ranges followed by the difference). The result is updated exactly when some provider range was missing. |
| SourceRangeWhitelist.MergeIdempotent | pkg/monitor/annotation.go:60-77 | Merging the same provider ranges into a merged list changes nothing and reports no update. |
| SourceRangeWhitelist.AnnotateIngress | pkg/monitor/annotation.go:14-43 | No patch precondition gives (false, nil). An error is returned exactly when the patch is due and the provider's ranges are an error. Empty or already-present ranges give (false, nil) with the Ingress unchanged. An update rewrites only the whitelist key, to the old value, a comma and the missing ranges. |
| SourceRangeWhitelist.UpdatedValueHoldsRanges | pkg/monitor/annotation.go:30-40 | After an update, the whitelist value splits into the old ranges followed by the missing provider ranges, so it holds every provider range. |
| SourceRangeWhitelist.NothingMissing | pkg/monitor/annotation.go:65-70 | When every provider range is already whitelisted, the merge reports no update and keeps the whitelist as it is. |
| SourceRangeWhitelist.NothingToAdd | pkg/monitor/annotation.go:14-36 | An Ingress due for patching whose whitelist already holds every provider range gives (false, nil) and stays unchanged. |
| SourceRangeWhitelist.UpdatedHoldsAll | pkg/monitor/annotation.go:14-42 | After an update the Ingress is still due for patching and its whitelist holds every range the provider offered. |
| SourceRangeWhitelist.WhitelistLeavesUrl | pkg/monitor/url.go:19-57 | The whitelist annotation changes neither whether an Ingress is supported nor its monitor URL. |
| SourceRangeWhitelist.AnnotateTwice | pkg/monitor/annotation.go:14-43 | For any provider that offers the same comma-free ranges for the annotated Ingress as for the original, a second annotation reports no update, keeps the Ingress, and ends with the first run's error (nil after an update). |
| SourceRangeWhitelist.StoreRanges | pkg/monitor/service.go:155-168 | Against the reference store, the ranges the service answers are either none or the store's one list. |
| SourceRangeWhitelist.AnnotateIdempotent | pkg/monitor/annotation.go:14-43 | Against the reference store, a second annotation of the Ingress the first one produced reports no update, leaves it unchanged and ends with the first run's error (nil after an update). |
| AdmissionWebhook.IsSupportedResource | pkg/admission/webhook.go:21-24 | A resource is handled exactly when it is `ingresses` of version v1beta1 in the networking.k8s.io or extensions group. |
| AdmissionWebhook.EscapeKey | pkg/admission/webhook.go:150 | The escaped key has no `/`. A key without `/` is unchanged. |
| AdmissionWebhook.UnescapeEscapeKey | pkg/admission/webhook.go:147-161 | A key without `~` is recovered by unescaping its pointer token. |
| AdmissionWebhook.TildeKeyDoesNotRoundTrip | pkg/admission/webhook.go:150 | The key "a~1b" is left as it is, and the token unescapes to "a/b", a different key. |
| AdmissionWebhook.TildeOneBetween | pkg/admission/webhook.go:150 | Any key holding "~1" between plain characters unescapes to a key with a "/". |
| AdmissionWebhook.WhitelistKeyHasNoTilde | pkg/admission/webhook.go:150 | The whitelist key has no `~`, so its pointer round-trips. |
| AdmissionWebhook.CreateSourceRangeWhitelistPatch | pkg/admission/webhook.go:147-161 | The patch is one `replace` of /metadata/annotations/ plus the escaped key. Its value is the comma-join, which splits back into the ranges. |
| AdmissionWebhook.WhitelistPatchApplies | pkg/admission/webhook.go:147-161 | Applying the patch to annotations that hold the key sets that key to the comma-join and changes nothing else. |
| AdmissionWebhook.Admit | pkg/admission/webhook.go:50-95 | Other resources are allowed unpatched, and only an undecodable Ingress is an error. Every response allows the request. A patch comes with the JSONPatch type and only when the whitelist was due and changed. |
| AdmissionWebhook.AdmitAgreesWithAnnotate | pkg/admission/webhook.go:50-95 | The webhook patches exactly when the service's AnnotateIngress updates. The patch writes the annotation value AnnotateIngress computes. |
| AdmissionWebhook.AdmitFollowsAnnotate | pkg/admission/webhook.go:65-94 | With the service's ranges, admission decides as AnnotateIngress does. |
| AdmissionWebhook.PatchAppliesAnnotation | pkg/admission/webhook.go:81-94 | Applying the webhook's patch gives the annotations AnnotateIngress writes. |
| AdmissionWebhook.UnpatchedExamples | pkg/admission/webhook_test.go:41-80 | A non-Ingress resource, a missing annotation, enabled "false" and a missing whitelist are each allowed with no patch. |
| AdmissionWebhook.NoRangesExamples | pkg/admission/webhook_test.go:81-110 | A provider error and empty provider ranges are each allowed with no patch and no error. |
| AdmissionWebhook.AdmitPatches | pkg/admission/webhook.go:81-94 | When the merge updates, the response is the whitelist patch of the merged ranges. |
| AdmissionWebhook.MergeExample | pkg/admission/webhook_test.go:111-152 | Whitelist 1.2.3.4/32 with provider 5.6.7.8/32, alone or followed by 1.2.3.4/32, is patched to "1.2.3.4/32,5.6.7.8/32". |
| AdmissionWebhook.MergedPatch | pkg/admission/webhook_test.go:124-130 | The expected operation replaces /metadata/annotations/nginx.ingress.kubernetes.io~1whitelist-source-range. |
| AdmissionWebhook.AlreadyWhitelistedExample | pkg/admission/webhook_test.go:153-167 | Provider ranges already present, in another order, give no patch. |
| AdmissionWebhook.AdmitsWhenNothingMissing | pkg/admission/webhook.go:172-174 | When every provider range is already whitelisted, the response is allowed and unpatched. |
| MonitorService.BuildMonitorModel | pkg/monitor/service.go:134-152 | A namer error or a URL error is returned. Otherwise the model carries the name, the URL and the Ingress's annotations, with no ID. |
| MonitorService.CreateMonitor | pkg/monitor/service.go:96-105 | Exactly one provider create of the model; its error is returned. |
| MonitorService.UpdateMonitor | pkg/monitor/service.go:107-118 | Exactly one provider update. It sends the new model carrying the old monitor's ID, and the provider's error is returned. |
| MonitorService.DeleteByName | pkg/monitor/service.go:120-132 | Exactly one provider delete. Not-found becomes success; any other error is returned. |
| MonitorService.EnsureMonitor | pkg/monitor/service.go:59-79 | An unsupported Ingress makes no call and no error, and a model error is returned. Not-found from get means create. A found monitor means update with its ID. Any other get error is returned without create or update. It never deletes. |
| MonitorService.DeleteMonitor | pkg/monitor/service.go:82-94 | A namer error is returned. NoDelete makes no call and no error. Otherwise the named monitor is deleted: the provider's not-found becomes nil and any other provider error is returned. |
| MonitorService.GetProviderIPSourceRanges | pkg/monitor/service.go:155-168 | An unsupported Ingress gives no ranges and makes no call. A model error is returned. Otherwise the answer is the provider's. |
| MonitorService.TestIngressUrl | pkg/monitor/service_test.go:38-53 | The test Ingress with rule host foo.bar.baz is supported and monitored at http://foo.bar.baz. |
| MonitorService.TestMonitorBuilt | pkg/monitor/service_test.go:55-62 | The test Ingress's model is named kube-system-foo, monitors http://foo.bar.baz and carries the enabled annotation. |
| MonitorService.EnsureCreatesMissing | pkg/monitor/service_test.go:38-64 | A monitor that is not found is looked up, then created. |
| MonitorService.EnsureUpdatesExisting | pkg/monitor/service_test.go:65-96 | An existing monitor is looked up, then updated with ID 123 and the new URL. |
| MonitorService.EnsureStopsOnLookupError | pkg/monitor/service_test.go:97-121 | A failing lookup returns its error after the single get call. |
| MonitorService.EnsureIgnoresInvalid | pkg/monitor/service_test.go:26-37 | An Ingress without rules makes no provider call and no error. |
| MonitorService.DeleteExamples | pkg/monitor/service_test.go:147-222 | Deletion calls the provider once and succeeds, also on not-found. With NoDelete it makes no call. |
| MonitorStore.StoreProvider | pkg/monitor/service.go:71-72 | The reference provider finds exactly the stored monitors and reports not-found for the rest. |
| MonitorStore.EnsureConverges | pkg/monitor/service.go:59-79 | After ensure, the store holds the built monitor under its name. The stored monitor keeps a previous ID. Nothing else changes. |
| MonitorStore.EnsureIdempotent | pkg/monitor/service.go:59-79 | Ensuring twice leaves the store as ensuring once. |
| MonitorStore.EnsureIgnoresUnsupported | pkg/monitor/service.go:60-64 | Ensuring an unsupported Ingress leaves the store unchanged. |
| MonitorStore.DeleteConverges | pkg/monitor/service.go:82-132 | Deletion succeeds and removes exactly the named monitor. In NoDelete mode the store is unchanged. |
| MonitorStore.DeleteIdempotent | pkg/monitor/service.go:82-132 | Deleting twice leaves the store as deleting once. |
| NullProvider.NullAnswers | pkg/provider/null/provider.go:11-28 | Get is always not-found. Create, update and delete always succeed. |
| NullProvider.EnsureAlwaysCreates | pkg/monitor/service.go:71-73 | With the null provider, ensuring a buildable Ingress always takes the create path and succeeds. |
| NullProvider.DeleteNeverFails | pkg/provider/null/provider.go:26-28 | With the null provider, deleting a nameable Ingress never fails. |
| ControllerEvents.Handle | pkg/controller/events.go:20-44 | An enabled new Ingress makes exactly one ensure of it. Otherwise there is exactly one delete of the OLD Ingress. A delete event makes exactly one delete of its Ingress, and the error is the call's. |
| ControllerEvents.Describe | pkg/controller/events.go:30-48 | The description is namespace, "/", name of the new Ingress if set, else of the old one, or of the deleted one. |
| ControllerEvents.DescribeNamesSubject | pkg/controller/events.go:30-48 | For names without "/", the description splits back into the namespace and the name. |
| ControllerEvents.EnabledIgnoresOld | pkg/controller/events.go:23-25 | When the new Ingress is enabled, the old one plays no part. |
| ControllerEvents.DisabledDeletesOld | pkg/controller/events.go:23-27 | An update to a disabled Ingress is handled like deleting the old Ingress. |
| Reconciler.Reconcile | pkg/controller/reconciler.go:35-69 | A missing Ingress means deleting through a metadata-only Ingress. A read error is returned with no call. Inside the creation delay the result is a requeue after the remaining time, with no call. After it, exactly one ensure (enabled) or delete. An error never comes with a requeue. |
| Reconciler.ReconcileAnnotating | pkg/controller/reconciler_test.go:83-124 | An enabled Ingress past its delay is annotated first. An annotation error is returned, and an update ends the round without ensuring. Otherwise the monitor is ensured. Everything else is as in Reconcile. |
| Reconciler.AnnotatingAddsOnlyTheAnnotation | pkg/controller/reconciler_test.go:49-87 | When annotating changes nothing, the two reconciliations agree up to the leading annotation call. |
| Reconciler.UpdateEventAgreesWithReconcile | pkg/controller/reconciler.go:59-65 | Past the delay, handling an update event for an Ingress fails exactly when reconciling it does. |
| Reconciler.DeleteEventAgreesWithReconcile | pkg/controller/reconciler.go:39-49 | A delete event has the outcome of reconciling a vanished Ingress of that name. |
| Reconciler.SameNameSameDelete | pkg/controller/reconciler.go:42-49 | Deleting a monitor depends only on the Ingress's namespace and name. |
| Reconciler.ReconcileExamples | pkg/controller/reconciler_test.go:32-154 | A deleted Ingress is deleted. An enabled one is ensured. One without the annotation is deleted. All three succeed. |
| Reconciler.AnnotatingExamples | pkg/controller/reconciler_test.go:88-124 | An Ingress the annotation updates is not ensured in the same round. |
| Reconciler.DelayExample | pkg/controller/reconciler_test.go:190-219 | An Ingress created now with a one-minute delay is requeued after a positive time. |
| Controller.HandleError | pkg/controller/controller.go:139-154 | No error means forget. An error with fewer than 5 requeues means a rate-limited requeue. An error with 5 or more means drop that error. |
| Controller.Disposals | pkg/controller/controller.go:139-154 | For a run of handling results, every disposal but the last is a requeue. The run ends at the first forget or drop. |
| Controller.RetryBound | pkg/controller/controller.go:145-153 | A key is handled at most 6 times in all; 6 failures in a row drop it. |
| Controller.SuccessForgets | pkg/controller/controller.go:140-148 | A success after k failures (within the bound) means k requeues, then forget. |
| Controller.OnIngressAdded | pkg/controller/controller.go:78-89 | An add enqueues an update event with old and new both the Ingress, delayed until its creation delay has passed. |
| Controller.OnIngressUpdated | pkg/controller/controller.go:91-103 | An update enqueues the old and new Ingress, delayed by the NEW Ingress's creation time. |
| Controller.OnIngressDeleted | pkg/controller/controller.go:105-111 | A delete enqueues a delete event with no delay. |
| Controller.DelayMatchesReconcile | pkg/controller/controller.go:83-102 | The enqueue delay is positive exactly when the reconciler requeues, and then equals the requeue time. |
| Controller.EnqueuedEventsAreHandled | pkg/controller/controller.go:78-111 | Every enqueued event can be handled, and it is named after the Ingress notified. |
| Config.NewDefaultProviderConfig | pkg/config/providers.go:70-91 | Credentials come from the three SITE24X7_* environment variables. Every profile and group is discovered automatically. The check runs every minute, with GET, a ten-second timeout and empty header and action lists. |
| Config.NewDefaultOptions | pkg/config/options.go:45-53 | Hourly resync, the site24x7 provider, the namespace-name template, 0.0.0.0:443, and zero for every other option. |
| Config.Validate | pkg/config/options.go:71-89 | Valid exactly when both durations are non-negative and the template and provider are non-empty. Otherwise the error is the first violated rule's message. |
| Config.OptionsExamples | pkg/config/options_test.go:10-50 | The defaults validate. An empty provider or template does not. |
| Config.ZeroDurationsValid | pkg/config/options.go:72-78 | Zero durations are valid; negative ones are not. |
| Site24x7Builder.NewBuilder | pkg/provider/site24x7/builder.go:21-26 | A new builder has the client and defaults, and no model, defaulters or error. |
| Site24x7Builder.WithDefaulters | pkg/provider/site24x7/builder.go:28-36 | A builder in error is unchanged. Otherwise the defaulters are set. |
| Site24x7Builder.Mapped | pkg/provider/site24x7/builder.go:46-64 | Type "URL". ID, display name and website come from the model. Each setting is the annotation when present, else the default. An unparsable int or bool annotation gives 0 or false, and an empty list annotation gives the default. A non-empty group-ID annotation gives comma-free IDs that join back to it, which fixes the list. |
| Site24x7Builder.JsonList | pkg/provider/site24x7/builder.go:66-78 | A missing annotation, or JSON null, gives the default list. A decoded list is used. Undecodable JSON is the invalid-json error. |
| Site24x7Builder.FromModel | pkg/provider/site24x7/builder.go:38-83 | Custom headers are decoded first, then actions; the first decoding error is the result. Otherwise the monitor is the mapped one with both decoded lists. |
| Site24x7Builder.ActionsErrorAlone | pkg/provider/site24x7/builder.go:73-75 | Undecodable actions as the only annotation give the invalid-json error for the actions key. |
| Site24x7Builder.LocationProfileAnnotation | pkg/provider/site24x7/builder.go:61 | A location-profile annotation changes only the location profile of the built monitor. |
| Site24x7Builder.WithModel | pkg/provider/site24x7/builder.go:38-83 | A builder in error is unchanged. A mapping error becomes the sticky error. Otherwise the model's monitor is set. |
| Site24x7Builder.Build | pkg/provider/site24x7/builder.go:85-104 | The sticky error is returned first, then the missing-model error. Otherwise the defaulters run in order, the first error aborts, and only list calls are made. |
| Site24x7Builder.ErrorIsSticky | pkg/provider/site24x7/builder.go:29-31 | Once in error, withDefaulters and withModel change nothing, and build returns that error. |
| Site24x7Builder.BuiltMonitorSettings | pkg/provider/site24x7/builder.go:85-104 | A built monitor has every defaulted setting filled. All other fields are as mapped from the model. |
| Site24x7Defaulters.WithSetting | pkg/provider/site24x7/defaulters.go:26-102 | Setting an ID changes only that setting; a group setting becomes a one-element list. |
| Site24x7Defaulters.FillFromList | pkg/provider/site24x7/defaulters.go:17-28 | One list call. A list error is returned, and an empty list is the "no ... configured" error; both leave the monitor alone. Otherwise the setting becomes the first listed ID, and nothing else changes. |
| Site24x7Defaulters.WithDefault | pkg/provider/site24x7/defaulters.go:12-105 | A set setting is kept with no client call. An unset one is filled from the account's list, with the list's error or the empty-list error. Only its own setting changes. |
| Site24x7Defaulters.WithDefaultIdempotent | pkg/provider/site24x7/defaulters.go:12-105 | Running a defaulter again on its result calls nothing and changes nothing. |
| Site24x7Defaulters.Finalize | pkg/provider/site24x7/finalizers.go:12-105 | A set setting, or the Auto option being off, means no call and no change. Otherwise there is one list call, and only its own setting changes. |
| Site24x7Defaulters.FinalizeIsGatedDefault | pkg/provider/site24x7/finalizers.go:12-105 | A finalizer is its defaulter when its Auto option is on, and a no-op otherwise. |
| Site24x7Defaulters.RunDefaulters | pkg/provider/site24x7/builder.go:94-99 | At most one list call per defaulter, each for a listed setting. Settings not listed are untouched. No defaulters is no call and no error; a first defaulter that fails ends the run with its own outcome. |
| Site24x7Defaulters.RunDefaultersAppend | pkg/provider/site24x7/builder.go:94-99 | Defaulters run in list order: running a then b is running a and, unless a failed, b on its result with the calls in that order; an error in a means no defaulter of b is called. |
| Site24x7Defaulters.RunDefaultersFills | pkg/provider/site24x7/builder.go:94-99 | After an error-free run, every listed setting holds what it held or the first listed ID. |
| Site24x7Provider.Keep | pkg/provider/site24x7/provider.go:93-117 | Keeps exactly the listings whose Auto option is on, and keeps a ranked order ranked. |
| Site24x7Provider.GetDefaulters | pkg/provider/site24x7/provider.go:93-117 | Exactly the enabled defaulters, in the order location, monitor group, notification, threshold, user group. |
| Site24x7Provider.AllDefaulters | pkg/provider/site24x7/provider.go:93-117 | With every option on, all five defaulters are used, in that order. |
| Site24x7Provider.OneDefaulter | pkg/provider/site24x7/provider.go:93-117 | With exactly one option on, exactly that defaulter is used. |
| Site24x7Provider.BuildMonitor | pkg/provider/site24x7/provider.go:86-91 | A mapping error is returned with no call. Otherwise the enabled defaulters run on the mapped monitor, making only list calls. |
| Site24x7Provider.Create | pkg/provider/site24x7/provider.go:29-38 | A failed build is returned without any monitor call. Otherwise the built monitor is created and the client's error is returned. |
| Site24x7Provider.Update | pkg/provider/site24x7/provider.go:65-74 | A failed build is returned without any monitor call. Otherwise the built monitor is updated and the client's error is returned. |
| Site24x7Provider.NoCreateWhenBuildFails | pkg/provider/site24x7/provider.go:29-33 | When the build fails, create changes no monitor at Site24x7. |
| Site24x7Provider.NoUpdateWhenBuildFails | pkg/provider/site24x7/provider.go:65-69 | When the build fails, update changes no monitor at Site24x7. |
| Site24x7Provider.FirstNamed | pkg/provider/site24x7/provider.go:47-59 | Finds the first listed monitor with the display name, or reports that none has it. |
| Site24x7Provider.Get | pkg/provider/site24x7/provider.go:41-62 | One list call. A list error is returned. No match is not-found. Otherwise the first match gives its ID, name and website. |
| Site24x7Provider.Delete | pkg/provider/site24x7/provider.go:77-84 | A lookup error, including not-found, is returned with no delete. Otherwise the matched monitor is deleted by its ID. |
| Site24x7Provider.GetExamples | pkg/provider/site24x7/provider_test.go:205-269 | Only another monitor listed gives not-found. A listed my-monitor gives its ID, name and URL. |
| Site24x7Provider.DeleteExamples | pkg/provider/site24x7/provider_test.go:271-323 | A missing monitor gives not-found with no delete. my-monitor is deleted by its ID 456. |
| Site24x7Provider.UpdateDiscoversEverything | pkg/provider/site24x7/provider_test.go:88-140 | With every option on, update lists all five kinds in order and sends the monitor with the discovered IDs. |
| Site24x7Provider.UpdateKeepsExplicitProfile | pkg/provider/site24x7/provider_test.go:141-164 | An annotated location profile is not replaced by a discovered one, and nothing is listed. |
| Site24x7Provider.UpdateFailsWithoutProfiles | pkg/provider/site24x7/provider_test.go:165-181 | An empty location-profile list fails the update with "no location profiles configured" and no update call. |
| Site24x7Provider.CreateRejectsInvalidJson | pkg/provider/site24x7/provider_test.go:40-54 | Invalid JSON in the actions annotation fails create with the invalid-json message and no client call. |

## Left out

- `main.go`, the informer setup, `Run` and the worker loop of `pkg/controller/controller.go` are left out. They are process wiring and concurrency; only the retry rule and the queued events are modelled.
- `pkg/admission/handler.go` is left out. Its HTTP decoding, marshalling and diff-based patch response are foreign code; `Admit` carries its decisions.
- `pkg/monitor/metrics/metrics.go` is left out: global Prometheus counters with no effect on decisions.
- The provider config file read of `pkg/config/providers.go`, plus `Options.TLSConfig` and `AddFlags`, are left out as file and flag I/O. Environment variables are a parameter of `Config.NewDefaultProviderConfig`.
- The namer's `text/template` rendering is not modelled. The namer is a function parameter, with the default template's result as its standard instance.
- `json.Unmarshal` is a decoder parameter that sees the text and the target's current value. So is `url.Parse`, which the model turns into a `Url` record with scheme, host and path. `URL.String` is modelled for those three fields: the "//", the escaped path (`URL.EscapedPath` with no raw path, its "*" case included), the leading "/" and the "./" before a bare path whose first segment holds a ':'.
- Annotations.ParseJSON: on a decoding error Go's `json.Unmarshal` may leave the target partly filled; the model returns only the error. The builder, the one caller, returns on that error without reading the target.
- MonitorUrl.Render: writes the host as it is. Go escapes a host with `escape(host, encodeHost)` and prefers a valid `RawPath` over escaping the path; neither is modelled. Query, fragment, user info and opaque URLs are not fields of `Url`.
- MonitorUrl.PlainParse: a reference parser for hosts of ASCII letters, digits, '-' and '.' only. Texts Go also parses (ports, IPv6 literals, user info, paths, other host characters) are rejected by it rather than parsed.
- MonitorUrl.BuildURLPlain: states the monitored URL only for hosts that `MonitorUrl.PlainParse` accepts; other hosts go through the parser parameter of `MonitorUrl.BuildURL`.
- MonitorUrl.PlainRuleURL: the same restriction to plain hosts.
- The Site24x7 HTTP client is a record of answers. Client construction from the OAuth2 credentials (`NewProvider`) is not modelled.
- The Site24x7 provider's `GetIPSourceRanges` is not in `pkg/provider/site24x7/provider.go`. So the Site24x7 provider is not plugged into the service's provider record; the service model uses the reference store and the null provider.
- `ingress.Validate` and `ingress.BuildMonitorURL` come from `pkg/ingress`, which is not part of this model beyond its tests. `MonitorUrl.IsSupported` and `MonitorUrl.BuildURL` stand in for them.
- Log output (klog and logrus) is left out.
- Annotations.StringSliceValue: returns the empty list where Go returns a nil slice; the model does not tell nil from empty there.
- Annotations.InvalidJsonMessageQuotes: states the message with Go's `%q` quoting only for names of printable ASCII characters without quotes or backslashes. Go's `%q` escapes control and other non-printable characters, which `Text.Quote` does not model. Every annotation name the program uses is such a name.
- Site24x7Defaulters.Finalize: does not state the list-error and empty-list outcomes separately, because they are those of `Site24x7Defaulters.FillFromList`, which it returns.
- Controller.OnIngressDeleted: takes an `Ingress`. The informer may instead pass a `DeletedFinalStateUnknown` tombstone, on which Go's type assertion `obj.(*v1beta1.Ingress)` (pkg/controller/controller.go:106) panics. The model's parameter type cannot express that input.
- Wall-clock time is integers: `time.Until(t)` is `t - now` with `now` a parameter.
