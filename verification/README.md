# Verified model of Local MDM

Local MDM keeps one policy document on an Android tablet equal to the one Home
Assistant wants. This project models the parts of it that decide whether that
works, and proves what they promise.

- **The document language** (`PolicyDocument`, `HaValidator`, `DpcCodec`,
  `Verdicts`, `ValidatorAgreement`, `Ordering`). The same document is validated
  by two independent programs that check in different orders, differ in leniency
  and sort package names by different orders. Each is a method that follows its
  source and is proved against one order-free verdict; `Verdicts` says what the
  verdicts are in the document's own terms.
- **The enforcement engine** (`Enforcement`, `EnforcementRuns`,
  `EngineOutcomes`, `CrashRecovery`, `DpcEngine`). `apply` is a program of single
  effects over the store and the platform; a process death cuts it anywhere, and
  the store's writes reach the disk behind the platform calls. The objects of
  `DpcEngine` update their fields in place and are proved to do what that program
  does; `EngineOutcomes` says what that means for every package and key.
- **The coordinator** (`Coordinator`, `CoordinatorFields`, `CoordinatorObject`,
  `CoordinatorRuns`, `Writes`, `Losses`, `Fleet`). One event is a stretch of code
  without an await, so every interleaving of polls, reports, writes, pushes,
  relocations and webhook sends is a sequence of events, and a few sequences are
  allowed that the code never takes. `CoordinatorFields` describes the same
  transitions field by field. `CoordinatorRuns` allows any reports at all, also from a
  foreign device, since a plain poll or a PUT answer is not checked for its
  device id.
- **The pair** (`TabletView`, `Replication`, `Repair`, `ApproveFlow`).
  Coordinator, tablet and a network that loses, delays and repeats; the
  tablet's process may die with store writes that had not reached its disk.
- **The release version** (`CalVer`) and **the package list text**
  (`PackagesText`).

`dafny verify dfyconfig.toml` checks everything.

## What turned out false

Each of these is stated as a lemma, with the exact condition where one exists.

- Overlapping writes lose one (`Writes.OverlappingWritesSurviveIff`); a re-push
  launched between the release of the lock and the resuming of a write that
  waits for it queues behind that write and undoes it
  (`Losses.RepairUndoesWrite`); and a write started before the first answer
  re-adopts (`Losses.LateFetchUndoesWrite`).
  `Writes.DesiredPolicyStandsIff` is the exact condition for a policy to stand.
- `_policy_version` can fall, although acknowledged versions never do: exactly
  as `CoordinatorRuns.VersionFallsIff` says, in a session such as
  `Losses.VersionFalls`.
- The webhook address can be forgotten: an answer that is not JSON raises an
  exception the send does not handle, after the pending flag was cleared
  (`CoordinatorRuns.UrlIsNeverForgottenIff`, `Losses.GarbledAnswerForgetsUrl`).
- The comment on `suspendedPackages` promises that a change lifts exactly what
  the allowlist suspended. A refused lift is dropped from the store and never
  tried again (`EnforcementRuns.RefusedLiftIsForgotten`); the exact condition
  for agreement is `EnforcementRuns.Clean`.
- `apply` persists first so that a crash cannot leave the previous policy on
  disk, but the setters only schedule the write. A start that still finds the
  old policy enforces it fully only if `CrashRecovery.Undone`; otherwise
  packages stay suspended with no record (`CrashRecovery.LostFlushStrands`), or
  the lock task features stay on.
- For the same reason a push can be acknowledged and then lost at a restart, so
  convergence alone does not last: `Replication.ConvergenceLastsIff` is the exact
  condition, and `Repair.LostPushIsRepaired` the way back.
- A suspend call that throws makes the store claim packages that are not
  suspended, and then a restart can enforce more than the interrupted apply
  would have (`CrashRecovery.Repeatable` is the exact condition).
- A tablet that answered during setup can still be shown as never reported
  (`Fleet.SetupAnswerIsNotRecorded`).
- A release date before the year 1000 is printed without padding and read back
  as nothing (`CalVer.PrefixedTagIsNewIff`). With a tag prefix that begins like
  a date, `next_calver` can return a bare version that is already a tag
  (`CalVer.BareVersionIsNewIff`).

## Model

| member | source | states |
|---|---|---|
| Ordering.Utf16OrderIsCodeUnitOrder | android/app/src/main/java/com/trooperthorn/localmdm/Policy.kt:112-122 | The order the model sorts the tablet's lists by is comparison of the UTF-16 encodings unit by unit, for all strings. |
| Ordering.CodePointOrderIsLexicographic | custom_components/local_mdm/policy.py:94-94 | The order Home Assistant sorts by: a prefix first, otherwise by the code point of the first differing character. |
| Ordering.Sorted | custom_components/local_mdm/policy.py:90-94 | Sorting a deduplicated collection: exactly the given names, strictly ascending; with SortingIsUnique this determines the list. |
| Ordering.SortedListIsFixed | custom_components/local_mdm/policy.py:94-94 | Re-sorting an already sorted list of names changes nothing, in either order. |
| HaValidator.ValidatePolicy | custom_components/local_mdm/policy.py:65-118 | The check-by-check, key-by-key validator returns the order-free verdict for every document: forbidden before malformed before dangerous, otherwise the normal form of its meaning. |
| HaValidator.AcceptedIsSafe | custom_components/local_mdm/policy.py:82-118 | Whatever is accepted is safe: kiosk on has a target, an allowlist is non-empty and contains every kiosk package, no empty name, the DPC in neither list. |
| HaValidator.ReadsBack | custom_components/local_mdm/policy.py:82-118 | A safe policy written with its lists in either side's order is accepted, means what was written, and normalises to the code-point rendering. |
| HaValidator.ValidateIsIdempotent | custom_components/local_mdm/policy.py:65-118 | Normalising an accepted document a second time changes nothing. |
| HaValidator.DefaultIsNormal | custom_components/local_mdm/policy.py:56-62 | The least restrictive default is accepted and already normal. |
| Verdicts.HaVerdict | custom_components/local_mdm/policy.py:65-118 | In the document's own terms: refused as unsafe exactly with one of the fourteen forbidden keys, or well formed with a kiosk without target or an allowlist with nothing to open; invalid exactly when otherwise malformed; accepted otherwise. |
| Verdicts.HaNormalForm | custom_components/local_mdm/policy.py:82-118 | What an accepted document becomes, key by key: every key present, flags and mode kept, lists ascending; a name is in the allowed list exactly when it is not the DPC and was listed there, or the mode is allowlist and it was a kiosk package. |
| Verdicts.DefaultsAreEmpty | custom_components/local_mdm/policy.py:56-62 | The default document: every key, all flags off, open, no packages. |
| DpcCodec.FromJson | android/app/src/main/java/com/trooperthorn/localmdm/Policy.kt:96-159 | The tablet's decoder, lists and mode before flags, returns the order-free verdict of its own, more lenient reading. |
| DpcCodec.ReadPackages | android/app/src/main/java/com/trooperthorn/localmdm/Policy.kt:112-122 | The array loop yields exactly the coerced, non-self names sorted by code unit, and fails exactly on an empty name. |
| Verdicts.DpcVerdict | android/app/src/main/java/com/trooperthorn/localmdm/Policy.kt:96-158 | The tablet's refusals in the document's own terms, with the text of an item as its name. |
| Verdicts.DpcDecodes | android/app/src/main/java/com/trooperthorn/localmdm/Policy.kt:96-159 | What a decoded policy is, field by field, with the kiosk packages folded into the allowed list under an allowlist and nothing else added or dropped. |
| DpcCodec.StoreRoundTrip | android/app/src/main/java/com/trooperthorn/localmdm/Policy.kt:31-50 | Decoding what toJson writes returns the same policy for every policy the decoder can produce, so the store getter never falls back to its default. |
| DpcCodec.ProducibleIffDecoded | android/app/src/main/java/com/trooperthorn/localmdm/Policy.kt:96-159 | The decoder's image is exactly the safe policies with both lists in UTF-16 order. |
| ValidatorAgreement.OneLanguage | android/app/src/main/java/com/trooperthorn/localmdm/Policy.kt:96-159 | On documents with string arrays and a string mode both validators agree on acceptance, error class and meaning; Home Assistant accepts exactly the well-typed documents the tablet accepts; every document the tablet rejects Home Assistant rejects. |
| ValidatorAgreement.DpcIsMoreLenient | android/app/src/main/java/com/trooperthorn/localmdm/Policy.kt:112-125 | The converse fails: a non-array list and a number as a package name are accepted by the tablet and refused by Home Assistant. |
| ValidatorAgreement.TabletAcceptsNormal | android/app/src/main/java/com/trooperthorn/localmdm/HttpServer.kt:48-65 | Every document Home Assistant can push is decoded to its own meaning. |
| ValidatorAgreement.HaAcceptsStored | custom_components/local_mdm/coordinator.py:112-121 | Every policy the tablet can store is accepted on adoption, so adoption never replaces it by defaults. |
| ValidatorAgreement.PushThenReport | custom_components/local_mdm/coordinator.py:274-279 | Pushing a document and normalising the tablet's report of it gives the document back, although the two sides sort differently. |
| ValidatorAgreement.AdoptThenPush | custom_components/local_mdm/coordinator.py:112-121 | Pushing an adopted policy back stores the very same record. |
| DpcEngine.PolicyStore.GetPolicy | android/app/src/main/java/com/trooperthorn/localmdm/PolicyStore.kt:40-45 | The policy getter decodes the stored text and falls back to the default policy. |
| DpcEngine.PolicyEngine.SetPackagesSuspended | android/app/src/main/java/com/trooperthorn/localmdm/PolicyEngine.kt:170-173 | The platform's suspend call: changes all but the refused packages and returns those. |
| DpcEngine.PolicyEngine.Attempt | android/app/src/main/java/com/trooperthorn/localmdm/PolicyEngine.kt:291-300 | Runs the platform calls of one key until one throws; reports the first fault and keeps the writes before it. |
| DpcEngine.PolicyEngine.ApplyAppMode | android/app/src/main/java/com/trooperthorn/localmdm/PolicyEngine.kt:147-187 | Lifts, holds and rewrites suspended, unsuspendable and pending packages as planned, under every combination of refusals and exceptions. |
| DpcEngine.PolicyEngine.ApplyFlags | android/app/src/main/java/com/trooperthorn/localmdm/PolicyEngine.kt:66-103 | One attempt per key in the source's order, kiosk last; a failing key stops no other. |
| DpcEngine.PolicyEngine.Apply | android/app/src/main/java/com/trooperthorn/localmdm/PolicyEngine.kt:49-109 | As Device Owner, the whole new state of store and platform equals running the persist-first program of effects. |
| DpcEngine.PolicyEngine.OnPackageAdded | android/app/src/main/java/com/trooperthorn/localmdm/PolicyEngine.kt:116-127 | As Device Owner, a fresh launchable package the allowlist does not name is noted and held; anything else, and any tablet without a tier, changes nothing. |
| DpcEngine.PolicyEngine.OnPackageRemoved | android/app/src/main/java/com/trooperthorn/localmdm/PolicyEngine.kt:130-133 | A removed package leaves the pending and suspended lists and nothing else changes. |
| DpcEngine.PolicyEngine.OnCreate | android/app/src/main/java/com/trooperthorn/localmdm/MdmService.kt:37-40 | Every start re-applies the stored policy at its stored version, unless the DPC has no tier. |
| DpcEngine.PolicyEngine.PutPolicy | android/app/src/main/java/com/trooperthorn/localmdm/HttpServer.kt:48-65 | A missing policy object and an invalid policy are answered 400, an unsafe policy and a DPC without a tier 422, all without any change; anything else is applied at the given or the next version. |
| EnforcementRuns.ApplyInSyncIff | android/app/src/main/java/com/trooperthorn/localmdm/PolicyEngine.kt:147-187 | From agreeing bookkeeping, an apply leaves the store listing exactly what is suspended if and only if no needed lift throws or is refused, nothing already held is refused again, and a throwing hold call had nothing new to hold. |
| EnforcementRuns.RefusedLiftStrands | android/app/src/main/java/com/trooperthorn/localmdm/PolicyEngine.kt:166-174 | A refused un-suspend drops the package from the store while it stays suspended. |
| EnforcementRuns.RefusedLiftIsForgotten | android/app/src/main/java/com/trooperthorn/localmdm/PolicyEngine.kt:166-174 | Over every run of pushes, boots, installs and removals such a package stays suspended and unlisted at every moment if and only if no event removes it or wants it again without refusing the hold. |
| EnforcementRuns.RunInSyncIff | android/app/src/main/java/com/trooperthorn/localmdm/PolicyEngine.kt:116-187 | Over every run of pushes, boots, installs and removals, the store lists exactly what is suspended at every moment if and only if the suspend calls of every event that makes any meet that condition. |
| EnforcementRuns.CleanApplyEnforcesAllowlist | android/app/src/main/java/com/trooperthorn/localmdm/PolicyEngine.kt:135-187 | After such an apply no allowed, self, shell, Settings, system UI, Play or HOME package is suspended, every other launchable one is unless refused, and open mode suspends nothing. |
| EngineOutcomes.WantedIff | android/app/src/main/java/com/trooperthorn/localmdm/PolicyEngine.kt:149-166 | A package is wanted suspended exactly under an allowlist, when launchable, not allowed, not HOME and none of the five packages never touched, by name. |
| EngineOutcomes.SuspendedAfterApply | android/app/src/main/java/com/trooperthorn/localmdm/PolicyEngine.kt:166-174 | For every package, whether it is suspended after an apply, from the policy, the device and what the platform refuses or throws. |
| EngineOutcomes.ListedAfterApply | android/app/src/main/java/com/trooperthorn/localmdm/PolicyEngine.kt:174-182 | For every package, whether it is listed as suspended, as unsuspendable and as pending after an apply. |
| EngineOutcomes.AppModeResult | android/app/src/main/java/com/trooperthorn/localmdm/PolicyEngine.kt:183-186 | The reported app_mode result: applied exactly when both calls went through for every package, limited exactly when one was refused, refused or failed exactly when a call threw a security or another exception. |
| EngineOutcomes.FlagResult | android/app/src/main/java/com/trooperthorn/localmdm/PolicyEngine.kt:291-300 | The reported result of a flag is that of the first of its calls that throws, and the calls before it are exactly those made; a kiosk without a target fails. |
| EngineOutcomes.TargetIsShownLast | android/app/src/main/java/com/trooperthorn/localmdm/PolicyEngine.kt:243-287 | The kiosk target is only shown once lock task list, lock task features and HOME are in force. |
| EngineOutcomes.RunSuspendsOnlyHeld | android/app/src/main/java/com/trooperthorn/localmdm/PolicyEngine.kt:135-187 | Over every run whose suspend calls are clean, at every moment the DPC, the adb shell, Settings, the system UI, Play, every HOME app and every allowed package stay usable; in open mode everything does. |
| EnforcementRuns.RunHolds | android/app/src/main/java/com/trooperthorn/localmdm/PolicyEngine.kt:116-182 | Over every run, whatever the platform refuses or throws, each held package is one the stored policy wants suspended. |
| EnforcementRuns.HeldAreNeverAllowed | android/app/src/main/java/com/trooperthorn/localmdm/PolicyEngine.kt:116-182 | Hence held packages are installed, never allowed, never in the never-touched set, and none exist in open mode. |
| EngineOutcomes.PendingAreHeld | android/app/src/main/java/com/trooperthorn/localmdm/PolicyEngine.kt:116-182 | Over every run at all, each package awaiting approval is launchable, not allowed, not HOME and none of the five. |
| EngineOutcomes.PendingAfterInstall | android/app/src/main/java/com/trooperthorn/localmdm/PolicyEngine.kt:116-127 | For every package, whether it awaits approval after an install; installs the allowlist does not concern leave the store as it was. |
| EngineOutcomes.RemovalTouchesOnlyItsPackage | android/app/src/main/java/com/trooperthorn/localmdm/PolicyEngine.kt:130-133 | A removal takes its package off the two lists and changes nothing else. |
| EngineOutcomes.DefaultsAgree | android/app/src/main/java/com/trooperthorn/localmdm/PolicyStore.kt:40-45 | A tablet that stored nothing, or nothing it can decode, enforces what Home Assistant's default document says. |
| EnforcementRuns.FreshPackageIsHeld | android/app/src/main/java/com/trooperthorn/localmdm/PackageWatch.kt:15-29 | A fresh launchable package outside the allowlist is pending whatever the platform answers, and is suspended afterwards exactly when it already was or no call throws and its hold is not refused. |
| EnforcementRuns.AppliedIsInForce | android/app/src/main/java/com/trooperthorn/localmdm/PolicyEngine.kt:49-109 | Every flag gets a result, and one reported applied is in force on the platform at the end of apply, whatever the other keys did; kiosk includes lock task list, lock task features, HOME and target. |
| CrashRecovery.PrefixThenWhole | android/app/src/main/java/com/trooperthorn/localmdm/PolicyEngine.kt:64-103 | Writing any prefix of a policy's settings and then all of them leaves what writing all of them once leaves. |
| CrashRecovery.NewPolicyWinsIff | android/app/src/main/java/com/trooperthorn/localmdm/PolicyEngine.kt:49-109 | For a death after any effect with any shorter prefix of the store writes flushed, once the new policy is on disk the next start gives the settings, suspensions, bookkeeping and pending list of the uninterrupted apply if and only if the bookkeeping was not flushed or the apply was repeatable. |
| CrashRecovery.OldPolicyReturnsIff | android/app/src/main/java/com/trooperthorn/localmdm/PolicyStore.kt:36-69 | While nothing is flushed, the next start is an uninterrupted apply of the old policy if and only if every setting the interrupted apply wrote and the old policy does not write was that already, and every package it lifted or newly held is one the old policy's own suspend calls touch. |
| CrashRecovery.WillingUndoneIff | android/app/src/main/java/com/trooperthorn/localmdm/PolicyEngine.kt:228-275 | Where nothing throws or is refused, that condition says: the apply held nothing the old policy leaves open, and did not switch on the lock task features or Wi-Fi for the first time. |
| CrashRecovery.StartCanBeInterruptedIff | android/app/src/main/java/com/trooperthorn/localmdm/MdmService.kt:37-40 | The re-apply of the stored policy at a start can itself be interrupted anywhere, with any part flushed, if and only if it is repeatable. |
| CrashRecovery.UnrepeatableStart | android/app/src/main/java/com/trooperthorn/localmdm/PolicyEngine.kt:166-174 | A start need not be: a stored allowlist with one package to lift and another to hold, where the lift call throws. |
| CrashRecovery.LostFlushStrands | android/app/src/main/java/com/trooperthorn/localmdm/PolicyStore.kt:58-61 | An allowlist over an open policy, dying after the hold call with nothing flushed: the package stays suspended, the store does not list it, and the outcome is neither the old apply nor the new one. |
| CrashRecovery.StrandingHappens | android/app/src/main/java/com/trooperthorn/localmdm/PolicyStore.kt:58-61 | That happens on a device with one launchable app fresh from the default policy. |
| CrashRecovery.DeathNeverMixes | android/app/src/main/java/com/trooperthorn/localmdm/PolicyEngine.kt:49-109 | Every death point and every flushed prefix recovers, to the old policy or the new one and nothing in between, if and only if the apply was repeatable (the lift call did not throw, or the hold call throws too, or everything wanted was already suspended and not refused) and the old policy undoes every prefix. |
| ApproveFlow.ApprovalIsAccepted | custom_components/local_mdm/coordinator.py:361-372 | Approving a held package always validates and decodes to the same policy plus that package. |
| ApproveFlow.ApprovalReachesThePlatform | custom_components/local_mdm/coordinator.py:361-372 | Merge, validate, push, apply: the package leaves the held list, is un-suspended unless refused, and every other package's treatment is unchanged. |
| CoordinatorObject.LocalMdmCoordinator.Handle | custom_components/local_mdm/coordinator.py:112-393 | The object with its fields updated section by section does what the transition system does, for every event, and keeps the invariants of the runs: documents normal and licensed, versions ahead, rates, webhook address, status. |
| CoordinatorObject.Session | custom_components/local_mdm/coordinator.py:55-393 | A session of the object, whatever events it is handed, ends where the transition system ends: what it holds and pushes is safe, acknowledged versions increase, and until the tablet has answered only full documents are pushed. |
| CoordinatorFields.SessionBeginsEmpty | custom_components/local_mdm/coordinator.py:55-88 | A session begins with the placeholder policy at version 0, nothing known, heard, queued, sent or scheduled. |
| CoordinatorFields.NextIsByField | custom_components/local_mdm/coordinator.py:112-393 | For every state and event, what each field holds afterwards and under which condition it changes: hosts, desired policy, whether it is known, version, queue, re-pushes, webhook, status, relocation, fetches, clock. |
| CoordinatorRuns.RunsPushOnlyLicensedNormalDocuments | custom_components/local_mdm/coordinator.py:316-393 | Along every run, under any reports, every queued or sent document is normal and comes from a full user document, a policy held while known, or a one-key update of one. |
| CoordinatorRuns.PlaceholderIsNeverPushed | custom_components/local_mdm/coordinator.py:70-76 | From the start of a session, until the tablet has answered, only full user documents can be queued or sent. |
| CoordinatorRuns.PushedPolicyIsSafe | custom_components/local_mdm/coordinator.py:374-393 | At every moment the desired policy and the push in flight are safe, whatever reports arrive. |
| CoordinatorRuns.AckedVersionsIncrease | custom_components/local_mdm/coordinator.py:381-393 | Acknowledged versions strictly increase, and the counter and the push in flight are never behind them. |
| CoordinatorRuns.VersionFallsIff | custom_components/local_mdm/coordinator.py:382-392 | The counter itself falls exactly when an acknowledgement overwrites a higher version that a report brought in meanwhile and its own answer is older too. |
| CoordinatorRuns.CounterCoversReports | custom_components/local_mdm/coordinator.py:120-120 | Over every run without such a fall, the counter is at least the version of every report adopted or received by webhook. |
| CoordinatorRuns.PushIsNumberedAbove | custom_components/local_mdm/coordinator.py:381-382 | So a push takes the lock with a version above that of every such report. |
| CoordinatorRuns.RatesAreKept | custom_components/local_mdm/coordinator.py:226-236 | Re-push launches are at least 30 s apart and relocation probes at least 60 s, along every run. |
| CoordinatorRuns.RateBounds | custom_components/local_mdm/coordinator.py:40-45 | Any window of length L sees at most floor(L/30)+1 re-pushes and floor(L/60)+1 probes. |
| CoordinatorRuns.UndeliveredUrlIsKept | custom_components/local_mdm/coordinator.py:128-175 | Along every run: after an undelivered send with no report since, a resend is pending or in flight; after a rejected token reauthentication has started. |
| CoordinatorRuns.UrlIsNeverForgottenIff | custom_components/local_mdm/coordinator.py:144-175 | Over every run the address is forgotten (last send failed, no report since, nothing pending, in flight or reauthenticating) at no moment if and only if no answer that is not JSON ends the only send under way with nothing else due. |
| CoordinatorRuns.ForgottenUntil | custom_components/local_mdm/coordinator.py:128-175 | A forgotten address comes back exactly with a returning tablet, a report, another setup or reauthentication. |
| CoordinatorRuns.ResendsIff | custom_components/local_mdm/coordinator.py:134-140 | A send is launched by setup, or by exactly those answered polls, at the known address or through relocation, that find one pending or the tablet back. |
| CoordinatorRuns.StatusIsFaithful | custom_components/local_mdm/coordinator.py:295-349 | The current status always equals the last recorded report, or the placeholder, and is reachable exactly when the last event that set it brought a report rather than a poll without an answer; client host and stored host stay equal. |
| CoordinatorRuns.HostFollowsOnlyThisTablet | custom_components/local_mdm/coordinator.py:243-257 | The host changes only to the probed address that answered with this entry's device id. |
| CoordinatorRuns.EverySession | custom_components/local_mdm/coordinator.py:55-88 | All document, version, rate, webhook and status invariants hold together at every moment of every session from its first state. |
| Fleet.FleetStatus | custom_components/local_mdm/sensor.py:139-160 | The state and its reasons in terms of the status: unreachable wins, never reported exactly without a stamp, misconfigured exactly without ownership, failures exactly with a key that is neither applied, limited nor unsupported, online exactly without reasons. |
| Fleet.NeverReportedMeansNothingRecorded | custom_components/local_mdm/sensor.py:146-148 | With stamped reports, never reported is shown exactly while no report has been recorded as the status. |
| Fleet.SetupAnswerIsNotRecorded | custom_components/local_mdm/coordinator.py:104-110 | The answer read during setup is adopted but not recorded, so the sensor can still say never reported after it. |
| Writes.WriteOutcome | custom_components/local_mdm/coordinator.py:351-380 | A write on a normal policy is accepted exactly when it is well typed and not dangerous, and then the result renders exactly the policy it asks for. |
| Writes.FlagWriteChangesOneKey | custom_components/local_mdm/coordinator.py:351-354 | A flag write changes no other key. |
| Writes.OtherWritesChangeOnlyTheAllowedList | custom_components/local_mdm/policy.py:102-106 | A list, mode or approve write changes other keys only through the fold into the allowed list. |
| Writes.RoundsFold | custom_components/local_mdm/coordinator.py:351-393 | After any non-overlapping requests, user writes, whole profiles and drift re-pushes, refused, failed or acknowledged, with polls, reports, sends, relocations and time in between, the desired policy is the fold of the acknowledged ones; re-pushes change nothing. |
| Writes.SessionFolds | custom_components/local_mdm/coordinator.py:316-331 | The same from a session that has read nothing: the first write fetches, adopts and merges, and the fold is over the policy it adopted. |
| Writes.DesiredPolicyStandsIff | custom_components/local_mdm/coordinator.py:316-393 | Over every run, overlapping requests included, the desired policy stands at every moment if and only if no fetch of setup or of a write returns with another policy and every push acknowledged carries the same document. |
| Writes.OverlapKeepsOnlyTheSecond | custom_components/local_mdm/coordinator.py:351-372 | Of two acknowledged writes of any kind, the second merged before the first is acknowledged, the first leaves no trace, with anything quiet in between. |
| Writes.OverlappingWritesSurviveIff | custom_components/local_mdm/coordinator.py:351-372 | Both survive such an overlap if and only if the second covers every key the first changes, counting the fold into the allowed list. |
| Writes.OverlappingFlagWritesSurviveIff | custom_components/local_mdm/coordinator.py:351-354 | Two overlapping acknowledged flag writes both survive if and only if they are to the same flag or the first asked for nothing new. |
| Losses.RepairUndoesWrite | custom_components/local_mdm/coordinator.py:259-293 | A session in which a stale report arrives between the release of the lock and the waiting write resuming: the re-push it launches queues behind that write and puts the policy from before it back. |
| Losses.LateFetchUndoesWrite | custom_components/local_mdm/coordinator.py:322-331 | A session in which a write started before the first report re-adopts after another write was acknowledged, and that write is gone. |
| Losses.VersionFalls | custom_components/local_mdm/coordinator.py:382-392 | A session in which a profile is pushed before anything was read, a report with a higher version arrives before its delivery, and the acknowledgement lowers the counter from 50 to 1. |
| Losses.GarbledAnswerForgetsUrl | custom_components/local_mdm/api.py:226-249 | A session in which a resend is answered without JSON and the address is forgotten. |
| TabletView.EngineRefinesTablet | android/app/src/main/java/com/trooperthorn/localmdm/PolicyEngine.kt:49-133 | The enforcement engine refines the protocol's view of the tablet, event by event. |
| TabletView.DeathRefinesTablet | android/app/src/main/java/com/trooperthorn/localmdm/PolicyStore.kt:36-45 | So does a death anywhere in an apply, of a PUT or at a start, with any prefix of its store writes flushed: it is the two queued writes, the flush of that prefix, and a restart from the disk. |
| Replication.SafeEverywhereAlways | custom_components/local_mdm/coordinator.py:112-121 | From a fresh session with any tablet, at every moment the desired policy, every PUT on the wire and the tablet's policy, in force and on disk, are safe, no PUT can be refused for its content, and every report can be adopted. |
| Replication.ConvergenceIsClosed | custom_components/local_mdm/coordinator.py:259-293 | Once the tablet enforces the desired policy, its disk holds no other and every push under way carries it, no behaviour without an operator, deaths of the tablet's process included, changes either side at any moment. |
| Replication.ConvergenceLastsIff | android/app/src/main/java/com/trooperthorn/localmdm/PolicyStore.kt:36-45 | Before the disk has caught up, the pair stays converged at every moment of any such behaviour if and only if no death finds another policy on the disk. |
| Replication.FlushSettles | android/app/src/main/java/com/trooperthorn/localmdm/PolicyStore.kt:36-45 | Once the queued writes are flushed the converged pair is closed as above. |
| Replication.StatusIsDriftIff | custom_components/local_mdm/coordinator.py:274-279 | What the tablet reports is drift exactly when it enforces another policy than the desired one, although the two sides sort names their own way. |
| Replication.LostPushIsDriftIff | custom_components/local_mdm/coordinator.py:259-266 | After a death of a converged tablet's process, its status is drift exactly when the policy was lost. |
| Replication.PushesNeedStaleReports | custom_components/local_mdm/coordinator.py:259-287 | No push loop: over every behaviour without an operator, deaths included, the pushes launched, queued and sent grow by at most one for each arrival of a report that disagrees; and while a converged pair loses nothing, those are the reports that were stale when it converged, so nothing the tablet produces since causes a push. |
| Replication.SettledSendsNothing | custom_components/local_mdm/coordinator.py:259-287 | In particular, converged at rest, with nothing lost and no stale arrivals, no lock is taken and no PUT sent at any later moment. |
| Repair.DeliveryConverges | custom_components/local_mdm/coordinator.py:374-393 | From any world whose queued, held and undelivered pushes all carry the desired policy, in any behaviour without an operator, one delivery of any of them converges the pair, and it stays so exactly while no death loses the policy. |
| Repair.AcknowledgedPushConverges | custom_components/local_mdm/coordinator.py:374-393 | A delivered and acknowledged push, the only one under way, leaves the pair converged on its document and at rest. |
| Repair.DriftIsRepairedInOneRound | custom_components/local_mdm/coordinator.py:259-293 | From any such world, with anything in between, an acknowledged PUT not answered before was delivered at some moment at which the pair converged, for exactly as long as no death loses the policy; its answer is not drift, and every push still carries the policy, so another round repairs a loss. |
| Repair.RepairIsPossible | custom_components/local_mdm/coordinator.py:259-293 | From every such world in which a drifted report arrives with the lock free and outside the interval, that round exists, no move of it can be refused, and a pair that was at rest is at rest again. |
| Repair.LostPushIsRepaired | custom_components/local_mdm/coordinator.py:259-266 | An acknowledged push that a death of the tablet's process loses is reported as drift and repaired by one round, after which, once flushed, the pair is closed for good. |
| Replication.LatePutIsDriftIff | custom_components/local_mdm/coordinator.py:382-390 | After a late PUT takes effect, the tablet's statuses are drift exactly when it carried another policy than the desired one. |
| CalVer.ParseOfCanonical | scripts/set_version.py:30-35 | Parsing a printed version returns it, for every valid date and sequence. |
| CalVer.CanonicalOfParse | scripts/release_config.py:35-37 | A valid string is the one canonical printing of what it parses to. |
| CalVer.ParseIsInjective | scripts/release_config.py:35-37 | Two valid strings that parse alike are equal. |
| CalVer.NextCalver | scripts/set_version.py:38-48 | The result is printed for the release date with one more than the largest sequence of that day among the tags that parse, 1 if there is none, and parses back to exactly that if the year has four digits, to nothing otherwise. |
| CalVer.NextIsUnique | scripts/set_version.py:38-48 | The tags determine that sequence. |
| CalVer.NextAmongTagsIff | scripts/set_version.py:38-48 | Among well-formed tags, prefixed or not, it is one more than the largest sequence of that day; other days do not count. |
| CalVer.CalendarDays | scripts/set_version.py:35-35 | Which dates exist. |
| CalVer.NumberAppend | scripts/set_version.py:34-35 | Digits are read as a decimal number, most significant first. |
| CalVer.PrefixedTagIsNewIff | scripts/set_version.py:38-48 | The tag to be created, prefix and version, is in no tag list, exactly for years of four digits. |
| CalVer.BareVersionIsNewIff | scripts/set_version.py:41-41 | The bare version is new for every tag list exactly when the year has four digits and the prefix is not itself the start of a version of that day. |
| PackagesText.RoundTripIffClean | custom_components/local_mdm/text.py:35-41 | Splitting the displayed text gives the list back exactly when every name is non-empty, comma-free and without outer white space. |
| PackagesText.ReadIff | custom_components/local_mdm/text.py:39-41 | For any typed text: a name is taken exactly when it is not empty, has no white space at its ends and is one of the parts between commas with white space around it. |
| PackagesText.ReadInOrder | custom_components/local_mdm/text.py:39-41 | Names keep the order of their parts, repetitions included. |
| PackagesText.TextIsParts | custom_components/local_mdm/text.py:39-41 | Every text is parts without commas between commas. |
| PackagesText.SpacesAre | custom_components/local_mdm/text.py:40-40 | Which characters count as white space. |
| PackagesText.ResubmittingChangesNothing | custom_components/local_mdm/text.py:39-41 | Submitting the displayed text unchanged leaves the desired policy unchanged when its names are clean. |
| PackagesText.ResubmittingLosesUncleanNames | custom_components/local_mdm/text.py:39-41 | With an unclean name in the kiosk list, or in the allowed list in open mode, it never does. |

## Left out

- Ordering.Utf16OrderIsCodeUnitOrder: strings of Unicode scalar values. Unpaired surrogates, which both JSON parsers accept and the two sides may encode differently, are outside the model.
- PolicyDocument.Key: the fifteen flag keys, the two lists and the mode are constructors instead of strings; every other key keeps its name, and the forbidden names, which are the same fourteen in `policy.py` and `Policy.kt`, are one set.
- DpcCodec.Text: numbers and objects carry the text they print as, and strings nested inside an array element are printed without quotes; the results say nothing that depends on it.
- DpcEngine.PolicyEngine.Apply: the Device Owner tier only. The lite tier, and Wi-Fi, battery and system information in the status document, are not modelled.
- DpcEngine.PolicyEngine.PutPolicy: body reading and the bearer token are not modelled, nor is the 32-bit wrap-around of the version.
- CrashRecovery.DeathNeverMixes: store writes reach the disk in the order they were made, and those of earlier applies are on disk before this one starts. The platform's package sets and answers are the same before and after the death; the version number alone may still be the old one.
- DpcEngine.PolicyEngine.SetPackagesSuspended: a call that throws changes nothing on the platform.
- EnforcementRuns.Step: each engine call is atomic outside `CrashRecovery`; the set of HOME and launchable packages changes only by installs and removals that the tablet is told about.
- Replication.ConvergenceIsClosed: one Home Assistant session, and every report comes from this tablet; a restart of Home Assistant can adopt a stale report, and a foreign device answering a poll is covered only by `CoordinatorRuns`.
- CoordinatorRuns.UrlIsNeverForgottenIff: one webhook address per session, as setup sends it; a resend starts at once.
- CoordinatorObject.LocalMdmCoordinator.FetchRaised: an exception that ends the fetch of setup ends the session in the original, which then starts another; here the session may go on.
- CoordinatorObject.LocalMdmCoordinator.PushLost: a refused, failed and unauthorised push all release the lock and change nothing else; the error shown to the user is not modelled.
- CalVer.NextCalver: sequences of more than 4300 digits, which Python refuses to convert. Some platforms pad the years before 1000; the model does not.
- PackagesText.ResubmittingChangesNothing: the 1024 character limit of the entity; an unclean allowed name under an allowlist, which the fold of the kiosk list may keep.
- MAC synchronisation, UniFi lookup (an optional address given with the event), install, Wi-Fi and reboot actions, entities, config flow and diagnostics: wiring without a property of this kind.
- `set_version` file rewriting, archives and git: text substitution over files.
