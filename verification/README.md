# CortenDesk: policy delivery, resolution and presence, verified

CortenDesk is a console for a fleet of RustDesk devices. This project models the parts of it
that decide something over time and proves what they promise:

- **Policy delivery** (`Options`, `Delivery`, `Protocol`, `Registration`). A strategy is a sanitized
  map of client options. Each heartbeat echoes a version token; the server decides whether to record
  an acknowledgement, move the token, stay silent, re-push, or send the wanted map together with empty
  strings that reset what the device may still hold. `Protocol` puts that server half next to a client
  that latches tokens and holds settings, with lost responses, local edits, reinstalls and a clock
  that may step back. The server half is summed up by the predicate `Fair`, which does not mention its
  branches; the protocol proofs rest on `Fair` alone. `Registration` covers a client that keeps its
  token and settings while its row is purged and created anew.
- **The console** (`Console`, `Coherence`, `ConsoleEffects`, `ConsoleStore`, `Revisions`, `AssignRace`). Strategies, their append-only
  revisions, assignments at three levels, and devices that cache which strategy they resolve to. Every
  operation is a step on the tables; `ConsoleStore` holds the imperative versions, each proved to
  perform exactly its step, `Coherence` proves what every step keeps and `ConsoleEffects` what each
  one changes. `AssignRace` takes assignments apart into single queries and interleaves them.
- **Both together** (`Fleet`). Console operations interleaved with every device's heartbeats; a purge
  takes the row away, not the client.
- **Presence notifications** (`Presence`, `PresenceClaims`, `PresenceSends`). Sweeps and heartbeats as contenders that
  issue one query per step and interleave freely over a durable row and a legacy marker behind an
  expiring lock.
- **Compliance** (`Compliance`, `History`, `FleetReport`, `Counting`), **audited sessions** (`Sessions`)
  and the **probe limiter** (`ProbeLimiter`).

Reading guide. `held` never contains `""`, which means "client default". `touched` is the set of keys
whose last write was a local edit or, on a client that registered again, happened under an earlier
row. `Agree(a, b, except)` says two maps agree outside `except`. `Good` is the console invariant:
well-shaped catalog, coherent cache, complete history. Times are integer seconds. `dafny verify
dfyconfig.toml` checks the whole project.

Where code and comments differ, the model follows the code. Four promises are false of it, and each
comes with its exact condition:

- "Confirmed: the device echoed the current map after it was sent." `ConfirmedCanLie` gives the runs;
  by `Compliance.ConfirmedAsSeen`, and by `FleetReport.ConfirmedAsSeen` over console and fleet
  together, what the report sees vouches for the device if and only if the stored sent map has the
  effect of the wanted one.
- One recovery per outage. `OutlivedClaimRecoversTwice` gives a run for every row and claim with a
  legacy marker, in which a holder outlives the 300 second claim; by `OneRecoveryIffNoMarker` the
  promise holds on all schedules if and only if no legacy marker is there at the start. With a marker
  it holds on the schedules where no holder is late (`OneRecoveryPerOutage`).
- A completed round delivers the policy. `RoundExactly` says exactly when, in every state, and
  `EndToEnd` on every run of console and fleet, purges and clashing tokens (`ClashStrands`) included.
  It always does while row and client are paired, up to local edits (`EndToEndUpToEdits`); an advancing
  clock (`NoClashOnAClock`) or the absence of purges (`NoPurgeNoClash`) keeps tokens from clashing.
- The cached strategy is the resolved one. It is after every operation that runs undisturbed, but
  assignments run in no transaction: by `RaceIsSafeIffApart` two of them leave it right on every
  schedule if and only if no device is in the reach of both.

## Model

| member | source | states |
|---|---|---|
| Options.SanitizeOptions | app/Models/Strategy.php:213-251 | the clean map holds a value under a key exactly when an entry says so: allowlisted key, legal value, true and false as Y and N, texts without their padding; nothing legal is lost or altered |
| Options.CleanExactly | app/Models/Strategy.php:218-246 | the same for one entry, against a predicate that does not mention trimming |
| Options.TrimExactly | app/Models/Strategy.php:232 | trimming removes exactly the padding around a text |
| Options.SanitizeKeepsLegal | app/Models/Strategy.php:213-251 | legal values without padding pass through unchanged |
| Options.Vocabulary | app/Models/Strategy.php:86-133 | which values each kind of key accepts |
| Options.TimeoutsAreMinutesOfADay | app/Models/Strategy.php:116 | a disconnect timeout is accepted exactly as a numeral from 1 to 1440 |
| Options.SanitizeIdempotent | app/Models/Strategy.php:276-285 | sanitizing a sanitized map changes nothing, so sanitizing on the way in and again on the way out is safe |
| Options.SanitizeIgnoresOrder | app/Models/Strategy.php:203-251 | any two orderings of the same entries give the same map |
| Options.ResetIsAccepted | app/Models/Strategy.php:75-136 | the empty string is a legal value of every allowlisted key |
| Delivery.RespondIsFair | app/Models/Strategy.php:601-710 | a row that is not active, or that never had a policy and is to have none, is left alone; otherwise an echo of the stored token acknowledges the map it stood for; afterwards the token stands for the wanted map and is new and larger exactly when that map is new; a response names some key, sets every wanted one and resets exactly the other keys sent or acknowledged; silence means the echo is current or no key is in play |
| Delivery.QuarantineIsKept | app/Models/Strategy.php:601-613 | a device that is not active is neither answered nor touched; an active one stays without a token exactly while policy and acknowledgement are empty and it has none |
| Delivery.RespondIsDated | app/Models/Strategy.php:634-667 | an echo leaves a confirmation at most 60 s old, rewritten only on a changed map or an aged stamp; a moved token is dated now and an unmoved one keeps its date |
| Delivery.DeviceRecord.RecordAck | app/Models/Strategy.php:634-656 | the columns change as an acknowledgement changes them and not otherwise |
| Delivery.DeviceRecord.Bump | app/Models/Strategy.php:661-668 | the token moves past the old one and the clock, with the wanted map, unless it already stands for it |
| Delivery.DeviceRecord.Answer | app/Models/Strategy.php:672-709 | silence, enforced re-push, or wanted map plus resets, and the late start of the confirmation clock |
| Delivery.DeviceRecord.DeliveryFor | app/Models/Strategy.php:601-710 | the in-place heartbeat performs exactly the specified response, is fair, and leaves a device that is not active alone |
| Delivery.AddResets | app/Models/Strategy.php:690-696 | the reset loop keeps every wanted value and gives every other listed key an empty string |
| Protocol.RunInv | app/Models/Strategy.php:601-710 | on every run of heartbeats (answered or lost), local edits, reinstalls and status changes the client holds the map its token stands for, outside its local edits, and a client that is behind holds what the server believes acknowledged |
| Protocol.BeliefIsExact | app/Models/Strategy.php:622-668 | without local edits and reinstalls a client on the current token holds exactly the sent map, any other exactly the acknowledged one, whatever responses were lost |
| Protocol.BeliefUpToEdits | app/Models/Strategy.php:622-695 | the same on every run, outside locally edited keys, a reinstalled client holding nothing |
| Protocol.AckIsTruthful | app/Models/Strategy.php:625-656 | an acknowledgement is recorded only for the map the client's token stands for and the client really holds |
| Protocol.RoundDelivers | app/Models/Strategy.php:682-709 | from any reachable state one completed round leaves an active client holding exactly the wanted map, up to local edits not overwritten |
| Protocol.EnforceOverwrites | app/Models/Strategy.php:672-680 | under enforce a completed round overwrites every local edit of a policy key |
| Protocol.NothingStranded | app/Models/Strategy.php:634-709 | after any run: one round delivers, the next heartbeat acknowledges a non-empty policy, and without enforce the server is silent until the policy changes, through local edits and status changes |
| Protocol.QuietUntilPolicyChanges | app/Models/Strategy.php:672-675 | once settled, no heartbeat of an unchanged, unenforced policy is answered with a policy and the token does not move, also while the device is disabled and enabled again |
| Protocol.QuarantineHolds | app/Models/Strategy.php:601-607 | over runs, heartbeats of a device that is not active are answered with no policy and change neither row nor client |
| Protocol.TokenMovesWithMap | app/Models/Strategy.php:658-668 | the token changes exactly when the map it stands for changes or is first set |
| Protocol.TokensAreForever | app/Models/Strategy.php:661-668 | whatever the clock does, a token keeps its meaning for ever, is never 0, and later tokens are larger than earlier ones |
| Protocol.WireStaysSafe | app/Models/Strategy.php:690-709 | when policies come from the sanitizer, every key that ever reaches the wire is allowlisted with an accepted value, resets of stored keys included |
| Registration.RoundExactly | app/Models/Strategy.php:601-710 | in every state of row and client, invariant or not: a completed round leaves exactly the wanted settings if and only if an answer with resets names every key held, an enforced repetition names every key held, or under silence they were held already |
| Registration.RoundAfterPurge | app/Models/Strategy.php:634-709 | the same for a client its new row does not know: the policy and the maps sent so far name every key it holds; on a clash of tokens nothing is reset and only enforce sends anything |
| Registration.PairedRound | app/Models/Strategy.php:682-709 | while row and client are paired, one completed round leaves the wanted map outside keys not written by this row |
| Registration.ClashStrands | app/Models/Strategy.php:661-668 | purged, registered again and given another policy within one second, a client keeps the old policy and is believed current |
| Revisions.NumbersAreGapless | app/Models/StrategyRevision.php:91-106 | a strategy's revisions carry exactly the numbers 1..n, each once |
| Revisions.AppendNumbered | app/Models/StrategyRevision.php:91-106 | allocating the maximum plus one keeps the numbering of every strategy gapless |
| Revisions.DiffSnapshots | app/Models/StrategyRevision.php:48-71 | the two loops list exactly the differing keys, each once, with both values |
| Revisions.DiffIsPatch | app/Models/StrategyRevision.php:48-71 | applying a diff to the first snapshot gives the second, undoing it gives the first back, and it is empty exactly on equal snapshots |
| Coherence.StepShape | app/Models/Strategy.php:155-199 | every operation keeps at most one default and trashed strategies disabled, not default and unassigned |
| Coherence.StepCoherent | app/Models/Strategy.php:520-564 | after every operation each device's cached strategy, trashed devices included, is the one it resolves to |
| Coherence.BulkCoherent | app/Livewire/UserList.php:345-423 | ownership and group changes written without model events are repaired by the full recompute, devices of a deleted owner that were in the recycle bin included |
| Coherence.ResolveFrame | app/Models/Strategy.php:399-432 | resolution depends only on routing flags, the device's owner and group, and what is assigned to its own three targets |
| Coherence.ResolveExactly | app/Models/Strategy.php:399-432 | a device resolves to a strategy if and only if it is the first enabled one on offer at its own, its owner's or its group's level, or nothing is and it is the enabled default |
| Coherence.TargetedIsFull | app/Models/Strategy.php:350-361 | from a coherent cache an assignment with its targeted recompute gives the state a full recompute would |
| AssignRace.ApartEndsCoherent | app/Models/Strategy.php:350-361 | query by query, any number of assignments in any interleaving leave every cached strategy right if no device is in the reach of two |
| AssignRace.ApartIsSerial | app/Models/Strategy.php:350-361 | and then, for different targets, they end exactly as if they had come one by one |
| AssignRace.NothingToWrite | app/Models/Strategy.php:350-361 | a request writes nothing when it found what it had loaded, and of two insertions for a target the second ends its request |
| AssignRace.LateWriteIsStale | app/Models/Strategy.php:520-528 | for any device rows, two valid assignments that reach one device have a schedule that ends with a stale cached strategy |
| AssignRace.RaceIsSafeIffApart | app/Models/Strategy.php:350-361 | two assignments leave the cache coherent on every schedule if and only if no device is in the reach of both |
| Coherence.ExplainAgrees | app/Models/Strategy.php:447-517 | the inspector's winner is the resolved strategy in every well-shaped state |
| Coherence.ExplainNeedsOneDefault | app/Models/Strategy.php:483-501 | with two defaults the inspector and the resolver can disagree |
| Coherence.StepDescribes | app/Livewire/StrategyList.php:276-317 | after every operation each live strategy's active revision is its latest and equals its state, a displaced default included, and earlier revisions are unchanged |
| Coherence.RunIsGood | app/Livewire/StrategyList.php:233-415 | all of the above over every run of console operations |
| Coherence.StepKeeps | app/Livewire/StrategyList.php:233-415 | one operation keeps the invariant wherever it held, and only ever appends revisions in any state at all |
| ConsoleEffects.StepDoes | app/Livewire/StrategyList.php:233-415 | every operation that finds its subject leaves strategies, revisions, assignments, users, groups and devices as a declarative account of it says, and nothing else; one that does not leaves everything |
| ConsoleEffects.SaveEffect | app/Livewire/StrategyList.php:276-317 | the stored strategy and its new active revision carry the form; another strategy loses at most the default and then has a revision that shows it |
| ConsoleEffects.RestoreEffect | app/Livewire/StrategyList.php:387-412 | note, enforcement and options come back; name, enabled, default and every other strategy stay |
| ConsoleEffects.ToggleEffect | app/Livewire/StrategyList.php:336-348 | enabled flips, everything else stays, and a new revision shows it |
| ConsoleEffects.DeleteEffect | app/Models/Strategy.php:178-198 | the strategy is retired and exactly its own assignments go |
| ConsoleEffects.ReownEffect | app/Livewire/UserList.php:400-423 | checked devices the actor may assign go to the user, the rest of the user's devices the actor may release go free, recycled ones stay |
| ConsoleEffects.RemoveUserEffect | app/Livewire/UserList.php:345-362 | exactly the user's devices outside the recycle bin lose their owner, and exactly the user's assignment goes |
| ConsoleEffects.RemoveGroupEffect | app/Livewire/GroupList.php:171-176 | the same for a group |
| Coherence.RestoreKeepsPolicy | app/Livewire/StrategyList.php:387-412 | the diff from a restored revision to the new one mentions only name, enabled and default |
| ConsoleStore.Database.Resolved | app/Models/Strategy.php:399-432 | the memoized walk with early exit returns the resolved strategy and keeps the memo right |
| ConsoleStore.Database.SyncResolvedFor | app/Models/Strategy.php:520-528 | refreshes one row's cached column and nothing else |
| ConsoleStore.Database.RecomputeQuery | app/Models/Strategy.php:531-564 | refreshes exactly the listed devices, whatever the order |
| ConsoleStore.Database.AssignTo | app/Models/Strategy.php:350-361 | performs the assignment and targeted recompute; an insertion naming a missing row leaves the deletion and re-resolves nothing; for targets and strategies that were looked up the invariant is kept |
| ConsoleStore.Database.SaveRow | app/Models/Strategy.php:159-176 | performs a row write with its save hook: unique default, dropped memo, recompute when routing moved |
| ConsoleStore.Database.CaptureRevision | app/Models/StrategyRevision.php:79-114 | appends the next revision of the current state and makes it active |
| ConsoleStore.Database.SaveStrategy | app/Livewire/StrategyList.php:276-317 | performs the create or update step, capturing a displaced default too; keeps the console invariant and every earlier revision and has the effect `ConsoleEffects` states |
| ConsoleStore.Database.ToggleStrategy | app/Livewire/StrategyList.php:336-348 | performs the toggle step; keeps the console invariant and every earlier revision and has the effect `ConsoleEffects` states |
| ConsoleStore.Database.RestoreRevisionRow | app/Livewire/StrategyList.php:387-412 | performs the restore step; keeps the console invariant and every earlier revision and has the effect `ConsoleEffects` states |
| ConsoleStore.Database.DeleteStrategyRow | app/Models/Strategy.php:178-198 | performs the soft-delete step; keeps the console invariant and every earlier revision and has the effect `ConsoleEffects` states |
| ConsoleStore.Database.SaveAssign | app/Livewire/UserList.php:400-423 | performs the bulk owner reassignment step; keeps the console invariant and every earlier revision and has the effect `ConsoleEffects` states |
| ConsoleStore.Database.DeleteUserRow | app/Livewire/UserList.php:345-362 | performs the user deletion step with its recompute hook (app/Models/User.php:85); keeps the console invariant and every earlier revision and has the effect `ConsoleEffects` states |
| ConsoleStore.Database.DeleteGroupRow | app/Livewire/GroupList.php:171-176 | performs the group deletion step with its recompute hook (app/Models/DeviceGroup.php:19-22); keeps the console invariant and every earlier revision and has the effect `ConsoleEffects` states |
| ConsoleStore.Database.CreateDevice | app/Models/Device.php:79-81 | performs the device creation step with its hook; keeps the console invariant and every earlier revision and has the effect `ConsoleEffects` states |
| ConsoleStore.Database.UpdateDevice | app/Models/Device.php:83-87 | performs the device update step, recycled rows included, refreshing only when owner or group changed; keeps the console invariant and every earlier revision and has the effect `ConsoleEffects` states |
| ConsoleStore.ExplainFor | app/Models/Strategy.php:447-517 | the loop's winner is the resolved strategy, exactly one step is applied when something wins, every level above it says why it lost, and each step is unset, unassigned or disabled exactly when its level is |
| Fleet.EndToEnd | app/Http/Controllers/Api/SyncController.php:38-103 | after any interleaving of console and fleet at all, a completed heartbeat of an active, not recycled device leaves it holding exactly the sanitized options of the strategy precedence resolves to if and only if the answer covers what it held; and only safe keys were pushed |
| Fleet.EndToEndUpToEdits | app/Http/Controllers/Api/SyncController.php:38-103 | unless tokens clashed, it holds those options outside keys last written by the user or under an earlier row, and such keys only get fewer |
| Fleet.NoClashOnAClock | app/Models/Strategy.php:661-668 | if the clock advances between the heartbeats of a device, no run hands a returning client the token it kept |
| Fleet.NoPurgeNoClash | app/Livewire/DeviceList.php:696-702 | nor does any run that never purges the device |
| Fleet.PolicyIsWanted | app/Models/Strategy.php:609-613 | the cached lookup of the heartbeat path asks for what a fresh resolution wants and enforces exactly when the resolved strategy does |
| Fleet.FormIsWanted | app/Livewire/StrategyList.php:276-317 | after a form with legal, unpadded values is saved, every device that resolves to the strategy is to hold exactly the form's options, enforced as the form says |
| Fleet.ConsoleReachesNoClient | app/Livewire/DeviceList.php:696-702 | no console operation changes a client; a row that comes back after a purge is fresh, every other keeps its delivery columns |
| Fleet.HeartbeatReachesOneDevice | app/Http/Controllers/Api/SyncController.php:31-47 | a heartbeat changes no table and no other device; that of a recycled, purged or quarantined device changes nothing |
| Presence.NotificationState.ClaimOffline | app/Models/DevicePresenceNotificationState.php:111-137 | with nothing in between, the two queries claim exactly an absent row or a pending one past the timeout |
| Presence.NotificationState.InsertClaim | app/Models/DevicePresenceNotificationState.php:116-124 | the insert succeeds exactly when there is no row |
| Presence.NotificationState.TakeOverClaim | app/Models/DevicePresenceNotificationState.php:126-136 | the takeover succeeds exactly on a pending row whose claim is at least 300 s old |
| Presence.NotificationState.MarkDelivered | app/Models/DevicePresenceNotificationState.php:140-152 | delivers exactly when the caller's token still owns the pending row |
| Presence.NotificationState.ReleaseClaim | app/Models/DevicePresenceNotificationState.php:155-162 | releases exactly when the caller's token still owns the pending row |
| Presence.NotificationState.ConsumeRecovery | app/Models/DevicePresenceNotificationState.php:179-185 | consumes exactly a delivered row |
| Presence.MarksAndRecoveriesAlternate | app/Console/Commands/CheckDeviceNotifications.php:35-103 | without a legacy marker, from any row and claim and on every interleaving with stale snapshots, crashes and takeovers, marks and recoveries strictly alternate, a mark first unless an outage was already delivered |
| PresenceSends.MarksWereSent | app/Console/Commands/CheckDeviceNotifications.php:89-102 | on every run, whoever marks an outage was told before that its own message went out |
| PresenceSends.MessageDecides | app/Console/Commands/CheckDeviceNotifications.php:97-102 | if the claim still stands after the message, a message that went out marks the row and one that did not gives it back; if it is gone, neither changes anything |
| PresenceSends.SweepAlone | app/Console/Commands/CheckDeviceNotifications.php:68-102 | an undisturbed sweep turns a legacy marker into a delivered row without counting it, marks an outage nobody has claimed for 300 s, and leaves the rest |
| PresenceSends.HeartbeatAlone | app/Console/Commands/CheckDeviceNotifications.php:138-166 | an undisturbed heartbeat recovers exactly when there is a delivered row or a legacy marker, once from both |
| PresenceClaims.LateOwnerIsPowerless | app/Models/DevicePresenceNotificationState.php:126-162 | once a claim is lost, after any further run its old owner can neither complete nor release the row, nor count a mark |
| PresenceClaims.YoungClaimIsSafe | app/Models/DevicePresenceNotificationState.php:126-136 | before 300 s only the contender carrying its token can change a pending row |
| PresenceClaims.LiveLockIsSafe | app/Models/DevicePresenceNotificationState.php:29-103 | a legacy claim that has not run out is freed by nobody but its holder |
| PresenceClaims.OnlyOwnersPull | app/Models/DevicePresenceNotificationState.php:29-103 | the legacy marker is pulled only by a contender whose claim was found to stand in the query before |
| PresenceClaims.MarkersAreConserved | app/Models/DevicePresenceNotificationState.php:29-103 | on every run recoveries plus outstanding markers never exceed marks plus markers initially present; a legacy marker is pulled at most once, and unless its lifetime ended it is still there or was pulled exactly once |
| PresenceClaims.OneRecoveryPerOutage | app/Console/Commands/CheckDeviceNotifications.php:138-166 | from any row, with a legacy marker or not, if no holder outlives the legacy claim, no two recoveries happen without a mark between them |
| PresenceClaims.OutlivedClaimRecoversTwice | app/Console/Commands/CheckDeviceNotifications.php:160-165 | from every row and claim with a legacy marker, a converter that outlives the claim can make one outage recover twice |
| PresenceClaims.OneRecoveryIffNoMarker | app/Console/Commands/CheckDeviceNotifications.php:138-166 | all schedules, late holders included, give one recovery per outage if and only if there is no legacy marker at the start |
| Compliance.ConfirmedExactly | app/Services/StrategyCompliance.php:151-158 | on undisturbed runs a confirmed device holds the wanted settings if and only if it is behind its token or was last sent those settings |
| Compliance.ConfirmedAsSeen | app/Services/StrategyCompliance.php:151-158 | in terms of the columns alone: every undisturbed run that ends in confirmed columns leaves the wanted settings on the device if and only if the stored sent map has their effect |
| Compliance.EchoConfirms | app/Models/Strategy.php:634-656 | an echo of the current token reads confirmed if and only if no acknowledgement from before the last push is still under a minute old |
| Compliance.TwoBeatsConfirm | app/Services/StrategyCompliance.php:151-158 | after any run, a completed round and a further heartbeat more than a minute later make an active device confirmed |
| Compliance.ConfirmedIsTrue | app/Services/StrategyCompliance.php:151-158 | confirmed with the wanted map as the stored sent map means the device holds it |
| Compliance.ConfirmedCanLie | app/Services/StrategyCompliance.php:156-158 | for any two maps with different effect there is a two-heartbeat run after which the first is reported confirmed while the device holds the second |
| Compliance.VerdictsOnlyAge | app/Services/StrategyCompliance.php:160-171 | with unchanged columns confirmed stays, a wait ends for good, and then presence alone decides stale or offline |
| Compliance.PushStartsTheClock | app/Services/StrategyCompliance.php:160-171 | a heartbeat that moves the token to the wanted map starts the clock: until it confirms, the device waits for the length of the window from then, whatever the history says, and is overdue from then on |
| Compliance.UnsentWaitsSinceTheChange | app/Services/StrategyCompliance.php:160-171 | a device not yet sent the map is overdue exactly the window after the map changed |
| Compliance.WindowInSeconds | app/Services/StrategyCompliance.php:165 | the window is 900 s when none is set, else the minutes set, never under 60 s |
| Compliance.OptionsChangedAt | app/Services/StrategyCompliance.php:133-145 | dates a map by the oldest of the newest revisions that still carry it, or falls back |
| FleetReport.HistoryDatesThePolicy | app/Services/StrategyCompliance.php:116-145 | on the tables the console leaves, an enabled strategy is dated by the revision with which the map it pushes came in: it and all later ones carry the map, the one before does not; the fallback is not used |
| Compliance.Record | app/Services/StrategyCompliance.php:173-192 | counts one verdict and lists the row only if wanted and there is room |
| Compliance.Summaries | app/Services/StrategyCompliance.php:43-114 | every count is the number of rows with that verdict; per state the listed rows are those among the first min(limit, matches) matches, each once, in byte order of their ids |
| Compliance.CountsAreExact | app/Services/StrategyCompliance.php:80-103 | over any joined rows, the four states sum to the rows resolved to the strategy and overridden counts the rows assigned to it but resolved elsewhere |
| Compliance.MatchesAreCounted | app/Services/StrategyCompliance.php:173-192 | as many rows match a request as the counts of the states asked for |
| FleetReport.TallyIsHeadCount | app/Services/StrategyCompliance.php:64-78 | over the joined query, which lists each active, not recycled device once, every count is a number of distinct devices |
| FleetReport.ReportIsExact | app/Services/StrategyCompliance.php:64-103 | on the tables the console leaves, the four states partition the active devices that resolve to the strategy, and overridden is the set of those assigned it at any level that resolve elsewhere |
| FleetReport.Report | app/Services/StrategyCompliance.php:43-114 | the counts of the loop are those head counts, and the details number min(limit, matches) |
| FleetReport.ConfirmedHoldsPolicy | app/Services/StrategyCompliance.php:151-158 | over every interleaving of console and fleet, a device counted confirmed whose stored sent map is the wanted one holds what precedence wants, if only its row wrote its settings; the wanted map comes from the tables |
| FleetReport.ConfirmedAsSeen | app/Services/StrategyCompliance.php:151-158 | every undisturbed run of console and fleet that looks the same to the report leaves the device holding what precedence wants if and only if the stored sent map has that effect |
| Sessions.AuditConnections.ReconcileFor | app/Models/AuditConnection.php:113-121 | closes exactly that device's open sessions past 90 s that it does not list, and says how many |
| Sessions.AuditConnections.PendingDisconnectsFor | app/Models/AuditConnection.php:59-78 | returns the connections that are due, marks them told, and leaves none due |
| Sessions.AuditConnections.CloseStaleSessions | app/Models/AuditConnection.php:143-156 | afterwards every open session is under five minutes old or on a device heard from within five minutes; the result is the number it closed |
| Sessions.AuditConnections.Disconnect | app/Livewire/ActiveSessions.php:34-58 | records the request on an open session and leaves a closed one alone |
| Sessions.ClosedIsFrozen | app/Models/AuditConnection.php:59-156 | over every run a closed session's row never changes again and it is never told to disconnect |
| Sessions.RetriesAreSpaced | app/Models/AuditConnection.php:43-78 | over every run, between operator requests one session is told at intervals over 60 s |
| Sessions.ToldExactly | app/Models/AuditConnection.php:59-78 | on every run a heartbeat tells a session to disconnect exactly when it is its own known device's, the session is open and listed or under 90 s old, an operator asked, and since then it was told never or over 60 s ago |
| Sessions.SweepLeavesTheLiving | app/Models/AuditConnection.php:143-156 | a session is open after a sweep if and only if it was open and is young or on a device heard from lately |
| Sessions.NothingLingers | app/Models/AuditConnection.php:143-156 | however long after a sweep, every open session, or the last word from its device, is older than five minutes by no more than the time since that sweep |
| Sessions.ClosesExactlyForAReason | app/Models/AuditConnection.php:98-156 | on every run an open session is closed at a moment if and only if the first reason came then: its client closed it, its known device stopped listing it after 90 s, or a sweep found its device silent or recycled |
| Sessions.NewSessionIsSpared | app/Models/AuditConnection.php:113-121 | for 90 s after it was opened a session ends only if its own client says so |
| Sessions.HeartbeatSpares | app/Models/AuditConnection.php:143-156 | a heartbeat spares the sessions of its device from every sweep of the next five minutes |
| Sessions.CloseEndsTheNewest | app/Http/Controllers/Api/AuditController.php:45-53 | a client's close ends one session, the newest open one of its connection |
| ProbeLimiter.FileBucket.Allows | app/Services/FileHealthProbeLimiter.php:14-46 | looks for a live window or opens one, then counts the probe at a second reading of the clock, and admits within the limit; a contested lock rejects, a failing cache admits |
| ProbeLimiter.AnyMinuteAdmitsTwice | app/Services/FileHealthProbeLimiter.php:24-46 | for every ordered sequence of probes no closed interval of 60 s admits more than twice the limit, besides probes that met a failing cache, if a window that runs out between the two queries is replaced by one of at least a minute |
| ProbeLimiter.SteadyClientIsAdmitted | app/Services/FileHealthProbeLimiter.php:24-46 | a client whose probes are g seconds apart with g times the limit at least 60 is rejected exactly when the lock is contested, if such a replacement lasts at most a minute |
| ProbeLimiter.ShortSlipAdmitsThree | app/Services/FileHealthProbeLimiter.php:30-31 | a shorter replacement can admit three probes in a minute at a limit of one |
| ProbeLimiter.LongSlipRejects | app/Services/FileHealthProbeLimiter.php:30-31 | a longer one rejects a client that keeps a minute between its probes at a limit of one |

## Left out

- HTTP controllers, authorization and visibility: the echoed token, the list of live connections and the set of devices an actor may assign are inputs of the steps.
- Concurrent heartbeats of one device: one is outstanding at a time, and the client applies a response and latches its token together.
- A client that loses its token but keeps its settings while its row remains.
- The approval gate of a new registration: a row starts active and a status change may follow at once.
- Defensive reads of stored JSON (`stringMap`): the columns are typed as string maps; token overflow past 64 bits is not modelled.
- How a number becomes text before trimming: a numeric form value carries its printed form.
- Form validation of the strategy editor (unique names, numeric ranges): a rejected form changes nothing, an accepted one reaches the save step with any raw options.
- Baseline revisions written by the history migration, which may hold unsanitized options: history starts empty.
- Change notes, authors and affected-device counts of revisions; the order of a diff's option keys.
- Presence.NotificationState.ClaimOffline: states its two queries back to back; each is also stated alone, and the transition system in `Presence` interleaves other contenders between them.
- The sweep's loop over devices, its counters, snoozes and grace period: contenders for one device start at any time, which covers every such schedule.
- Races between assignments and other console operations: strategies, owners and groups stand still in `AssignRace`, its rows are loaded at once rather than in chunks of 500, and a request that dies half way is one that never ends.
- Cache pull is one atomic step, as are lock acquisition and release; a device row deleted during an outage is not modelled.
- Compliance.Summaries: the display text of detail rows is not modelled.
- ProbeLimiter.FileBucket.Allows: what the cache library stores when a counter expires between the two queries is an input; the library is not part of this model.
- Permissions, tokens, address books, invitations, mail, OIDC and Apprise transports, the user interface and the browser client.
