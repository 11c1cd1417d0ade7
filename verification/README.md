# lite-router: a verified model of session-pinned routing

lite-router is a LiteLLM pre-call hook. It classifies each coding session once, pins a model tier for
the session's lifetime, raises the tier one step on explicit failure signals, and logs every decision.
This project models the parts of it on which those promises rest and proves them for all inputs, all
runs and, for the pinning protocol, all interleavings. `dafny verify dfyconfig.toml` checks everything.

## How the model is built

| file | what it models |
|---|---|
| `Policies.dfy` | the validated tier ladder (`policies.py`) |
| `Content.dfy` | nested message content and its bounded flattening (`session_key.py`) |
| `SessionKey.dfy` | session headers and the derived session key (`session_key.py`) |
| `Escalation.dfy`, `ScanLaws.dfy` | the watermarked failure scan, and what repeated scans add up to (`escalation.py`) |
| `ToolResults.dfy` | which tool results count as failures, and what they do to the detector (`escalation.py`) |
| `Evidence.dfy` | which tool results a signal counts, and when spent ones are counted again (`escalation.py`) |
| `StateMachine.dfy` | session records, the pin, the one-step escalation, one pinned request (`state_machine.py`, `hook.py`) |
| `Turns.dfy` | what one request on a pinned session answers, in terms of its history alone (`hook.py`) |
| `Store.dfy` | a Redis keyspace with deadlines, and the client class that fails open (`session_store.py`) |
| `Protocol.dfy` | the request protocol as atomic steps: one label per point where the hook awaits |
| `Coupling.dfy`, `Theorems.dfy` | invariants and safety theorems over every run of the protocol |
| `Pins.dfy` | in every run, each pin is the one asked for and each event tells what happened |
| `Overlap.dfy`, `Rescans.dfy` | when exactly overlapping, lost or late write-backs lower a tier or let evidence count twice |
| `Serial.dfy`, `Serialisation.dfy` | one session served turn by turn, and the equivalence of concurrent runs with it |
| `Timed.dfy` | what the deadlines guarantee |
| `Hook.dfy`, `HookLaws.dfy` | the hook as a class, and laws of whole request sequences through it |
| `Overrides.dfy` | the override dedupe window (`hook.py`) |
| `DecisionLog.dfy` | the bounded queue, the batching flusher, failing writes (`decision_log.py`) |

In the protocol, any number of requests on any keys interleave at every await. A store call may go
unanswered at any time; its command then joins a set of pending commands, each of which may reach the
server later, any number of times, or never (so "applied but reported as failed" is one of the cases).
Keys may expire by the clock or be evicted, and any request may raise at any await. Requests that name
a concrete model or ride a side channel never reach the store and take no part in the protocol; the hook
model covers them. Regular expressions, side-channel patterns and SHA-256 are arbitrary functions. One
validated policy configuration holds throughout a run.

`HookLaws.UninterruptedIsServeAlone` ties the two views together: the sequential meaning that the class
`LiteAutoRouter` is proved against is what the protocol does when one request takes all its steps in a row,
whichever of its store calls are answered, lost, or carried out without the answer arriving.

## Where the code and its documentation differ

* The scanner's header says each message index is scanned at most once per session, and that consumed
  evidence never fires twice. Both fail, for the same two reasons.
  * A history shrinks. `ScanLaws.SpentEvidenceFiresAgain` and `ScanLaws.RegrownHistoryFiresAgain` give
    inputs at every threshold; in the second one the call that fires is not the one that shrinks. While one
    scan state is handed from call to call there is no other reason: `Evidence.SpentStaysSpent` covers all
    sequences of calls on any histories. After a shrink, `Evidence.RewindsRefineBatch` says exactly when
    some call raises a tool signal, and `Evidence.SpentEvidenceReturnsExactly` exactly when a signal counts
    spent results.
  * The stored record is not based on the earlier request, because its write-back got lost, comes later or
    was overwritten. `Rescans.EvidenceFiresTwice` escalates twice on one history, from any state that can
    escalate; `Rescans.CarriedEvidenceFiresTwice` does so although no message is scanned twice. If the
    record is based on it and nothing shrinks, neither a scan nor a result is ever repeated, in any run
    (`Rescans.ReuseNeedsAShrinkOrALostWrite`). If nobody else writes in between, the exact conditions are
    `Rescans.EvidenceReusedExactly` for counting a result again, results carried in included, and
    `Rescans.RescannedIffShrunkOrUnwritten` for scanning a message again among header-free requests.
* "Tier is monotonic non-decreasing" holds of every transition function and of sessions whose pinned
  requests do not overlap (`Serialisation.ConcurrentRatchet`). Overlapping write-backs can lower the
  stored tier, and so can one that lands late: `Overlap.OverlapRegresses` and `Overlap.LateWriteRegresses`
  show how from any state that can escalate. As long as the key has never been lost, `Overlap.TierFallsExactly`
  says exactly which steps do it; `Overlap.LostKeyRegresses` is the boundary of that, an old write landing
  on a session that was evicted and pinned anew, and `Overlap.TierFallsAcrossPins` holds of all runs.
* The claim placeholder is called short-lived, but the read that precedes every request slides its
  deadline by the full session ttl, so an abandoned claim (`Timed.AbortedClaimIsAbandoned`) can keep a
  session on the default model for as long as requests keep coming. `Timed.AbandonedClaimStaysExactly`
  says for which request times it does, and that the first late request pins the session; unread, it
  lapses on time (`Timed.UnreadClaimLapses`).
* Override events are said to be logged once per session and model. They repeat once 4096 other pairs
  were logged in between: `Overrides.ForgottenPairIsLoggedTwice` shows it happen,
  `Overrides.LoggedExactlyWhenForgotten` and `Overrides.RepeatsAreFarApart` say when.
* A log event emitted without a running event loop is said to be dropped silently. If it is the very first
  one, it also keeps the flusher from ever starting: `DecisionLog.FirstEmitDecides` says over all runs
  that the flusher runs if and only if the first event found a running loop, and what happens otherwise.

## Model

| member | source | states |
|---|---|---|
| `Policies.ValidateAcceptsExactlyValid` | packages/router-common/src/router_common/policies.py:62-73 | The load-time checks pass if and only if the ladder is non-empty, its names are pairwise distinct and the forced tier is on it; an empty ladder is reported first, then duplicate names. |
| `Policies.NameCountDetectsDuplicates` | packages/router-common/src/router_common/policies.py:66-68 | Comparing the number of names with the number of distinct names finds a duplicate exactly when there is one. |
| `Policies.PositionRoundTrip` | packages/router-common/src/router_common/policies.py:78-88 | On a valid ladder, looking a tier up by name returns that very tier and its position. |
| `Policies.DefaultTierIsFirstServing` | packages/router-common/src/router_common/policies.py:90-95 | The default tier is the first one serving the default model, and the middle of the ladder only if there is none. |
| `Content.FlattenContent` | packages/session-router/src/session_router/session_key.py:51-72 | The limit-threading recursive loop terminates and returns exactly the first `limit` characters of all the nested text, for every content value and limit. |
| `Content.WhereTextComesFrom` | packages/session-router/src/session_router/session_key.py:53-72 | A string is its own text, a list the text of its elements in a row, an object's own text wins over its nested content, anything else has none. |
| `Content.LimitsNest` | packages/session-router/src/session_router/session_key.py:51-72 | Results at two limits are prefixes of one another. |
| `Content.AppendedTextShowsOnlyBelowTheLimit` | packages/session-router/src/session_router/session_key.py:56-72 | Appended blocks change the result if and only if the text before is under the limit and they hold text. |
| `SessionKey.SessionHeaderPriority` | packages/session-router/src/session_router/session_key.py:20-28 | A session id found in the headers is the value of the first non-empty session header in priority order. |
| `SessionKey.OpenerSurvivesExactly` | packages/session-router/src/session_router/session_key.py:75-95 | Appending messages leaves both texts behind the derived key unchanged if and only if each was already fixed or nothing appended supplies it. |
| `SessionKey.DerivedKeyIsStable` | packages/session-router/src/session_router/session_key.py:98-111 | A replayed conversation keeps its key for every hash function if and only if it has a session header or that condition holds. |
| `SessionKey.TextsBehindTheKey` | packages/session-router/src/session_router/session_key.py:75-95 | A truthy top-level system value decides, otherwise the first system message, to 8000 characters; the opener is the first user message, to 4000. |
| `SessionKey.DerivedKeysAgreeExactly` | packages/session-router/src/session_router/session_key.py:98-111 | Without a session header, two requests have one key under every hash function if and only if their aliases, system texts and openers all agree. |
| `SessionKey.HeaderIsTheKey` | packages/session-router/src/session_router/session_key.py:105-107 | With a session header, its value is the key, whatever else the request holds. |
| `SessionKey.LateSystemMessageChangesTheKey` | packages/session-router/src/session_router/session_key.py:82-111 | A conversation that gains its first system message later can change key. |
| `Escalation.StreakIsLongestFailingSuffix` | packages/session-router/src/session_router/escalation.py:149-150 | The running count is the length of the longest failing suffix of the results, extended by the carried count only if none passed. |
| `Escalation.ToolSignalExactlyOnCrossing` | packages/session-router/src/session_router/escalation.py:142-152 | A tool signal is raised if and only if some tool turn in the window ends with its streak at or over the threshold. |
| `Escalation.ScanWindow` | packages/session-router/src/session_router/escalation.py:140-170 | The detector's loop computes the window's signal and the streak of the window's results. |
| `Escalation.Detect` | packages/session-router/src/session_router/escalation.py:105-170 | The detector, with its header, non-list, shrink and tail-bound branches, computes the specification the scan laws are about. |
| `ToolResults.VerdictsAreTheFlags` | packages/session-router/src/session_router/escalation.py:69-101 | In both client shapes, the tool results of a message are its tool_result blocks in order, or a tool message itself; each failed if and only if it is flagged (blocks only) or its text, cut to 2000 characters, is non-empty and hits the marker. |
| `ToolResults.WhatAMessageDoes` | packages/session-router/src/session_router/escalation.py:140-170 | At any position of any window: a message whose results all failed adds their number to the count, one whose last result passed leaves 0, one without results changes nothing; a count at the threshold after a tool turn raises a tool signal; the call ends with the count after the last message. |
| `ToolResults.ToolSignalNeedsResults` | packages/session-router/src/session_router/escalation.py:145-152 | A tool signal is raised if and only if some scanned message with tool results leaves the count at the threshold. |
| `Turns.DetectsExactly` | packages/session-router/src/session_router/escalation.py:105-170 | For every history and sound scan state: the header decides first, then tool failures, then a retry text in a new last user message without tool results, cut to 500 characters; the signal carries the count at the first crossing or the pattern hit. |
| `ScanLaws.WhatIsScanned` | packages/session-router/src/session_router/escalation.py:117-140 | A header-free call looks at exactly the messages past the watermark among the last ten, or after a shrink at the last ten; a value that is no list is not looked at and keeps the watermark, with or without the header. |
| `ScanLaws.WhatIsSpent` | packages/session-router/src/session_router/escalation.py:173-179 | Consuming marks everything seen and everything up to the given count as spent, and clears the count. |
| `ScanLaws.SoundnessIsKept` | packages/session-router/src/session_router/escalation.py:117-180 | Every call and every consumed escalation keeps 0 <= escalated_at <= msg_count and a non-negative count; the window is in bounds and at most MAX_TAIL long. |
| `ScanLaws.FenceNeverDecides` | packages/session-router/src/session_router/escalation.py:155-160 | On a sound state the retry fence never changes the signal. |
| `ScanLaws.RetryFiresExactly` | packages/session-router/src/session_router/escalation.py:153-164 | A retry signal is raised if and only if the last message is a new plain user message hitting that pattern and no scanned tool turn crossed the threshold. |
| `ScanLaws.ReplayFindsNothing` | packages/session-router/src/session_router/escalation.py:128-180 | A header-free call repeated on the same history raises nothing and changes nothing, also after an escalation was consumed. |
| `ScanLaws.WindowGoesBackExactlyOnShrink` | packages/session-router/src/session_router/escalation.py:128-134 | A header-free call's window reaches below the watermark handed to it if and only if its history is not empty and shorter than that. |
| `ScanLaws.ShrinkForgets` | packages/session-router/src/session_router/escalation.py:129-133 | After a shrink, a call's outcome does not depend on the scan state it was handed. |
| `ScanLaws.ShrinkFiresExactly` | packages/session-router/src/session_router/escalation.py:129-164 | After a shrink, a tool signal is raised if and only if the last MAX_TAIL messages cross the threshold counted from zero, and a retry signal if and only if they do not and the last one hits a pattern, whatever was spent before. |
| `ScanLaws.SpentEvidenceFiresAgain` | packages/session-router/src/session_router/escalation.py:115-180 | For every threshold: a failing tool turn and one more message raise a tool signal; after that escalation is consumed the same history raises nothing, but without its last message the same failures raise the same signal again. |
| `ScanLaws.RegrownHistoryFiresAgain` | packages/session-router/src/session_router/escalation.py:115-180 | For every threshold: after a consumed signal and a call on an empty history, the very same messages raise the same signal again, in a call that does not shrink. |
| `ScanLaws.IncrementalRefinesBatch` | packages/session-router/src/session_router/escalation.py:128-170 | Chained calls on growing prefixes with gaps of at most MAX_TAIL end with the count of one unbounded scan, and some call raises a tool signal if and only if the unbounded scan has a crossing. |
| `ScanLaws.LongGapAgreesExactly` | packages/session-router/src/session_router/escalation.py:134-134 | Past MAX_TAIL, one call agrees with the unbounded count if and only if a scanned result passed or the skipped ones leave the count as it was. |
| `Evidence.LongGapSignalAgreesExactly` | packages/session-router/src/session_router/escalation.py:134-152 | Past MAX_TAIL, one call's tool signal agrees with the unbounded scan having a crossing if and only if the window crosses after its first pass, or its failing lead reaches the threshold alike from the old count and from the true one, no skipped tool turn having crossed. |
| `Evidence.OwingExactly` | packages/session-router/src/session_router/escalation.py:146-150 | A result makes up the running count if and only if it ended its message failing, or was carried in, and nothing passed after it. |
| `Evidence.EvidenceIsReported` | packages/session-router/src/session_router/escalation.py:148-152 | A tool signal reports exactly as many failures as there are results behind it. |
| `Evidence.SpentStaysSpent` | packages/session-router/src/session_router/escalation.py:113-115 | Over all later calls on any histories, as long as none is shorter than the watermark handed to it, no signal counts a message that a consumed one saw or counted. |
| `Evidence.RewindsRefineBatch` | packages/session-router/src/session_router/escalation.py:128-170 | Also with histories that go back, chained calls with steps of at most MAX_TAIL end with the unbounded count since the latest restart, and some call raises a tool signal if and only if the unbounded scan of some stretch between restarts has a crossing. |
| `Evidence.SpentEvidenceReturnsExactly` | packages/session-router/src/session_router/escalation.py:128-180 | After evidence up to message n was consumed and any such calls, a signal counts a result below n if and only if a call went back before n, and its tool turn is below n and ends failing or nothing passed from n on up to it and results below n were still counted at n. |
| `Evidence.SharedEvidenceExactly` | packages/session-router/src/session_router/escalation.py:128-152 | Two calls' tool signals, from whatever scan states, count a common result if and only if a result was carried in and kept by both, or by one and scanned by the other, or both windows hold the earlier tool turn with nothing passing in between. |
| `Evidence.CarriedEvidenceCountsTwice` | packages/session-router/src/session_router/escalation.py:128-152 | From any scan state with a count, a history and a longer one both raise a tool signal and share evidence, although their windows share no message. |
| `ScanLaws.SignalIsPaidFor` | packages/session-router/src/session_router/escalation.py:140-170 | A tool signal needs carried plus freshly scanned failures to reach the threshold, and the new count stays within the same budget. |
| `StateMachine.BuiltPinsAreWellPinned` | packages/session-router/src/session_router/state_machine.py:40-76 | Override beats classifier beats default; an answer naming no tier counts as none; the pin's tier is on the ladder with that tier's model or the default model. |
| `StateMachine.SubagentPinPosition` | packages/session-router/src/session_router/state_machine.py:100-113 | A subagent's pin is one below its pinned parent floored at the cheapest, or the parent's own tier if force-pinned, or the default tier without a pinned parent. |
| `StateMachine.EscalateDescendant` | packages/session-router/src/session_router/state_machine.py:79-97 | For any record descended from a pin the tier name is known, and escalation applies if and only if neither the cap nor the top is reached, moving exactly one tier up. |
| `StateMachine.ReanchoredEscalation` | packages/session-router/src/session_router/state_machine.py:85-97 | A record with an unknown tier escalates to just above the default tier, if cap and ladder allow. |
| `StateMachine.TurnKeepsDescent` | packages/session-router/src/session_router/hook.py:156-188 | One pinned request keeps the record a descendant of its pin, adds one escalation if and only if it applied one, and changes nothing when it skips its write. |
| `Turns.TurnEscalatesExactly` | packages/session-router/src/session_router/hook.py:160-188 | For every pin, descendant and request: the tier rises by one if and only if neither cap nor top is reached and the header is set, tool results reached the threshold, or the last message asks for a retry; the reason is the first of these; the scan state left is the one those imply. |
| `StateMachine.TierGapIsEscalationGap` | packages/session-router/src/session_router/state_machine.py:91-97 | Two descendants of one pin differ in tier exactly by the difference of their escalation counts. |
| `Store.WhatReachesTheServer` | packages/session-router/src/session_router/session_store.py:39-95 | A read or write-back is answered, or has no effect, exactly as the fates of the commands sent say: one command on new servers, a rejected one and its replacement on old ones. |
| `Store.SessionStore.GetAndRefresh` | packages/session-router/src/session_router/session_store.py:39-61 | On old and new servers alike an answered read returns the stored record and slides its deadline; any failure reads as a miss; GETEX support is given up on its first answered rejection, after which GET and EXPIRE are sent, each with a fate of its own. |
| `Store.SessionStore.ClaimForClassification` | packages/session-router/src/session_router/session_store.py:63-73 | The claim is reported won if and only if the call was answered and the key was absent; the placeholder is set only on an absent key. |
| `Store.SessionStore.WritePin` | packages/session-router/src/session_router/session_store.py:75-81 | Unless lost, the pin is stored with a fresh deadline. |
| `Store.SessionStore.Update` | packages/session-router/src/session_router/session_store.py:83-95 | Unless lost, the record is replaced with its deadline kept; a server without KEEPTTL must first answer with its rejection, and then the record is replaced with its deadline reset unless that second command is lost. |
| `Store.WriteBackAndRead` | packages/session-router/src/session_router/session_store.py:45-92 | A write-back replaces the record and keeps the sliding deadline, or resets it on servers without KEEPTTL; a read keeps the record and slides the deadline by the full ttl. |
| `Store.KeepTtlRevivesExactlyTheDead` | packages/session-router/src/session_router/session_store.py:89-89 | A command creates a key without expiry if and only if it is a KEEPTTL write to an absent key. |
| `Coupling.RunKeepsInv` | packages/session-router/src/session_router/hook.py:120-273 | In every run, with any interleaving, failures, late commands, evictions and aborts, every pinned record stored, held or pending descends from a pin built for its own key, and every request's bookkeeping is consistent. |
| `Theorems.CouplingInEveryRun` | packages/session-router/src/session_router/hook.py:156-188 | In every run every such record has tier index = pin index + escalations, with escalations within the cap and the ladder, so the unknown-tier branch is unreachable. |
| `Theorems.RoutedModelsInEveryRun` | packages/session-router/src/session_router/hook.py:120-133 | In every run every decided model is the default model or that of a tier at most max_escalations above a pin of the request's own session. |
| `Theorems.ForcedParentBoundsSubagent` | packages/session-router/src/session_router/hook.py:206-227 | In every run, a subagent that read a force-pinned parent never sits below the forced tier, after any escalations. |
| `Pins.PinsAreAsAsked` | packages/session-router/src/session_router/hook.py:194-252 | In every run, the pin a request built is the one asked for: the forced tier, its model and certainty for a path override; the tier an answer names with its confidence, or the default tier and model; one below the parent read, or level with a forced one, for a subagent; with its own hash, alias and message count, made at or after its claim. |
| `Pins.OverrideBoundsSession` | packages/session-router/src/session_router/hook.py:229-241 | In every run, no record of an overridden session stands below the forced tier, after any escalations. |
| `Pins.StepLogs` | packages/session-router/src/session_router/hook.py:163-273 | Every step logs exactly: an ESCALATED event for an applied escalation, with the models and count; for a served pin a CLASSIFIED or FALLBACK event as the classifier answered, unless overridden or a subagent, and then a PINNED event. |
| `Pins.EventsAreTrue` | packages/session-router/src/session_router/hook.py:163-273 | In every run, every event is true of a request of its session: the pin it names was built that way, and each escalation is the step above that pin which it says. |
| `Theorems.ClassifiedAtMostOnce` | packages/session-router/src/session_router/hook.py:194-250 | While a key stays present, at most one request ever wins its claim; a request that did not win it is never waiting for the classifier, has never been answered by it and has built no pin, and the winner is answered at most once. |
| `Theorems.NeverBackToClassifying` | packages/session-router/src/session_router/session_store.py:63-95 | While a key stays present, once a pinned record is stored the key holds a pinned record for ever. |
| `Theorems.OnePinPerSession` | packages/session-router/src/session_router/hook.py:194-250 | While a key stays present, all its pinned records descend from one pin. |
| `Overlap.TierFallsExactly` | packages/session-router/src/session_router/hook.py:182-188 | In every run in which the key was never lost once present, and for every next step that keeps it, the stored tier falls if and only if the step is an answered write-back, or an unanswered write landing late, whose record carries fewer escalations than the one it overwrites. |
| `Overlap.TierFallsAcrossPins` | packages/session-router/src/session_router/hook.py:156-250 | In every run, the key lost and pinned anew included, and for every next step that keeps it, the stored tier falls if and only if a record is written whose pin's position and escalations add up to less. |
| `Overlap.LostKeyRegresses` | packages/session-router/src/session_router/session_store.py:83-95 | From any state whose stored record is at least two tiers below the top and can escalate: an unanswered write-back, an eviction, a new pin at the top, and the old write landing lower the tier with a record that counts more escalations. |
| `Overlap.OverlapRegresses` | packages/session-router/src/session_router/hook.py:156-188 | From any state whose stored record can escalate, two overlapping requests raise the tier and then lower it again. |
| `Overlap.LateWriteRegresses` | packages/session-router/src/session_router/session_store.py:83-95 | From any such state, an unanswered write-back that lands after a later request has escalated lowers the tier again, with no two requests overlapping. |
| `Rescans.EvidenceFiresTwice` | packages/session-router/src/session_router/hook.py:156-188 | From any state whose stored record can escalate, two requests with the same failing history log two identical tool-failure escalations, if the first one's write-back is lost or comes after the second one's read. |
| `Rescans.CarriedEvidenceFiresTwice` | packages/session-router/src/session_router/hook.py:156-188 | From any such state whose record carries failures, two requests both escalate and count a common result although they scan no common message, if the first one's write-back is lost or comes after the second one's read. |
| `Rescans.RescannedExactly` | packages/session-router/src/session_router/escalation.py:105-134 | Two pinned reads of a session scan a common message if and only if neither has the header, their histories reach into each other's windows, and the later history is shorter than the stored watermark or that watermark does not cover what the earlier read saw. |
| `Rescans.RescannedIffShrunkOrUnwritten` | packages/session-router/src/session_router/hook.py:156-188 | In every run in which nobody else writes the session's record in between, such windows overlap if and only if the later history is shorter than the stored watermark or the earlier read's write-back has not reached the store. |
| `Rescans.ReuseNeedsAShrinkOrALostWrite` | packages/session-router/src/session_router/hook.py:156-188 | In every run, with any other writers: if the stored record is based on an earlier pinned read and no pinned read since found its history shrunk, a later one scans no message that the earlier one scanned, and if the earlier escalation was applied, counts no result that it counted. |
| `Rescans.EvidenceReusedExactly` | packages/session-router/src/session_router/hook.py:156-188 | In every run in which nobody else writes the session's record in between, the exact condition under which a later tool signal counts a result that an applied one counted, carried results included; without a shrink: the write-back has not reached the store, and both still count what they carried in or both scanned the earlier tool turn with nothing passing in between. |
| `Serial.SkippedWriteIsNoChange` | packages/session-router/src/session_router/hook.py:182-188 | The conditional write happens if and only if the record changed, so it always leaves what an unconditional write would. |
| `Serial.ReplayIsIdempotentExactly` | packages/session-router/src/session_router/hook.py:160-188 | Handling the same request again leaves the record, writes nothing and escalates nothing if and only if it carries no escalation header or nothing is left to escalate. |
| `Serial.Ratchet` | packages/session-router/src/session_router/state_machine.py:79-97 | Over any session the tier never falls, rises by at most one per turn, and its rise equals the escalations applied. |
| `Serial.EscalationsAreCapped` | packages/session-router/src/session_router/state_machine.py:83-92 | Applied escalations never exceed max_escalations (or zero) nor the room above the pin. |
| `Serial.EscalationsArePaidFor` | packages/session-router/src/session_router/escalation.py:140-180 | Threshold times tool-failure escalations plus the current count is at most the failing results scanned. |
| `Serial.PriceIsThresholdTimesCount` | packages/session-router/src/session_router/escalation.py:151-152 | The price in the previous law is the threshold times the number of tool-failure escalations. |
| `Serial.WindowsAreDisjoint` | packages/session-router/src/session_router/escalation.py:134-170 | With append-only histories no failing result is scanned twice: all failures scanned are distinct failures since the pin. |
| `Serial.EscalationsNeedDistinctFailures` | packages/session-router/src/session_router/escalation.py:105-180 | With append-only histories the amortised bound holds against the distinct failing results since the pin. |
| `Serialisation.ConcurrentSessionIsSerial` | packages/session-router/src/session_router/hook.py:120-188 | If a session's pinned requests do not overlap and its record writes succeed, its stored record, pending record and escalation events in any interleaved run are those of serving its turns one by one on its one pin. |
| `Serialisation.ConcurrentRatchet` | packages/session-router/src/session_router/hook.py:156-188 | In such runs the stored tier never falls between any two points of the run and rises by at most one per step. |
| `Serialisation.StepRatchets` | packages/session-router/src/session_router/hook.py:156-188 | The last step of any such run, whatever it is, leaves the stored tier or raises it by one. |
| `Serialisation.EscalationEventsAreCounted` | packages/session-router/src/session_router/hook.py:163-187 | In such runs the session's ESCALATED events equal its record's counter when no write is pending, and stay within the cap and the room above the pin. |
| `Serialisation.ConcurrentEscalationsArePaidFor` | packages/session-router/src/session_router/hook.py:160-187 | In such runs the amortised bound holds of the stored record: against the failing results scanned and, if the served histories are append-only, against the distinct failing results since the pin. |
| `Timed.NoImmortalKeys` | packages/session-router/src/session_router/session_store.py:39-95 | If every KEEPTTL write lands within ttl of its request's read and nothing is evicted, every key has a deadline no later than max(ttl, claim ttl) from now, in any interleaving and with any failures. |
| `Timed.ClassifiedExactlyOnce` | packages/session-router/src/session_router/session_store.py:39-95 | Without failures, with the pin due within min(claim ttl, ttl) and reads at most ttl apart, a session is claimed exactly once over a run of any length; once its claim completes it is pinned, with exactly one classifier call unless an override or a parent decided the tier. |
| `Timed.AbandonedClaimStaysExactly` | packages/session-router/src/session_router/session_store.py:45-47 | For any sequence of request times and classifier answers, an abandoned placeholder is still there, every request got the default model and none claimed, if and only if the first came before it lapsed and every later one within ttl of the one before; the first late request claims, is classified once and pins, and the session stays pinned after every later one. |
| `Timed.AbortedClaimIsAbandoned` | packages/session-router/src/session_router/session_store.py:63-70 | A request that wins its claim and raises before writing its pin leaves a placeholder with the whole claim ttl to go. |
| `Timed.UnreadClaimLapses` | packages/session-router/src/session_router/session_store.py:63-70 | Left unread, a placeholder is present after some time if and only if the claim ttl has not passed. |
| `Hook.LiteAutoRouter.MaybeLogOverride` | packages/session-router/src/session_router/hook.py:275-292 | The window and the log change exactly as the dedupe window's specification says. |
| `Hook.LiteAutoRouter.HandlePinned` | packages/session-router/src/session_router/hook.py:156-188 | The pinned path changes the store, decides and logs exactly as the specification of one uninterrupted pinned request, whether its write is answered, lost or carried out without an answer. |
| `Hook.LiteAutoRouter.HandleFirstRequest` | packages/session-router/src/session_router/hook.py:190-273 | The first-request path does so for the claim, the classifier, override and subagent branches, whatever becomes of its claim, its parent read and its pin write. |
| `Hook.LiteAutoRouter.RouteRequest` | packages/session-router/src/session_router/hook.py:79-154 | Routing one request yields exactly the specified state and response, all bypasses included, for every fate of every command sent to the store. |
| `HookLaws.UninterruptedIsServeAlone` | packages/session-router/src/session_router/hook.py:120-273 | A request taking all its protocol steps in a row has the store effect, decision and events of the hook's sequential specification, for every fate of its store calls. |
| `HookLaws.DecidedModel` | packages/session-router/src/session_router/hook.py:120-188 | The decided model is that of the pinned record read and served, or of the pin of a claim won, and it is the stored record's unless that write is lost; in all other cases it is the default model and nothing is logged. |
| `HookLaws.FirstPin` | packages/session-router/src/session_router/hook.py:190-252 | A request that wins its claim decides, and unless lost stores, the pin that its path override, the classifier's answer, or its parent's stored record asks for. |
| `HookLaws.ResponseIsDecision` | packages/session-router/src/session_router/hook.py:122-154 | A live response has the model its request decides in the protocol, a shadow response the default model; the stash tells the decided model, the key, its source and the mode. |
| `HookLaws.LiveClientGetsStoredModel` | packages/session-router/src/session_router/hook.py:120-142 | A live client whose read is answered and whose writes are not lost gets the model of the pinned record its session then holds, or the default model if it holds none. |
| `HookLaws.UnroutedResponse` | packages/session-router/src/session_router/hook.py:80-102 | Requests that are not routable, name another model, or find the router disabled are left alone; a side channel, and nothing else, gets the first tier's model; none touches the store. |
| `HookLaws.WhoseSession` | packages/session-router/src/session_router/hook.py:104-118 | A request with a parent agent header is a subagent's if those are routed; its key is extended by its agent id if it has one; a subagent is never path-overridden. |
| `HookLaws.EntriesTellTheMode` | packages/session-router/src/session_router/hook.py:163-292 | Every log entry of a run carries the router's own mode. |
| `HookLaws.ReplayOnlySlidesTheDeadline` | packages/session-router/src/session_router/hook.py:120-188 | Replaying a header-free request of a pinned session decides the same model, logs nothing and only slides the deadline. |
| `HookLaws.Erasure` | packages/session-router/src/session_router/hook.py:86-102 | Deleting all side-channel and concrete-model requests from any run changes neither the store, nor the decision events, nor the responses to the rest. |
| `HookLaws.ShadowBisimulates` | packages/session-router/src/session_router/hook.py:122-154 | Shadow and live runs over the same inputs keep equal stores, decisions and logs up to the shadow flag, while every routed shadow response is the default model. |
| `HookLaws.OverrideEventsFollowTheWindow` | packages/session-router/src/session_router/hook.py:275-292 | Over any run the router's window and override events are those of the dedupe window fed with its concrete-model requests. |
| `HookLaws.OfferNamesBoth` | packages/session-router/src/session_router/hook.py:277-281 | A pair is offered to the dedupe window if and only if the request has a session id and a non-empty model name, and is those two. |
| `Overrides.WindowIsLatest` | packages/session-router/src/session_router/hook.py:282-287 | The window is always exactly the last min(4096, total) logged pairs in order. |
| `Overrides.LoggedExactlyWhenForgotten` | packages/session-router/src/session_router/hook.py:282-292 | A pair is logged if and only if it is not among the last 4096 logged ones. |
| `Overrides.ForgottenPairIsLoggedTwice` | packages/session-router/src/session_router/hook.py:282-287 | After 4097 distinct pairs, the first one is logged a second time. |
| `Overrides.RepeatsAreFarApart` | packages/session-router/src/session_router/hook.py:282-287 | Two log entries of one pair have at least 4096 entries between them, the last 4096 of them pairwise distinct and of other pairs. |
| `DecisionLog.NothingIsLostUncounted` | packages/session-router/src/session_router/decision_log.py:48-137 | In every interleaving of emits, batches, writes, failures and requeues, submitted events are exactly written + queued + in hand + dropped, the counter counts the dropped, the bounds hold, and every written event has a row. |
| `DecisionLog.DropsOnlyWhenFull` | packages/session-router/src/session_router/decision_log.py:48-92 | After every run, a step drops an event only if the queue is full afterwards, or the event is the very first and finds no event loop. |
| `DecisionLog.FailedBatchIsKept` | packages/session-router/src/session_router/decision_log.py:83-92 | After every run, a failed write leaves the old queue followed by a prefix of the batch, which is all of it unless the queue is then full; the rest is dropped. |
| `DecisionLog.BackoffDoubles` | packages/session-router/src/session_router/decision_log.py:76-94 | After every run, the backoff is one second doubled for every failed write in a row, at most 30 seconds. |
| `DecisionLog.ExactlyOnceInOrder` | packages/session-router/src/session_router/decision_log.py:75-137 | Without failed writes every written event has exactly one row, and rows, batch and queue together are in submission order. |
| `DecisionLog.FirstEmitDecides` | packages/session-router/src/session_router/decision_log.py:52-64 | After every run the flusher runs if and only if the log is enabled and the very first event was emitted inside a running event loop; otherwise nothing has been written, and if the first emit came too early the queue holds the next QUEUE_MAX events and all others are dropped. |
| `DecisionLog.TakesMoveTheOldest` | packages/session-router/src/session_router/decision_log.py:96-108 | Collecting moves the oldest events, in order, from the queue to the batch. |
| `DecisionLog.QueueDrains` | packages/session-router/src/session_router/decision_log.py:75-94 | A started, idle flusher whose writes succeed can write out the whole queue, in order. |
| `DecisionLog.EveryRunCanFinish` | packages/session-router/src/session_router/decision_log.py:75-94 | After every run, failed writes included, a started flusher whose writes succeed from then on writes out the batch in hand and then the whole queue, in order. |
| `DecisionLog.RowsInserted` | packages/session-router/src/session_router/decision_log.py:110-137 | A successful write leaves a row for every event of the batch, a failed one for those inserted before it failed, and then counts none as written. |
| `DecisionLog.Log.Emit` | packages/session-router/src/session_router/decision_log.py:48-64 | An emit queues the event or counts it as dropped, and starts the flusher on the first emit if a loop runs. |
| `DecisionLog.Log.CollectBatch` | packages/session-router/src/session_router/decision_log.py:96-108 | A batch is a prefix of the queue of 1 to BATCH_MAX events: the first one and all that arrive before the flush interval ends, up to the maximum. |
| `DecisionLog.Log.Requeue` | packages/session-router/src/session_router/decision_log.py:87-92 | What fits goes to the back of the queue in order, the rest is counted as dropped. |
| `DecisionLog.Log.FinishRound` | packages/session-router/src/session_router/decision_log.py:81-94 | A successful write resets the backoff; a failed one requeues, sleeps the backoff and doubles it up to its limit. |

## Left out

- HTTP, FastAPI, the Redis and Postgres clients, lazy connections and JSON encoding of records: only the effect of SET NX, SET EX, SET KEEPTTL, GETEX and the batch write is kept. The constant key prefix is dropped.
- Regular-expression matching, substring matching of side channels and path overrides, header merging, lower-casing and stripping: arbitrary functions or already-normalised inputs.
- SHA-256: an arbitrary function; no claim about collisions is made.
- Policy reloads: one validated configuration per run; a reload can re-anchor a tier, which only `StateMachine.ReanchoredEscalation` speaks of.
- A session ttl that is not positive, and scan states with a negative message count: neither arises from the router's own writes and defaults.
- A truthy `messages` value that is not a list: `Escalation.Detect` covers it, the hook model takes lists only (missing and null read as empty).
- The interleaved protocol uses the atomic GETEX; another client's command between the GET and the EXPIRE that old servers get is not modelled, because both travel in one pipeline.
- In the interleaved protocol the rejected KEEPTTL and the second SET of an old server are one step, because the rejected command has no effect on the store.
- Hook.LiteAutoRouter.RouteRequest: does not model the outer handler, because exceptions raised inside the hook appear in the protocol as `Abort` at any await; an exception after the request's model was already overwritten is not modelled.
- HookLaws.Erasure: is about requests that run one after another; in the interleaved protocol the erased requests take no part, so there the statement would be empty.
- HookLaws.ShadowBisimulates: is about requests that run one after another, because the interleaved protocol has no shadow flag: it decides a model and leaves the response to the hook.
- Classifier transport, confidence clamping, repo hints, client labels, timing and rate-limited warnings; event fields that only repeat request metadata.
- Closing the decision log, task cancellation, and events lost at shutdown.
- Row order and exactly-once delivery after a failed write: a failed batch goes to the back of the queue and may be inserted twice, so the code aims at neither.
- The time that the flusher itself takes between two events of a batch: only waiting takes time.
