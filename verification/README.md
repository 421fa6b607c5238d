# WebPilot: a verified model

WebPilot runs browser tasks with language-model agents. A run is stored durably, executed by one
background worker, and carried out by a planner, an actor and a rule verifier under a retry budget
and a safety gate. This project models that machinery and proves what it keeps in every run.

## What is modelled

**The durable run protocol.** `Runs` holds the statuses and the transition table. `RunStore` states
every store operation as a function on the two tables and proves a class with mutable tables against
it, transaction by transaction. `EventLog` defines what a log replays to and which logs are legal.
`Protocol` is the interleaved system: atomic labels for API commits and notifications, the worker's
program points, stray notifications, crashes and restarts, with `durable` telling the PostgreSQL
store (which recovers interrupted runs) from the SQLite store (which does not). `ProtocolTheorems`
proves properties of all interleavings. `Worker` contains the worker and the API handlers as
programs; a ghost history shows that each of their statements is a protocol step, so the theorems
hold of them. `EventStream` is the polling cursor.

**The planned agent.** `World` is everything outside the agent: the page answers as it likes, and
cancellation may be requested at any time. `Tools` has the safety gate and the tool executor over a
trace of attempts, audit records and effects. `AgentLoop` is the single-agent step loop with
self-healing, `PlannedLoop` the outer loop with plan attempts, recovery and replanning on a state
object that validates each assignment, `RunLog` the invariants of its logs, `RunTheorems` what they
imply. `Executor` joins the agent to the protocol, and `Worker` calls it. Planner replies, actor
decisions, observations and Playwright failures are arbitrary.

**The healing ranker.** `Locator` scores signatures over real numbers, `Healing` ranks and chooses.

**The snapshot-plan normaliser.** `PlanNormalizer` and `Planner` rewrite a planner's JSON arguments,
bind the benchmark's controls and validate the result; `Verifier` evaluates it on a page.

**Decisions in words.** What the risk policy, the verification rules, the healing score, the failure
classes, the plan rewriting and the operational goals decide is also stated apart from the functions
that compute it: with the word lists written out, on strings taken apart by concatenation
(`Common.Mentions`), and on the elements of a page. `Tools.BrowserToolExecutor.Execute` names every act
of a call, and the agent loop carries that to the call that was decided.

## Facts worth knowing

- A cancel request that is recorded between the worker's last look at the flag and its closing
  transaction is lost when the worker is about to write a completion or a failure;
  `ProtocolTheorems.CancelGuarantee` shows that this is the only window, for every interleaving, and
  `ProtocolTheorems.CancelCanBeLost` gives an interleaving that reaches it. A flag set before that
  last look always cancels the run (`ProtocolTheorems.FlagSeenCancels`).
- The event stream reads events and status separately, so it can close without the terminal event
  (`EventStream.FinalEventCanBeMissed`); `EventStream.StreamEvents` says exactly when it is complete.
- Healing is independent of element order exactly when the margin is positive (or the threshold is
  above 1); without a positive margin, two equal elements are told apart by position
  (`Healing.OrderIndependenceExactly`, `Healing.MarginIsNeeded`).
- A replan is adopted exactly when the new plan has at least as many steps as the failed index,
  because the plan is assigned before the index is reset; otherwise the run leaves by a validation
  error (`PlannedLoop.PlannedBrowserAgent.AdoptPlan`; `RunTheorems.ReplanCanBeRefused` is an instance).
- Without recovery a run that ends on the wrong page reports an execution error, although its
  verification failed; `verification_failed` is reported exactly for failed assertions.
- A step whose goal is blank passes plan validation but no agent will work on it: the run leaves by
  an exception (`RunTheorems.BlankGoalIsValid`, `PlannedLoop.PlannedBrowserAgent.RunAgent`).
- An artifact write that fails right after the claim leaves the run RUNNING until a restart recovers
  it; the protocol contains this step, and its theorems hold with it.

## Model

| member | source | states |
|---|---|---|
| RunStore.RunStore.Create | webpilot/service/postgres_store.py:31-59 | Row and first event are written together, as the specified operation on the tables |
| RunStore.RunStore.Claim | webpilot/service/postgres_store.py:101-123 | Only a QUEUED run is claimed; a flagged one is cancelled instead; an unknown run raises; any other status changes nothing |
| RunStore.RunStore.Cancel | webpilot/service/postgres_store.py:125-149 | Waiting runs are cancelled at once, a RUNNING one is flagged and logged, a finished one is left alone |
| RunStore.RunStore.Park | webpilot/service/postgres_store.py:156-170 | The run waits with its request and result recorded, or the refused transition changes nothing |
| RunStore.RunStore.ApproveRun | webpilot/service/postgres_store.py:172-193 | The pending fingerprint joins the approved list once, the request is cleared and the run is queued; both error cases change nothing |
| RunStore.RunStore.Close | webpilot/service/postgres_store.py:195-210 | Only a terminal status is accepted, and only from a status that allows it |
| RunStore.RunStore.Recover | webpilot/service/postgres_store.py:212-243 | Every RUNNING run is requeued or, if flagged, cancelled; the answer is the requeued ids in creation order |
| RunStore.RunStore.ChangeStatus | webpilot/service/postgres_store.py:280-324 | The shared transition: checked against the table, with absent keyword arguments written back as read |
| RunStore.RunStore.AddEvent | webpilot/service/postgres_store.py:326-339 | The event is numbered one above the maximum and appended |
| RunStore.RecoverEffect | webpilot/service/postgres_store.py:215-242 | Recovery moves exactly the RUNNING rows, each by exactly one event, independent of the other rows |
| RunStore.QueuedInOrder | webpilot/service/postgres_store.py:93-99 | The listing holds exactly the queued runs, in the order in which they were created |
| Runs.EnteredFrom | webpilot/runs/state.py:6-34 | The transition table read backwards: from which statuses each status is entered |
| EventLog.EventSourcing | webpilot/service/postgres_store.py:101-243 | After any sequence of store operations every run's log is legal and replays to its row |
| EventLog.ApplyKeeps | webpilot/service/store.py:114-240 | Each single operation keeps that, and extends logs only at their end |
| EventLog.PendingApproval | webpilot/service/store.py:174-215 | The status is that of the last event; a request is pending while the run waits for approval, and otherwise only in a run that was waiting with this very request when it was cancelled |
| EventLog.ApproveKeeps | webpilot/service/postgres_store.py:175-180 | Approval keeps event sourcing, and its "no approval request" error cannot occur |
| EventLog.EventsAfterIsSuffix | webpilot/service/store.py:78-104 | Numbers are 1..n, so listing after a gives exactly the log from position a |
| EventLog.MaxSequenceIsLength | webpilot/service/store.py:324-351 | The maximum sequence number of a legal log is its length, so max-plus-one counts |
| EventLog.TerminalIsLast | webpilot/runs/state.py:6-28 | A terminal event is the last event of its log |
| EventLog.NoStartAfterCancelRequest | webpilot/service/store.py:114-167 | After a cancel request nothing ever starts, through approval, requeue and restart |
| EventLog.FlagMeansRequested | webpilot/service/store.py:148-166 | The cancel flag is set exactly when the log contains a cancel request |
| EventLog.StartCredit | webpilot/service/postgres_store.py:101-123 | Starts equal releases while a run is queued and exceed them by one while it runs, waits or has ended by itself |
| EventLog.OneReleaseBetweenStarts | webpilot/service/postgres_store.py:172-243 | From one start to the next, approvals and requeues outnumber the starts in between by exactly one |
| EventLog.ApprovalsGrow | webpilot/service/store.py:194-215 | Where no request repeats a fingerprint, the approved list is the requests in order, less the pending one, and counts the approvals |
| Protocol.StepKeepsInv | webpilot/service/worker.py:45-133 | Every step of API, worker, queue, crash and restart keeps event sourcing, wake-ups, ownership and the count of starts, and only extends logs |
| Protocol.ClosingWrites | webpilot/service/worker.py:111-133 | On a RUNNING row each closing branch is one accepted write, with the row, event and payload named |
| Protocol.ClosingMeaning | webpilot/service/worker.py:97-133 | How a claimed run ends for each outcome: CANCELLED when the flag was seen or so reported; FAILED when the executor raised, names no approval or reports anything else; otherwise as reported, with request and result kept |
| ProtocolTheorems.NoRunIsForgotten | webpilot/service/api.py:91-147 | In every reachable state a queued run is named in the queue, held by the worker or a handler, or about to be listed; an idle, empty system has none |
| ProtocolTheorems.RowsAreEventSourced | webpilot/service/store.py:270-351 | In every reachable state each row is what its log replays to |
| ProtocolTheorems.ClosingNeverRaises | webpilot/service/worker.py:111-133 | Whatever the API does meanwhile, the worker's closing transaction succeeds |
| ProtocolTheorems.ExecutedOncePerAdmission | webpilot/service/worker.py:91-101 | Executor calls plus claims that never reached it equal the started events, which creation, approvals and requeues pay for |
| ProtocolTheorems.CancelGuarantee | webpilot/service/worker.py:111-133 | For a flagged run that has not ended: no continuation completes or fails it if and only if it is not already being closed with the flag unseen |
| ProtocolTheorems.StaysBound | webpilot/service/worker.py:45-133 | A run bound to cancellation stays bound through every interleaving, parked, approved, requeued or restarted |
| ProtocolTheorems.LateCancelIsLost | webpilot/service/worker.py:111-133 | In that window the next closing step does complete or fail the run |
| ProtocolTheorems.CancelCanBeLost | webpilot/service/worker.py:111-133 | The window is reached: an interleaving from the empty system in which the flag is recorded and the run completes |
| ProtocolTheorems.FlagSeenCancels | webpilot/service/worker.py:111-114 | A flagged run is RUNNING or CANCELLED in every continuation, whatever API calls, crashes and restarts it contains, if and only if the worker has not read the flag as unset |
| ProtocolTheorems.StaysSealed | webpilot/service/worker.py:91-133 | A flag set before the last read stays decisive through every interleaving |
| ProtocolTheorems.FlagBeforeLastReadSeals | webpilot/service/worker.py:91-111 | A flag set at any time between claim and last read is such a flag |
| ProtocolTheorems.SealedRunIsClosedCancelled | webpilot/service/worker.py:111-114 | In every continuation the closing transaction of such a run cancels it |
| ProtocolTheorems.SealedRunEndsCancelled | webpilot/service/worker.py:91-133 | Once a worker that had such a run lets go of it, without a crash and with the request artifact written, the run is CANCELLED |
| ProtocolTheorems.StepMovesRow | webpilot/service/store.py:114-322 | Every way in which a step of the system can change the row of an existing run |
| ProtocolTheorems.ApprovalMakesProgress | webpilot/service/store.py:174-215 | With honest executors no fingerprint is requested twice, the approved list has no duplicates and one entry an approval, and a run with K risky fingerprints pauses at most K times |
| ProtocolTheorems.WorkerDrains | webpilot/service/worker.py:73-133 | Every step of the worker uses up a measure |
| ProtocolTheorems.WorkerRunIsBounded | webpilot/service/worker.py:45-133 | Alone, the worker takes at most as many steps as the measure says, and then rests |
| ProtocolTheorems.DrainedMeansServed | webpilot/service/worker.py:45-92 | At rest, with no handler outstanding, nothing is queued |
| Worker.ExplainedIsReached | webpilot/service/worker.py:45-133 | The program state is the protocol state after the recorded history, whose executor answers all respect their records |
| Worker.RunService.Start | webpilot/service/worker.py:45-54 | Recovery, listing and notification, with API activity in between, leave every queued run with a wake-up |
| Worker.RunService.ConsumeOne | webpilot/service/worker.py:73-89 | One turn of the loop takes the first notification and returns to idle, whatever was raised |
| Worker.RunService.TryClaim | webpilot/service/worker.py:91-95 | A request artifact that cannot be written leaves the claimed run RUNNING, its executor uncalled, and raises |
| Worker.RunService.ExecuteOne | webpilot/service/worker.py:91-142 | Three errors can reach the loop: an unknown run, which changes nothing; the request artifact, which leaves the run RUNNING; the result artifacts, after the run has been closed |
| Worker.RunService.Conclude | webpilot/service/worker.py:111-133 | The closing branches perform the protocol's closing step, cannot be refused, and leave the run not RUNNING |
| Worker.RunService.CallExecutor | webpilot/service/worker.py:97-109 | The executor works on the claimed record while the API stays active |
| Worker.RunService.ApprovalsMakeProgress | webpilot/service/executor.py:61-188 | With the real executor behind the worker the approval guarantee holds without assumptions |
| Worker.RunService.CommitApprove | webpilot/service/api.py:138-147 | The approval is committed before the notification is owed |
| Worker.RunService.Crash | webpilot/service/queue.py:25-111 | A crash may lose notifications and handlers, nothing else |
| EventStream.StreamEvents | webpilot/service/api.py:115-126 | What was sent is exactly the log after the cursor as far as last listed; at a close by itself it is complete if and only if nothing new fell between the last two reads |
| EventStream.EmitNew | webpilot/service/api.py:119-123 | The cursor neither skips, repeats nor reorders |
| EventStream.ReadsFormChain | webpilot/service/api.py:115-126 | The reads of any client in any interleaving are polls of this kind: each lists exactly what was written by then and reads exactly the row's status |
| EventStream.LogOnlyGrows | webpilot/service/store.py:324-351 | A run's log at an earlier moment is a prefix of its log at any later one |
| EventStream.FinalEventCanBeMissed | webpilot/service/api.py:115-126 | A concrete log and poll for which the stream closes without the terminal event |
| Locator.ScoreSignatures | webpilot/browser/locator.py:410-666 | The accumulated score is the weighted mean over the fields the old signature has; reasons are the fields with positive similarity |
| Locator.ScoreRange | webpilot/browser/locator.py:640-666 | The mean lies in [0,1], so the clamp does nothing, and is 1 exactly when some field is present and all present ones match fully |
| Locator.ScoreMonotone | webpilot/browser/locator.py:410-666 | Matching every present field at least as well scores at least as high |
| Locator.AbsentFieldsIgnored | webpilot/browser/locator.py:410-666 | Fields the old signature lacks play no part |
| Locator.AcceptedMatchesRoleOrName | webpilot/browser/locator.py:410-666 | With all eight fields and threshold 0.55, an accepted element has the same role or name similarity at least 1/3 |
| Locator.ScoreMeaning | webpilot/browser/locator.py:410-666 | The score written out: the eight weights of the lost element's non-blank fields, each counted as far as the same field of the found element is like it, over their sum |
| Locator.FullScoreMeaning | webpilot/browser/locator.py:640-666 | The score is 1 exactly when there is something to compare and the found element matches every field the lost one has |
| Locator.NewFieldsPlayNoPart | webpilot/browser/locator.py:410-666 | Found elements that differ only in fields the lost one lacks score alike |
| Locator.SimilarityMeaning | webpilot/browser/locator.py:169-197 | Similarity is in [0,1] and is 1 exactly when the normalised keys agree and are not blank |
| Locator.KeyMeaning | webpilot/browser/locator.py:125-166 | Two texts have one key exactly when they are normalised alike, or both say "log in", or both say "log out", in one of the listed words |
| Locator.NormalizeKeeps | webpilot/browser/locator.py:108-122 | Normalising keeps everything but blanks, in order and in lower case |
| Healing.RankCandidates | webpilot/browser/locator.py:672-718 | The ranking is the stable descending sort of the candidates, each captured element scored against the lost one |
| Healing.Heal | webpilot/browser/locator.py:724-789 | The program returns the specified outcome, errors included; `HealedElementMeaning` and `NotFoundMeaning` say what it is over the captured elements |
| Healing.HealMeaning | webpilot/browser/locator.py:724-789 | Without reference to ranking: not found exactly when no candidate reaches the threshold; success names one that beats every other by the margin, and with positive margin occurs exactly when there is one |
| Healing.NotFoundMeaning | webpilot/browser/locator.py:731-744 | Over the captured elements: not found exactly when each of them is below the threshold in likeness to the lost one |
| Healing.LikenessFacts | webpilot/browser/locator.py:410-666 | Likeness is 1 exactly on a full match of the lost element's fields, and 0.55 with all eight fields needs the role or a third of the name |
| Healing.HealedElementMeaning | webpilot/browser/locator.py:724-789 | A success names a captured element that reaches the threshold against the lost one; it has the lost one's role or a third of its name when all eight fields were there and the threshold is at least 0.55; its score is 1 exactly when it matches every field the lost one had |
| Healing.StableSortSorts | webpilot/browser/locator.py:712-718 | The sort is a descending permutation |
| Healing.CandidatesPermute | webpilot/browser/locator.py:672-711 | Permuted elements give permuted candidates |
| Healing.RankingsAgree | webpilot/browser/locator.py:712-718 | Two rankings of the same candidates carry the same scores in the same places |
| Healing.HealIsOrderIndependent | webpilot/browser/locator.py:724-789 | With a positive margin the outcome is the same for every order of the elements |
| Healing.MarginIsNeeded | webpilot/browser/locator.py:745-789 | Without one there are two orders with different outcomes |
| Healing.OrderIndependenceExactly | webpilot/browser/locator.py:724-789 | Order independence holds if and only if the margin is positive or the threshold exceeds 1 |
| PlanNormalizer.NormalizedShape | webpilot/agents/planner.py:264-309 | Same steps, everything but criteria kept, each criteria list the pointwise rewrite followed by controls, at most five in all, and no model-emitted element rule survives |
| PlanNormalizer.RewriteIdempotent | webpilot/agents/planner.py:283-355 | The two rewriting passes change nothing when applied again |
| PlanNormalizer.BindAllExtends | webpilot/agents/planner.py:371-409 | Binding only appends applicable controls |
| PlanNormalizer.ControlIsBound | webpilot/agents/planner.py:393-409 | Every applicable control ends in the first step that names it, if that step has a criteria list |
| PlanNormalizer.BindingKeepsNames | webpilot/agents/planner.py:396-404 | Binding never changes which step a later control belongs to |
| Planner.StripPass | webpilot/agents/planner.py:282-303 | The first in-place pass computes its pointwise rewriting, or raises exactly on an unhashable rule |
| Planner.RepairPass | webpilot/agents/planner.py:312-355 | The second pass computes its pointwise rewriting; `NormalizedCriterion` says what becomes of each criterion |
| Planner.BindPass | webpilot/agents/planner.py:371-409 | The third pass computes the binding |
| Planner.NormalizeSnapshotPlan | webpilot/agents/planner.py:264-309 | The three passes together, errors and unusable arguments included; `NormalizedCriterion` and `NormalizeRaises` say what they do |
| Planner.NormalizedCriterion | webpilot/agents/planner.py:264-355 | In a step whose goal names catalog, orders or profile, a URL text that starts with "/" and is not in the page's URL becomes that tab's label as visible text; an element rule becomes visible text with its own expected text; everything else, routes that are there included, stays as it is |
| Planner.RewritingMeaning | webpilot/agents/planner.py:288-355 | That is so of each single criterion |
| Planner.NormalizeRaises | webpilot/agents/planner.py:288-303 | Normalising raises exactly when the rule of some criterion is a list or an object |
| Planner.SnapshotControls | webpilot/agents/planner.py:371-409 | The five controls, literally: each target is a criterion with this rule, role and name in the first step whose goal mentions its word |
| Planner.CriterionAccepted | webpilot/agents/planner.py:51-98 | Which full criteria pass validation, by rule, role and expected text |
| Planner.TextCriteria | webpilot/agents/planner.py:51-98 | A text criterion without a control is parsed as it was written |
| Planner.StepMeaning | webpilot/agents/planner.py:101-150 | An accepted step has the id of its place and the goal and risk that were written, L0 by default |
| Planner.ElementRulesAreControls | webpilot/agents/planner.py:288-303 | In a validated snapshot plan every element rule is one of the framework's controls |
| Planner.AcceptedIsSnapshotPlan | webpilot/agents/planner.py:264-309 | The element rules of an accepted snapshot plan are framework controls, and every applicable control is there, in the first step that names it |
| Planner.MakePlan | webpilot/agents/planner.py:462-596 | A returned plan is valid and comes from the first usable reply; a live page makes it a snapshot plan |
| Verifier.Verify | webpilot/verifier/rules.py:48-143 | One truthful piece of evidence a criterion, in order; PASS exactly when there are criteria and all hold |
| Verifier.Check | webpilot/verifier/rules.py:146-314 | A rule check passes exactly when its criterion holds of the page; expected "true" exactly when some fitting element is checked, "false" exactly when one is unchecked |
| Verifier.TextVerdicts | webpilot/verifier/rules.py:146-193 | A URL or text rule passes exactly when the page's URL or text has the expected text in it |
| Verifier.ElementVerdicts | webpilot/verifier/rules.py:195-294 | A text or value rule passes exactly when some element of the given role and name has that stripped text or that value |
| Verifier.CheckedVerdicts | webpilot/verifier/rules.py:296-314 | "true" passes exactly when some fitting element is checked, "false" exactly when one is unchecked |
| Verifier.TurnedBoxTurnsVerdict | webpilot/verifier/rules.py:296-314 | Turning the only fitting box over turns the verdict over |
| Verifier.MatchingElements | webpilot/verifier/rules.py:263-275 | Exactly the elements that match role and name, where given |
| Browser.ResolvedRefIsStripped | webpilot/browser/observation.py:501-509 | A ref that resolves has no surrounding blanks, so gate and tool look at the same element |
| Browser.RefsAreDistinct | webpilot/browser/observation.py:501-509 | No two elements of an observation have the same ref |
| Browser.RefResolves | webpilot/browser/observation.py:501-509 | The ref of each element resolves to that element |
| Recovery.WrongPageMeansUrlFailed | webpilot/recovery/classifier.py:111-128 | A failed verification is blamed on the page exactly when a URL criterion does not hold |
| Recovery.ClassifyException | webpilot/recovery/classifier.py:12-95 | An exception is never classified as a verification failure, and is forbidden exactly when the text says so |
| Recovery.MessageMeaning | webpilot/recovery/classifier.py:12-95 | The class of an exception in literal words: forbidden, then a lost element (or a KeyError about one), a hidden one, a changed page, a timeout by text or class name; nothing else is known |
| Recovery.DecisionMeaning | webpilot/recovery/policy.py:12-103 | For which failures each action is chosen, and that exactly the actions other than stopping cost a retry |
| Recovery.RetryBudget.Consume | webpilot/recovery/models.py:73-82 | One retry is used, or the exhausted budget raises and stays |
| Tools.SafetyGate.Authorize | webpilot/safety/gate.py:54-112 | An unknown ref raises and leaves no record; otherwise the decision on this call's target is recorded, and an unapproved click is refused exactly when name or role mentions one of the trade or destruction words, an unapproved fill when they mention a credential word, looking, opening and choosing never; a refusal asks for the approval of this very tool and target |
| Tools.RefusalInWords | webpilot/safety/policy.py:45-80 | Refusals by the policy in words, for every tool, target and set of approvals |
| Tools.ClickRisk | webpilot/safety/policy.py:69-79 | A click is L3 exactly when name or role mentions one of the listed words in any letter case, else L1 |
| Tools.FillRisk | webpilot/safety/policy.py:60-66 | A fill is L3 exactly when name and role mention one of the listed credential words, else L1 |
| Tools.ClicksAreApproved | webpilot/safety/gate.py:61-112 | Every click in a trace is on a visible, enabled control of a clickable role, and one that mentions a listed word was approved |
| Tools.FillsAreApproved | webpilot/safety/gate.py:61-112 | Every fill is on a visible, enabled text box, and one that asks for credentials was approved |
| Tools.SafetyGate.FindTarget | webpilot/safety/gate.py:114-134 | The target is the URL, the element the ref resolves to, or nothing in particular when there is no ref; an unknown ref raises |
| Tools.ApprovalIsHonoured | webpilot/safety/gate.py:74-94 | Once the requested fingerprint is approved, the same tool on the same target is let through, whatever ref it has then |
| Tools.BrowserToolExecutor.Execute | webpilot/browser/tools.py:177-207 | The acts of a call, all of them: the attempt, the record of exactly this tool on what its ref resolves to, and then at most one effect, which on success is the requested one on that very element (or the stripped URL); a call that needs approval has none |
| Tools.BrowserToolExecutor.ActOnElement | webpilot/browser/tools.py:224-309 | The effect is on the visible, enabled element of fitting role that the audit record names |
| Tools.EveryEffectIsAuthorised | webpilot/safety/gate.py:61-112 | Every effect of a trace directly follows its own ALLOW record, harmless or approved, for the same tool and element |
| Tools.AuditsAreNumbered | webpilot/safety/gate.py:147-153 | Audit records are numbered 1..n |
| AgentLoop.SingleBrowserAgent.Act | webpilot/agents/loop.py:226-313 | The acts are those of exactly the decided call, then those of at most one healed repetition, only after a tool failure; the record names the decided call and has a healed success, the original error, or an approval request that is never healed |
| AgentLoop.SingleBrowserAgent.RetryHealed | webpilot/agents/loop.py:248-265 | The repetition is the same call with the ref that healing chose on the page now observed, and is reported exactly when it succeeded; a reported healing reached the threshold |
| AgentLoop.SingleBrowserAgent.Turn | webpilot/agents/loop.py:169-338 | A turn adds one record, of the call that was decided, and goes on only from a page that does not meet the completion check; it completes when the actor is done or the page meets the check |
| AgentLoop.SingleBrowserAgent.ActAndLook | webpilot/agents/loop.py:226-338 | A completion after an action is a fresh page that meets the check; otherwise the run goes on or ends in the tool error |
| AgentLoop.SingleBrowserAgent.Run | webpilot/agents/loop.py:126-351 | Records are the decided calls, in order and numbered within the limit, and only the last can have failed; a run completes only when the actor is done or the final page meets the check, and gives up on no page that does; step exhaustion uses every step; no action owed is skipped; at most two calls a step and, after cancellation, one decided and one healed |
| RunLog.ConfirmedStep | webpilot/agents/planned_loop.py:383-405 | Recording the verdict on a step keeps the verification log: passes in order, then at most one failure |
| RunLog.RetriedStep | webpilot/agents/planned_loop.py:443-480 | A retry is paid for, and goes back to the failed step |
| RunLog.ReplanScheduled | webpilot/agents/planned_loop.py:482-490 | A replan is recorded only for an attempt that ended in a failed verification |
| RunLog.ReplannedRun | webpilot/agents/planned_loop.py:518-529 | A new plan starts a new numbered attempt with nothing done and all earlier records kept |
| RunLog.OperationMeaning | webpilot/agents/planned_loop.py:409-421 | A step owes an action exactly when its goal mentions one of the listed words, in any letter case |
| PlannedLoop.Day4RunState.AssignPlan | webpilot/graph/state.py:108-164 | A plan is accepted exactly when the current index fits it |
| PlannedLoop.PlannedBrowserAgent.Preverify | webpilot/agents/planned_loop.py:299-322 | A step that owes no action is skipped exactly when the fresh page already meets its criteria |
| PlannedLoop.PlannedBrowserAgent.RunAgent | webpilot/agents/planned_loop.py:323-347 | The agent works on this step's goal and, with the verifier on, its criteria: it completes when the actor is done or they hold, and gives up only where they do not; its run and actions are recorded; an owed action is enforced; a blank goal raises |
| PlannedLoop.PlannedBrowserAgent.ExecutionFailure | webpilot/agents/planned_loop.py:349-378 | The failure of an agent run has the tool error as its message and the class of that text, is never a verification failure, and carries an approval request or a cancellation along |
| PlannedLoop.PlannedBrowserAgent.Judge | webpilot/agents/planned_loop.py:349-405 | The step is confirmed exactly when the agent completed and, with the verifier on, every criterion holds on its final page |
| PlannedLoop.PlannedBrowserAgent.RunPlanAttempt | webpilot/agents/planned_loop.py:288-407 | Completed means every step confirmed; a failure names the current step and is shown by the logs |
| PlannedLoop.PlannedBrowserAgent.ApplyRecovery | webpilot/agents/planned_loop.py:423-492 | Each action is recorded and leaves the logs ready for the retry, the replan or the stop; only a fresh observation can raise |
| PlannedLoop.PlannedBrowserAgent.AdoptPlan | webpilot/agents/planned_loop.py:518-529 | A new plan is adopted if and only if it has at least as many steps as the failed index, and then starts at index 0 as the last of the history |
| PlannedLoop.PlannedBrowserAgent.Exit | webpilot/agents/planned_loop.py:216-255 | Cancellation comes before approval, approval before recovery being off |
| PlannedLoop.PlannedBrowserAgent.Turn | webpilot/agents/planned_loop.py:198-286 | Another turn of the outer loop costs a retry that was left |
| PlannedLoop.PlannedBrowserAgent.OpenTarget | webpilot/agents/planned_loop.py:142-163 | When there is a first page, the stripped target URL has been opened, in one call and right after its own audit record |
| PlannedLoop.PlannedBrowserAgent.Run | webpilot/agents/planned_loop.py:130-286 | Every run ends, with logs as its status says, calls bounded by its step runs, and at most one decided and one healed call after cancellation |
| RunTheorems.PassedMeansShown | webpilot/agents/planned_loop.py:296-407 | A passed verified run has one entry a step, in order, with passing evidence for every criterion of the final plan |
| RunTheorems.PassedShowsControls | webpilot/agents/planner.py:371-409 | Every applicable benchmark control has passing evidence in the step that names it first |
| RunTheorems.StepRunsAreBounded | webpilot/agents/planned_loop.py:195-286 | With plans of at most n steps there are at most max_retries + 1 plans and n * (max_retries + 1) step runs |
| RunTheorems.RetriesAreSpent | webpilot/agents/planned_loop.py:257-286 | Replans and step retries together are exactly the retries used |
| RunTheorems.ReplansAnswerVerifications | webpilot/recovery/policy.py:82-97 | Every attempt that was given up ended in the failed verification its successor records; without the verifier there is no replan |
| RunTheorems.GivingUp | webpilot/recovery/policy.py:12-103 | Recovery stops exactly when the last failure is forbidden or unknown or finds the budget used up; every earlier failure was retried |
| RunTheorems.ThirdStepFailedIsSound | webpilot/agents/planned_loop.py:257-286 | Concrete logs of a run whose third step failed its verification and is to be replanned |
| RunTheorems.ReplanCanBeRefused | webpilot/graph/state.py:158-164 | In that run a plan of one step is refused at index 2 |
| RunTheorems.BlankGoalIsValid | webpilot/agents/planner.py:101-150 | A plan whose goal is one blank passes validation |
| Executor.WebPilotRunExecutor.Execute | webpilot/service/executor.py:37-197 | No approval is requested that the record holds; COMPLETED means a passed run; a run cancelled beforehand touches nothing; all effects are authorised |
| Executor.WebPilotRunExecutor.ExecutePlanned | webpilot/service/executor.py:129-197 | The four reported statuses, each exactly for its workflow statuses; an approval is reported exactly with the status that needs it; execution and verification errors are reported only without recovery, exhausted recovery only with it |
| Executor.WebPilotRunExecutor.ExecuteSingle | webpilot/service/executor.py:80-127 | A run without a plan completes exactly when the last decision of the actor was that it is done; an approval request is a failure |
| Executor.WebPilotRunExecutor.Prepare | webpilot/service/executor.py:61-79 | The agent works under the record's approvals, and heals unless the variant says not to |
| Executor.CompletedMeansVerified | webpilot/service/executor.py:129-197 | A COMPLETED planned run with its verifier on has passing evidence for every criterion of every step of a plan that holds the benchmark's controls, within the retry budget |

## Left out

- Browser, DOM extraction and Playwright: an observation is arbitrary data with refs e1, e2, ...; a tool call may fail after its effect was requested.
- Language-model adapter, prompts and the tool schema sent to the model: planner replies and actor decisions are arbitrary.
- SQL, Redis, threads and clocks: a transaction is one atomic step; timestamps, durations and database or queue failures are not modelled, except that a crash may lose notifications.
- Artifact writes inside the executor other than the workflow document, traces, screenshots, redaction, reports and the console.
- Fingerprint hashing is injective by construction, and an approval's JSON survives its trip through the error text; `SequenceMatcher` is any ratio in [0,1] that is 1 exactly on equal strings.
- Scores are real numbers, so floating-point rounding in scores, threshold and margin is not covered.
- Lower-casing, case folding and blanks are those of ASCII.
- URL validation in `open_url` is an arbitrary verdict; failure messages of the verifier and of tools are arbitrary text.
- The benchmark state line in the goal is taken as parsed; Python's `str` on JSON values is arbitrary except on strings.
- Aliasing inside the planner's JSON: the passes rewrite a copied value, so an object that occurs twice is not shared.
- Observation summaries, tool descriptions in histories and the semantic target of an action record.
- An agent without a gate or without a cancellation check: the executor always supplies both.
- Several workers at once: exclusivity needs a single live worker, which the protocol has.
- The worker's `stop`, and the queue's connection handling; `wait_for_idle` is represented by the active count only.
- AgentLoop.SingleBrowserAgent.Act: when the healed repetition itself asks for approval, the code drops that request and reports the original error, and so does the model.
- PlannedLoop.Day4RunState.AssignPlan: leaves the plan as it was when refused; what a refused assignment leaves in the state object, which is abandoned at once, is not modelled.
- Worker.RunService.CommitCreate: takes a run id that is not in use, because ids are random UUIDs.
- EventStream.StreamEvents: the endless polling loop is bounded by the polls of its client.
- Worker.RunService.ConsumeOne: states one turn; the endless loop is any sequence of turns.
- Worker.RunService.CallExecutor: the cancel flag inside an execution may be set at any time, independently of the API activity recorded beside it; a flag set before is seen.
- ProtocolTheorems.DrainedMeansServed: does not say that a run left RUNNING by a crash of the SQLite store is ever resumed, because that store has no recovery.
- EventLog.EventSourcing: the result document of a row is not part of what a log replays to, because events do not carry it.
