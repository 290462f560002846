# bb-auth: a verified model of the session daemon

bb-auth is one daemon that collects authentication requests from polkit, from keyring prompters and from pinentry
processes, shows them through whichever UI provider is currently elected, and carries the user's answers back. This
project models the daemon's session core, the two peers that follow its protocol (the fallback UI client and the
pinentry process), and the small algorithms underneath (framing, percent coding, launch back-off, text normalisation),
and proves what the parts promise together.

## How the model is built

*Specification.* The daemon's shared state is one value, `AgentCore.Core`: the session store, the provider registry, the
event queue, the launcher, the subscribers, and histories of everything routed, sent, answered and launched. Every
change a handler may ask of it is one `Op`; a handler's effect is its own new tables and a list of `Op`s
(`Daemons.EffectOf`), and `Daemons.Handle` applies them. `Daemons.Run` is a whole run: any sequence of inputs, each with
its own clocks, connected sockets, fresh ids, hash orders and launch circumstances (`Environments.Env`). Invariants are
proved once per `Op` and once per manager table, and hold over every run (`TableAgreement.RunKeeps`).

*Objects.* The code's classes are classes here too, with the same fields updated in place: `Sessions.Session`,
`SessionStores.SessionStore`, `ProviderRegistries.ProviderRegistry`, `EventQueues.EventQueue`,
`ProviderLaunchers.ProviderLauncher`, `Agents.Agent`, `KeyringHandlers.KeyringManager`,
`PinentryHandlers.PinentryManager`, `PolkitHandlers.PolkitListener`, `AgentHandlers.AuthAgent`,
`FallbackClients.FallbackClient`, `PinentryClients.PinentrySession`, `Framing.LineBuffer`. Each method states its whole
new state as the specification function applied to the old one, so the theorems about the specification are theorems
about the objects.

*What comes out.* For each part of the state that somebody outside can observe there is a second description, written
from the input and the state before with every message, event and field spelled out, and a theorem that the step agrees
with it: `Announcements.StepShows` (sessions and routed events), `Replies.SenderIsTold`, `SecretRouting.OffersAreLogged`
(answers to requesters), `PolkitSteps.PolkitSecrets`, `PolkitResults` and `StepRequests`, `ManagerTables.StepFlows` and
`StepKeyring`, `Registrations.StepProviders`, `Launches.LaunchesExactlyWhenNeeded`.

*Peers.* `FallbackClients.ClientOf` folds the messages sent to a socket into the fallback client's beliefs;
`Mirrors.MirrorOf` folds its session events into a picture of the store; `PinentryWorld.dfy` interleaves one pinentry
process with the daemon and everybody else.

## Files

| file | content |
|---|---|
| `Base`, `Environment` | names, sequences; what a step reads from outside |
| `Session`, `SessionStore` | sessions and their events; the store |
| `ProviderRegistry`, `EventQueue`, `ProviderLauncher` | election, `next` queue, fallback launches |
| `AgentCore`, `KeyringManager`, `PinentryManager`, `PolkitListener`, `Daemon` | the specification |
| `CoreInvariants`, `TableAgreement`, `CoreFrames`, `Reachable` | the invariant over every run |
| `HandlerCalls` | which agent calls the handlers make |
| `Bulletins`, `Announcements`, `Replies`, `ManagerTables`, `PolkitSteps`, `Registrations`, `Launches` | every input, exactly: sessions and events, replies, tables, polkit, providers, launches |
| `StepOutcome`, `SessionTheorems`, `ManagerTheorems`, `SecretRouting`, `Prompts`, `Attendance` | what follows for sessions, owners, answers, prompts and attendance, over steps and runs |
| `FallbackClient`, `Deliveries`, `Authority`, `AuthorityRuns`, `Mirror`, `MirrorRuns` | what UIs can infer |
| `PinentryClient`, `Composition`, `PinentryWorld`, `PinentryConversation`, `PinentryAnswers` | the pinentry process, alone and with the daemon |
| `EnvironmentExamples`, `Failures` | circumstances that can be met, and runs in which properties fail |
| `AgentSteps`, `Agent`, `KeyringHandlers`, `PinentryHandlers`, `PolkitHandlers`, `AgentHandlers` | the daemon as objects |
| `Framing`, `AssuanCodec`, `TextNormalize` | the small algorithms |

## Four properties the code does not have unconditionally

- A keyring request that reuses the cookie of a live session drops the pending entry under that cookie, whoever made it
  (src/core/managers/KeyringManager.cpp:32, 51-52). If the session was a keyring session, it stays in the store and no
  keyring request can answer it. `SessionTheorems.KeyringExactIff` shows this is the only way: the pending table lists
  exactly the live keyring sessions after a run if and only if no request of the run reused a pending cookie in this way.
  `Failures.ReusedCookieStrands` is such a run.
- A pinentry request that names a live polkit or keyring session takes the "session exists" branch
  (src/core/managers/PinentryManager.cpp:77, 120-122) and enters the owner table without a pinentry session.
  `ManagerTheorems.PinentryExactStep` shows that a step makes the owner table and the live pinentry sessions differ if
  and only if it is such a request. `Failures.ForeignCookieOwned` is such a run.
- A registration or a heartbeat causes an election but never calls for the fallback UI (src/core/Agent.cpp:244-268). If
  every provider, its sender included, is disconnected or stale by the time of that election, live sessions are left
  unattended until the maintenance timer fires. `Attendance.UnattendedWithoutACallIff` shows this is the only way, and
  `Failures.LateHeartbeatOverlooked` that it happens in every attended state.
- A pinentry request under the cookie of a pending keyring request replaces the prompt on the screen
  (src/core/managers/PinentryManager.cpp:119-124), while the answer still goes to the keyring request.
  `Prompts.KeyringPromptStep` shows that a step makes a pending keyring request and its prompt differ if and only if it is
  such a request with another prompt; `Prompts.PromptOverwritten` is such a run. Pinentry requests cannot be treated so
  (`Prompts.PendingPromptIsShown`).

## Where code and documentation differ

`finalizeOnStreamClose` and `BYE` have a branch that reports "cancelled" for a flow that is not awaiting an outcome
(src/modes/pinentry.cpp:133-139, 201-208). At every command boundary a held cookie is also awaiting
(`PinentryClients.EveryFlowEndsOnce`), so that branch never runs, and a pinentry process never reports "cancelled".

## Model

| member | source | states |
|---|---|---|
| `TableAgreement.RunKeeps` | src/core/Agent.cpp:166-383 | Over every run: one elected provider or an empty registry, a bounded ordered queue, events that tell the story of the store, back-offs respected, and the keyring, pinentry and polkit tables each in agreement with the store |
| `TableAgreement.HandleKeeps` | src/core/Agent.cpp:166-383 | Every handler, timer and polkit signal keeps that invariant, whatever the clocks, hash orders, fresh ids and connected sockets |
| `CoreInvariants.OpKeeps` | src/core/Agent.cpp:427-568 | Every single agent call keeps the agent's own part of it |
| `Reachable.EventsTellTheStore` | src/core/Agent.cpp:427-527 | For every id, the routed events read (created updated* closed)*; creations minus closings is 1 if the id is in the store and 0 otherwise |
| `Reachable.OneProviderMayAnswer` | src/core/agent/ProviderRegistry.cpp:72-125 | A non-empty registry always authorises exactly one socket, and that provider is maximal in priority and heartbeat |
| `Reachable.NextIsInOrder` | src/core/agent/EventQueue.cpp:15-32 | Callers of `next` get genuine events in routed order, each at most once, and an event is skipped only after 256 newer ones |
| `Reachable.LaunchesAreSpaced` | src/core/Agent.cpp:585-613 | Successful launches are at least 5000 ms apart; k >= 5 consecutive failures of one candidate span at least 7500 + 5000(k - 5) ms |
| `StepOutcome.StepOpensAndCloses` | src/core/Agent.cpp:436-527 | Each step opens and closes exactly the sessions a table of causes says, each closed once with the stated result; every other session stays live under its source |
| `Announcements.StepShows` | src/core/Agent.cpp:436-527 | After every input, every field of every session and every routed event, word for word |
| `Bulletins.SnapshotShows` | src/core/Agent.cpp:202-226 | The snapshot introduces each live session in turn, with the details of its source, and shows how it stands |
| `Replies.SenderIsTold` | src/core/Agent.cpp:187-385 | The last message a connected peer is sent in the step that handles its input is the reply to it: refusal, error or acknowledgement as the code words it |
| `Replies.RegistrationTold` | src/core/Agent.cpp:244-255 | A registering provider is told its id, its priority and whether it won, and then who is in charge if that changed or is itself |
| `ManagerTables.StepFlows` | src/core/managers/PinentryManager.cpp:57-360 | After every input, which pinentry requests are pending or awaiting, with what content, who owns them, which were reported for retry, and which counts are remembered for which key |
| `ManagerTables.StepKeyring` | src/core/managers/KeyringManager.cpp:11-114 | After every input, which keyring requests are pending, with what content |
| `Registrations.StepProviders` | src/core/agent/ProviderRegistry.cpp:22-105 | After every input, who is registered, under which name, kind, priority and last sign of life, and whether an election was held: also when the last session closes |
| `Registrations.StepWinner` | src/core/agent/ProviderRegistry.cpp:72-105 | The provider in charge after a step comes first by priority, and among equals by its last sign of life; there is one unless nobody is registered; it changes in an election only |
| `Registrations.StepSubscribers` | src/core/Agent.cpp:166-226 | Peers become subscribers by asking and stop by disconnecting |
| `Prompts.PendingPromptIsShown` | src/core/managers/PinentryManager.cpp:119-124 | In every reachable state a session whose pinentry request is pending shows the prompt of that very request, without echo |
| `Prompts.KeyringPromptStep` | src/core/managers/KeyringManager.cpp:47-63 | A step makes a pending keyring request and the prompt shown differ if and only if it is a pinentry request of the same cookie with another prompt |
| `Prompts.KeyringPromptIsShown` | src/core/managers/KeyringManager.cpp:47-63 | Without such steps, whoever answers a keyring request looks at its prompt, in every reachable state |
| `Prompts.PromptOverwritten` | src/core/managers/PinentryManager.cpp:119-124 | A run with such a step |
| `SessionTheorems.SuccessExactlyWhenGranted` | src/core/managers/PinentryManager.cpp:178-221 | A session is announced closed with success if and only if polkit granted it, the active UI answered the keyring prompt, or the owner pid of the pinentry flow reported success: never on an unowned cookie, although `validateResultOwner` lets those through |
| `SessionTheorems.DisconnectScrubs` | src/core/Agent.cpp:166-185 | After a disconnection the socket is in no subscriber list, registry, waiter list or pending request; every other flow is as it was, its request, outcome, owner, key and retry report included |
| `SessionTheorems.DisconnectClosesItsOwn` | src/core/Agent.cpp:178-180 | It closes exactly the sessions pending on the socket, each once, as cancelled |
| `SessionTheorems.KeyringExactIff` | src/core/managers/KeyringManager.cpp:32-55 | The pending table equals the live keyring sessions after a run if and only if no keyring request of the run reused a pending cookie |
| `SessionTheorems.StrandedStays` | src/core/managers/KeyringManager.cpp:51-52 | A keyring session that lost its pending entry that way can never be closed |
| `Failures.ReusedCookieStrands` | src/core/managers/KeyringManager.cpp:32-55 | A run that does: two keyring requests under one cookie |
| `ManagerTheorems.PinentryExactStep` | src/core/managers/PinentryManager.cpp:65-122 | A step makes owner table and live pinentry sessions differ if and only if it is a request naming a live session of another source |
| `Failures.ForeignCookieOwned` | src/core/managers/PinentryManager.cpp:77-122 | A run that contains one: a keyring request, then a pinentry request under its cookie |
| `ManagerTheorems.PinentryExactAlways` | src/core/managers/PinentryManager.cpp:342-360 | With cookies disjoint across sources, the owners are exactly the live pinentry sessions in every reachable state |
| `ManagerTheorems.TimersAreAwaiting` | src/core/managers/PinentryManager.cpp:160-175 | In every reachable state an armed timer belongs to a flow that is awaiting its outcome, so no stale timer can fire |
| `ManagerTheorems.ResultsCompletedOnce` | src/core/PolkitListener.cpp:165-216 | Each asynchronous result is completed exactly once, when its request leaves the tables, and no request starts more than three attempts |
| `ManagerTheorems.DroppedSignalsChangeNothing` | src/core/PolkitListener.cpp:111-163 | Signals of a discarded polkit session change nothing at all |
| `ManagerTheorems.DroppedForever` | src/core/PolkitListener.cpp:183-193 | A discarded polkit session is never reached again |
| `SecretRouting.SecretsGoWhereTheyBelong` | src/core/Agent.cpp:288-338 | Over one step, the user's answers in any inbox grow by exactly the answer of an authorised UI to the request pending on that very socket: its response as the secret or password, or a bare confirmation |
| `SecretRouting.AnswerReachesRequester` | src/core/managers/PinentryManager.cpp:139-176 | An authorised response to a pending request is offered to the socket that made it, word for word, and no other secret is written to any inbox |
| `SecretRouting.KeyringRequestRecorded` | src/core/managers/KeyringManager.cpp:11-63 | An accepted keyring request is pending with the socket it came on, the process behind it and what it asks for |
| `SecretRouting.PinentryRequestRecorded` | src/core/managers/PinentryManager.cpp:57-137 | So is an accepted pinentry request; its process owns the flow, and nothing of an earlier answer or retry is left |
| `SecretRouting.ReleaseConsumes` | src/core/managers/KeyringManager.cpp:65-77 | Releasing an answer consumes the pending entry in the same step, and the answer does not reach polkit |
| `PolkitSteps.PolkitSecrets` | src/core/PolkitListener.cpp:218-227 | Polkit is given a secret exactly when an authorised UI answers one of its requests that no pinentry request shadows, and then it is given the response, for the attempt that is running |
| `PolkitSteps.PolkitResults` | src/core/PolkitListener.cpp:165-216 | Exactly: a failed attempt is followed by a fresh one until the third; results are completed on authorisation, on the third failure, on cancellation, and at once when a request is turned away |
| `PolkitSteps.StepRequests` | src/core/PolkitListener.cpp:22-163 | After every input, which polkit requests are in progress, on which attempt, with which retry count, prompt and error |
| `SecretRouting.OffersAreLogged` | src/core/Agent.cpp:288-383 | A step offers requesters exactly one answer or one refusal, or none |
| `SecretRouting.SecretsNeverExceedRequests` | src/core/managers/PinentryManager.cpp:139-176 | Over any run, answers released for an id plus requests still pending never exceed the requests accepted for it |
| `Attendance.UnattendedWithoutACallIff` | src/core/Agent.cpp:538-545 | A step newly leaves live sessions without an active provider and without calling for the fallback UI if and only if it is a registration or a heartbeat for whose election every provider, the sender included, is already disconnected or stale |
| `Attendance.NewlyUnattendedIff` | src/core/Agent.cpp:436-450 | Registrations, heartbeats, answers, cancellations, results, timeouts and polkit completions newly lead to that state in exactly that case |
| `Attendance.ElectionLeavesUnattended` | src/core/Agent.cpp:244-268 | In any state, a registration or a registered provider's heartbeat leaves live sessions unattended exactly if every provider is dead for the election, and never calls for the fallback UI |
| `Failures.LateHeartbeatOverlooked` | src/core/Agent.cpp:256-268 | In every state with sessions there is such a heartbeat: one handled 15001 ms after it was stamped |
| `Failures.AttendedSession` | src/core/Agent.cpp:244-255 | A run of one request and one registration that reaches such a state |
| `AuthorityRuns.ClientAgreesWithDaemon` | src/fallback/FallbackClient.cpp:159-276 | A fallback client that registered, and subscribed before it could be pruned, believes it is active exactly if the daemon accepts its answers, after every later step of every run until its socket goes away |
| `AuthorityRuns.StepAgreement` | src/core/Agent.cpp:202-286 | One step keeps that agreement for as long as the daemon keeps the client informed |
| `Authority.RegisteringAgrees` | src/core/Agent.cpp:244-255 | Registering establishes the agreement whatever the client believed before |
| `Authority.ElectionAgreement` | src/core/Agent.cpp:546-568 | Whoever wins an election, the announcement tells the client exactly whether it is the winner |
| `MirrorRuns.ActiveProviderMirrorsStore` | src/core/Agent.cpp:202-226 | From the subscription of an active provider on, for as long as it stays active, the events sent to it rebuild the store's ids, sources and current states; an id without an update is a polkit session still in its initial state |
| `MirrorRuns.StepMirrors` | src/core/agent/EventRouter.hpp:17-33 | One step during which the provider is active at both ends keeps the mirror true |
| `MirrorRuns.OrdinaryMirrors` | src/core/Agent.cpp:510-527 | A provider active before and after a handler's calls was active throughout, and misses no event |
| `Mirrors.SubscribeMirrors` | src/core/Agent.cpp:202-226 | The snapshot sent on subscription makes the mirror true, at first or again |
| `Deliveries.RouteDelivers` | src/core/agent/EventRouter.hpp:17-33 | A routed event is written to the active provider alone, or else to every connected subscriber; anything more goes to `next` callers |
| `Deliveries.RouteWrites` | src/core/agent/EventQueue.hpp:23-29 | Exactly: `t` is written the event if it is addressed, and then, in order, the events it takes as a waiter |
| `Deliveries.NextWrites` | src/core/Agent.cpp:193-200 | A `next` is answered at once with the oldest queued event, or its sender joins the waiters last in line |
| `FallbackClients.ReceivingShows` | src/fallback/FallbackClient.cpp:191-276 | A session event reaches the window unless another provider is in charge, and a message that puts the client in charge makes it ask for the sessions again |
| `FallbackClients.ActiveShowsAll` | src/fallback/FallbackClient.cpp:256-276 | While the client is in charge the window is shown every session event that arrives, in order |
| `PinentryAnswers.PasswordIsTheUsers` | src/modes/pinentry.cpp:320-415 | In every interleaving, what the process prints when its answer arrives is what the UI in charge decided on that very request while the process waited: its response as password, a confirmation, or a cancellation |
| `PinentryAnswers.EveryDataLine` | src/modes/pinentry.cpp:265-342 | Nothing printed as data is made up: gpg-agent asked for that information, or the UI in charge typed that password for a request of this process |
| `PinentryWorlds.BothEndsAgree` | src/modes/pinentry.cpp:80-166 | In every interleaving, at every command boundary: awaiting if and only if a cookie is held; the daemon then awaits its outcome or has dropped the flow entirely; of every other cookie used it holds no session, request, owner or retry report |
| `PinentryWorlds.EveryMove` | src/core/managers/PinentryManager.cpp:57-242 | Every move of the process, the daemon or another peer keeps the invariant from which that follows |
| `PinentryConversations.ProcessConverses` | src/modes/pinentry.cpp:186-342 | In every interleaving each move of the process is a piece of one specified turn, and at rest it has had a whole conversation with the daemon's real answers |
| `PinentryConversations.ComposedFlowsEndOnce` | src/modes/pinentry.cpp:142-166 | In every interleaving and at every moment, a cookie the process gave up has ended exactly once, by a refusal or one terminal report; the one it holds has not ended |
| `Composition.PendingStep` | src/core/managers/PinentryManager.cpp:139-176 | Whatever other peers do, a pending flow stays pending until an authorised UI answers or cancels it |
| `Composition.AbsentStays` | src/core/managers/PinentryManager.cpp:178-221 | A flow that is over leaves no trace that other peers' steps could bring back |
| `Composition.Requesting` | src/core/managers/PinentryManager.cpp:57-137 | A request of the owner makes the flow pending whether it was absent, awaiting its outcome or reported for retry |
| `Composition.Reporting` | src/core/managers/PinentryManager.cpp:178-221 | A terminal result ends the flow; a retry leaves it reported |
| `PinentryClients.EveryFlowEndsOnce` | src/modes/pinentry.cpp:80-166 | Whatever gpg-agent says and the daemon answers, at each command boundary a cookie's flow is unborn, held, or over, having been refused once or reported once; and "cancelled" is never reported |
| `PinentryClients.NoFlowLeftOpen` | src/modes/pinentry.cpp:123-140 | However the conversation ends, no flow is left open |
| `PinentryClients.PinentrySession.Run` | src/modes/pinentry.cpp:80-103 | The loop over raw lines, skipping empty ones and dropping a trailing carriage return, computes the conversation of the specification, and its ending |
| `PinentryClients.PinentrySession.HandleLine` | src/modes/pinentry.cpp:186-318 | A line is split at its first blank, its argument decoded, and the command it names in any case is handled |
| `PinentryClients.FieldLineSets` | src/modes/pinentry.cpp:211-263 | A line naming a text in any case sets that text to the decoded argument |
| `PinentryClients.OrderLineGives` | src/modes/pinentry.cpp:190-318 | BYE, GETPIN, CONFIRM and RESET are given by their words in any case, and GETINFO by its word and a topic with the answers the code lists |
| `PinentryClients.OtherLineAcknowledged` | src/modes/pinentry.cpp:310-318 | Any other word is acknowledged and does nothing |
| `PinentryClients.PinentrySession.HandleCommand` | src/modes/pinentry.cpp:186-318 | One command takes the state to the specified one, and says whether to go on |
| `PinentryClients.PinentrySession.HandleGetPin` | src/modes/pinentry.cpp:320-342 | A retry is reported first, then the password asked for; a password that is not empty is printed as data and acknowledged, anything else as a cancellation; the error text is cleared |
| `PinentryClients.GetPinPrints` | src/modes/pinentry.cpp:320-342 | GETPIN prints the very password in the answer and then OK, or one cancellation, and nothing else |
| `PinentryClients.CommandPrints` | src/modes/pinentry.cpp:186-362 | What each other command prints, word for word |
| `PinentryClients.GetPinAsks` | src/modes/pinentry.cpp:320-415 | GETPIN sends a retry report for the answer still awaiting its outcome, with the error set, and one request carrying the texts set or their defaults; it holds the cookie exactly if a password was granted |
| `PinentryClients.ConfirmAsks` | src/modes/pinentry.cpp:417-436 | CONFIRM sends one request for a confirmation, with the description as its prompt |
| `PinentryClients.LeavingReports` | src/modes/pinentry.cpp:123-166 | BYE and the end of the stream report the held flow once, as an error exactly if an error text is set |
| `PinentryClients.TextAfter` | src/modes/pinentry.cpp:211-263 | Each text stands until it is set again or reset; a request clears the error text alone |
| `PinentryClients.PinentrySession.RequestPasswordFromDaemon` | src/modes/pinentry.cpp:364-415 | A password keeps the flow awaiting; anything else resets it |
| `PinentryClients.ReportStep` | src/modes/pinentry.cpp:142-166 | A terminal report ends the held cookie's flow and nothing else, and leaves the process as between two commands; a retry keeps the cookie, marks its flow as retrying and stops awaiting |
| `ProviderRegistries.RecomputeElects` | src/core/agent/ProviderRegistry.cpp:72-105 | In whatever order the table is walked, exactly the dead are erased and a maximal survivor is elected, none only if none survives |
| `ProviderRegistries.RecomputeIdempotent` | src/core/agent/ProviderRegistry.cpp:72-105 | Electing again under the same circumstances changes nothing |
| `ProviderRegistries.AuthorityIsUnique` | src/core/agent/ProviderRegistry.cpp:111-125 | A non-empty registry authorises exactly one socket, an empty one everybody |
| `ProviderRegistries.ProviderRegistry.RecomputeActiveProvider` | src/core/agent/ProviderRegistry.cpp:72-105 | The erase-while-iterating loop computes that election, and reports whether the winner changed |
| `ProviderRegistries.ProviderRegistry.RegisterProvider` | src/core/agent/ProviderRegistry.cpp:22-52 | An id is kept for good once given; name, kind and priority default as documented |
| `EventQueues.RouteKeeps` | src/core/agent/EventQueue.hpp:23-29 | Enqueueing with drop-oldest and draining keep the queue a suffix of the routed events, at most 256 long, empty while anyone waits, in order, losing events to overflow only |
| `EventQueues.RouteHandsOver` | src/core/agent/EventRouter.hpp:31-32 | An event goes to the oldest waiter at once, or is queued |
| `EventQueues.EventQueue.DrainToWaiters` | src/core/agent/EventQueue.hpp:23-29 | The loop pairs waiters and events in order, as specified |
| `EventQueues.EnqueueKeeps` | src/core/agent/EventQueue.cpp:19-24 | Drop-oldest keeps the queue the newest part of the history, at most 256 long; what it drops is an event that 256 newer ones have followed |
| `EventQueues.EventQueue.RemoveWaiter` | src/core/agent/EventQueue.cpp:30-32 | All entries of the socket go, the others keep their order |
| `ProviderLaunchers.EnsureFallbackKeeps` | src/core/providers/ProviderLauncher.cpp:42-76 | Every launch attempt respects cool-down and back-off; the imposed wait is at most 5120 ms |
| `ProviderLaunchers.FailuresTakeTime` | src/core/providers/ProviderLauncher.cpp:23-28 | k >= 5 backed-off failures span at least 7500 + 5000(k - 5) ms |
| `ProviderLaunchers.ProviderLauncher.ComputeBackoff` | src/core/providers/ProviderLauncher.cpp:23-28 | The wait is min(250 * 2^min(failures, 8), 5000) plus the jitter |
| `ProviderLaunchers.ProviderLauncher.TryLaunch` | src/core/providers/ProviderLauncher.cpp:39-74 | The candidate is tried exactly if there are sessions and no provider and its back-off is over, and the outcome recorded as success or failure |
| `ProviderLaunchers.LaunchesWhenDue` | src/core/Agent.cpp:570-613 | A call tries the candidate if and only if there are sessions, no provider and no lock, five seconds have passed since the last launch, and the candidate's back-off is over; it records how that went, and otherwise changes nothing |
| `Launches.LaunchesExactlyWhenNeeded` | src/core/Agent.cpp:470-545 | Every input calls for the fallback UI exactly if it opens a session with no provider active or its departure leaves sessions to nobody, and a launch is tried exactly if moreover it is due |
| `Launches.NewSessionIsLaunchedFor` | src/core/Agent.cpp:470-481 | A session created with no provider active gets a launch in the same step if one is due |
| `SessionStores.SessionStore.CreateSession` | src/core/agent/SessionStore.cpp:5-14 | A new object under an unused id, and the event describing it; a used id changes nothing |
| `SessionStores.SessionStore.UpdatePrompt` | src/core/agent/SessionStore.cpp:16-24 | Exactly one session changes, and the event describes it as changed |
| `SessionStores.SessionStore.CloseSession` | src/core/agent/SessionStore.cpp:56-66 | The session leaves the store, and the event carries its result |
| `Agents.Agent.Route` | src/core/agent/EventRouter.hpp:17-33 | Sends, enqueues and drains as specified, over the objects |
| `Agents.Agent.EmitProviderStatus` | src/core/Agent.cpp:546-568 | Every provider and every subscriber is told once, whichever list it is in |
| `Agents.Agent.EnsureFallbackUiRunning` | src/core/Agent.cpp:570-613 | Lock, cool-down and launcher decide; only a success starts the cool-down |
| `Agents.Agent.CreateSession` | src/core/Agent.cpp:470-481 | Store, event and, without a provider, the fallback UI |
| `Agents.Agent.CloseSession` | src/core/Agent.cpp:510-527 | The election after the last session comes before the closed event |
| `Agents.Agent.OnSessionComplete` | src/core/Agent.cpp:436-450 | For polkit it comes after the event |
| `Agents.Agent.HandleSubscribe` | src/core/Agent.cpp:202-226 | Subscribes once; the snapshot goes to non-providers and the active provider only |
| `Agents.Agent.HandleNext` | src/core/Agent.cpp:193-200 | An event at once, or a place among the waiters |
| `Agents.Agent.HandleUIRegister` | src/core/Agent.cpp:244-255 | Registration, election, reply, and an announcement if the winner changed or is the sender |
| `Agents.Agent.HandleUIHeartbeat` | src/core/Agent.cpp:256-268 | Stamp, election, reply |
| `Agents.Agent.HandleUIUnregister` | src/core/Agent.cpp:270-286 | Removal, election, reply, and the fallback UI if sessions are left unattended |
| `Agents.Agent.PruneStaleProviders` | src/core/Agent.cpp:538-545 | Election on the timer, and the fallback UI if sessions are left unattended |
| `KeyringHandlers.KeyringManager.HandleRequest` | src/core/managers/KeyringManager.cpp:11-63 | Tables and agent change as specified; on a collision the entry is dropped and the requester told |
| `KeyringHandlers.KeyringManager.HandleResponse` | src/core/managers/KeyringManager.cpp:65-77 | A pending request is taken out and its session closed as successful; an unknown cookie changes nothing |
| `KeyringHandlers.KeyringManager.CleanupForSocket` | src/core/managers/KeyringManager.cpp:102-114 | The erase-while-iterating loop closes exactly the requests of the socket |
| `PinentryHandlers.PinentryManager.HandleRequest` | src/core/managers/PinentryManager.cpp:57-137 | A request of another process than the owner changes nothing; any other takes its flow to pending, with the calls in the code's order |
| `Announcements.OpeningRequestPrompts` | src/core/managers/PinentryManager.cpp:77-137 | The first request under a cookie opens a session with exactly its texts and retry counts, and routes exactly a created event, the prompt, and its error if it reports one |
| `Announcements.LaterRequestPrompts` | src/core/managers/PinentryManager.cpp:69-137 | A later one gives the session its prompt and its counts, and routes exactly the failure of an answer that awaited its outcome, the new prompt with the new counts, and its error unless that was reported as a retry |
| `Announcements.RefusedRequestShowsNothing` | src/core/managers/PinentryManager.cpp:57-68 | A request of a process that does not own the flow changes no session and routes nothing |
| `PinentryHandlers.PinentryManager.HandleResponse` | src/core/managers/PinentryManager.cpp:139-176 | The reply carries the response as the password, or a confirmation, and the request moves from pending to awaiting, under a fresh timer; an answer to anything else is turned down and changes nothing |
| `PinentryHandlers.PinentryManager.HandleCancel` | src/core/managers/PinentryManager.cpp:223-242 | A flow that is pending, awaiting or live ends; anything else is unknown and unchanged |
| `PinentryHandlers.PinentryManager.HandleResult` | src/core/managers/PinentryManager.cpp:178-221 | Owner, session and word decide; the flow ends, waits for a retry, or nothing happens |
| `PinentryHandlers.PinentryManager.ResolveRetryInfo` | src/core/managers/PinentryManager.cpp:283-317 | The counts in the description win, else those last seen for the key |
| `PinentryHandlers.PinentryManager.CloseFlow` | src/core/managers/PinentryManager.cpp:342-360 | The session is closed if it is a pinentry session; the flow leaves every table either way |
| `PinentryHandlers.PinentryManager.CleanupForSocket` | src/core/managers/PinentryManager.cpp:270-281 | Collects the socket's pending flows and closes them |
| `PolkitHandlers.PolkitListener.InitiateAuthentication` | src/core/PolkitListener.cpp:22-78 | Accepted requests enter both tables; rejected ones are completed at once and leave no trace |
| `PolkitHandlers.PolkitListener.FinishAuth` | src/core/PolkitListener.cpp:165-216 | Up to two retries on a fresh polkit session, then the end; a grant or a cancellation ends it at once |
| `PolkitHandlers.PolkitListener.OnSessionCompleted` | src/core/PolkitListener.cpp:125-141 | A completed signal is noted on the object found through the reverse table, and concluded |
| `PolkitHandlers.PolkitListener.CancelAuthentication` | src/core/PolkitListener.cpp:98-105 | Every request in a snapshot of the table is cancelled |
| `AgentHandlers.AuthAgent.HandleRespond` | src/core/Agent.cpp:288-338 | The objects do what the specified handler does, in every branch |
| `AgentHandlers.AuthAgent.HandleCancel` | src/core/Agent.cpp:340-385 | The same for cancellations |
| `AgentHandlers.AuthAgent.OnClientDisconnected` | src/core/Agent.cpp:166-185 | The same for disconnections |
| `AgentHandlers.AuthAgent.HandlePinentryResult` | src/core/Agent.cpp:238-242 | The same for pinentry results, with the reply |
| `AgentHandlers.AuthAgent.HandleInput` | src/core/Agent.cpp:187-191 | Every input, timer and polkit signal takes the objects from the specified state to the specified next state |
| `AgentHandlers.AuthAgent.Serve` | src/core/Agent.cpp:84-120 | From the start, the objects live through every run of the specification |
| `Framing.CuttingMakesNoDifference` | src/core/ipc/IpcServer.cpp:116-140 | Two ways to cut one byte stream, in which no append takes the buffer over 64 KiB, dispatch the same lines and leave the same remainder |
| `Framing.DispatchedUpToOverflow` | src/core/ipc/IpcServer.cpp:123-128 | In general, exactly the lines of the pieces before the first overflow are dispatched |
| `Framing.SentIsDispatched` | src/core/ipc/IpcServer.cpp:71-84 | Messages framed by `sendJson` are dispatched exactly, in order, however the stream is cut |
| `Framing.RestHasNoNewline` | src/fallback/FallbackClient.cpp:46-67 | What is kept for later holds no newline |
| `Framing.LineBuffer.OnReadyRead` | src/core/ipc/IpcServer.cpp:116-140 | The splitting loop computes those lines and that remainder |
| `AssuanCodec.DecodeEncode` | src/modes/pinentry.cpp:23-61 | Decoding undoes encoding, for every string of 16-bit units |
| `AssuanCodec.EncodedIsOneLine` | src/modes/pinentry.cpp:43-61 | The encoded form holds no CR and no LF, so a `D` line is never split |
| `AssuanCodec.AssuanEncode` | src/modes/pinentry.cpp:43-61 | The encoding loop |
| `AssuanCodec.AssuanDecode` | src/modes/pinentry.cpp:23-40 | The decoding loop |
| `TextNormalize.DetailIdempotent` | src/fallback/prompt/TextNormalize.cpp:5-19 | `normalizeDetailText` is idempotent |
| `TextNormalize.CompareIdempotent` | src/fallback/prompt/TextNormalize.cpp:21-29 | `normalizeCompareText` is idempotent |
| `TextNormalize.NormalizeDetailText` | src/fallback/prompt/TextNormalize.cpp:5-19 | The loop keeps the simplified non-empty lines, in order |
| `TextNormalize.UniqueAndComplete` | src/fallback/prompt/TextNormalize.cpp:63-86 | The entries are pairwise non-equivalent, cover every non-blank value, and are values themselves |
| `TextNormalize.UniqueJoined` | src/fallback/prompt/TextNormalize.cpp:63-86 | The nested loops compute those entries |
| `TextNormalize.CollapsedFits` | src/fallback/FallbackWindow.cpp:48-93 | At most `maxLines` lines and `maxChars` characters are kept, each a prefix of its source line; all of them are kept exactly if they fit |
| `TextNormalize.CollapseIsHonest` | src/fallback/FallbackWindow.cpp:48-93 | The flag is set exactly if something did not fit; otherwise the normalised text is returned unchanged |
| `TextNormalize.CollapseDetailText` | src/fallback/FallbackWindow.cpp:48-93 | The loop computes that text and that flag |

## Left out

- Qt widgets, D-Bus, polkit and PAM internals, process start, lock file, `/proc`, desktop files and provider discovery: their results are fields of `Env` or of an input (requestor, candidate, start succeeded, lock held).
- JSON: messages are datatypes, and opaque newline-free byte strings where framing is concerned.
- `MessageRouter`: which handler an input goes to is the constructor of `Input`. `PolkitInitiate` carries one bit for "there is an identity".
- Clocks: a step reads its clock twice, once when a provider is stamped and once for elections and launches; the two may differ in any way, but elections and launches of one step share a reading.
- Sockets: an open socket is one in `Env.connected`; the code's three tests (valid, open, connected) are not told apart. A socket's identity is not reused.
- Polkit signals raised while `initiate()` or `cancel()` is still running are later steps, not re-entrant calls.
- The `deferred` argument of `closeSession` is never true in the code and is not modelled, nor is the branch of `PinentryManager::handleRequest` for a creation that fails after the store was seen not to hold the id.
- The pattern in `resolveRetryInfo` and the lower-casing of `pinentry_result` words are inputs (`attempts`, `ResultWord`).
- PinentryWorlds.BothEndsAgree: assumes that no exchange is lost or times out and that other peers do not use the process's cookies; the answer to a request is the one offered to its socket, and the delay of messages in the socket is not modelled.
- AuthorityRuns.ClientAgreesWithDaemon: messages are folded in the order sent; the delay until the client reads them is not modelled.
- Case folding and percent decoding are parameters where command lines are read (`Reading`).
- The fallback client's heartbeats, subscribe watchdog, reconnect delays and status texts.
- TextNormalize.CompareIdempotent: lower-casing is any map of characters to strings whose results are lower case; Unicode's context-dependent rules are not modelled. `firstMeaningfulLine` and `trimToLength` are left out as easy.
- AssuanCodec.AssuanDecode: which pairs other than two hexadecimal digits `toInt` accepts is a parameter.
- Fresh ids are a field of `Env`; that they are unique is assumed where it is needed. The order in which a hash table is walked is any order of its keys; for the provider table it is also assumed that erasing entries does not reorder the rest (`Env.Valid`, met by `EnvironmentExamples.EnvironmentsExist`).
- Secure wiping of buffers, password strength, prompt heuristics, requestor lookup, keyring prompter and command-line modes.
