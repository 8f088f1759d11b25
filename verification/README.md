# Verified model of the serial authentication stack

This project models, in Dafny 4.11, how Fomalhaut authenticates: a greeter that logs a user in through
greetd, and a session locker that reauthenticates the current user through isolated PAM workers, both
driving web themes over a sequenced event protocol. `dafny verify dfyconfig.toml` checks everything.

Each stateful component is modelled twice. A value datatype with total functions says what every
operation does to the abstract state, error paths included; theorems are lemmas about those functions.
A class with the component's own fields and loops implements the same operations in place, and each
method's postcondition ties the new state to the function of the old one. Environments are arbitrary:
PAM workers, greetd, the compositor, the views and the host answer from any finite script or set of
choices, and a script that has run out stands for a lost connection. Ghost logs record what was done to
the processes, to greetd and to the views, so that statements can speak about whole runs.

| file | models |
|---|---|
| `Prelude.dfy` | shared value types |
| `Core.dfy` | the authentication conversation: states, prompt identifiers, event queue |
| `Ipc.dfy` | the framed codec between parent and PAM worker |
| `PamBackend.dfy` | the reauthentication backend with one worker process per transaction |
| `PamWorker.dfy` | the worker's side of that protocol |
| `PamLink.dfy` | both sides joined by two FIFO channels, under every interleaving |
| `Greetd.dfy` | the login client and the request protocol it must obey |
| `Frontend.dfy` | frontend values, event sequences, public authentication state |
| `LockerController.dfy`, `GreeterController.dfy` | the two controllers |
| `Views.dfy` | what a controller thread sends, and what a channel has carried |
| `LockerWorker.dfy`, `GreeterWorker.dfy` | the two controller threads |
| `Bridge.dfy` | page epochs and pending replies of the GTK host |
| `Endurance.dfy` | what PAM workers can and cannot do to the locker's controller over whole runs |
| `Sdk.dfy` | the frontend client: watermark, busy flag, request numbers |
| `ThemeStore.dfy` | the theme's event reducers |
| `LockerReplica.dfy`, `GreeterReplica.dfy` | host, client and theme joined from end to end |
| `Exec.dfy`, `Discovery.dfy`, `Users.dfy`, `AurResolver.dfy` | the self-contained kernels |

## Results that differ from what one might expect

- A started login is not final in `GreeterController`: a granted power request afterwards enters the
  start branch again and marks the login failed (`GreeterController.StartedLoginSurvives` gives the exact
  condition, `GreeterController.StartedLoginCanFail` a run). The client itself stays started (`Greetd.NothingAfterTheEnd`).
- Cancelling for a page change publishes nothing. With several monitors, the other views keep a prompt
  that is gone, exactly when there was something to cancel (`LockerReplica.PageCancelIsSilent`, with a run in
  `LockerReplica.PageCancelLosesPrompt`).
- The theme clears its prompt before it restarts an authentication; if the host was still waiting, the
  prompt is lost on screen (`ThemeStore.ClearDisplayLosesPrompt`, with a run in
  `LockerReplica.ClearingLosesPrompt`).
- No PAM worker can end the locker's controller through a request, but a resume from sleep ends it if
  the backend is disconnected or the worker does not go along (`Endurance.ResumeIsAnswered` gives the exact
  condition, `Endurance.LostWorkerEndsResume` a run).
- Events that arrive while the frontend client connects are replayed before anybody can subscribe, so
  they reach nobody (`Sdk.QueuedEventsReachNobody`, with an instance in `Sdk.QueuedEventIsLost`); the theme recovers because it asks for the state again.
- The beginning of the unlocking phase is never announced, but a snapshot taken meanwhile tells of it. A
  replica shows the host's lock exactly unless the host is unlocking and the replica has not taken such a
  snapshot (`LockerReplica.LockIsShownExactly`; `LockerReplica.UnlockingIsNotShown` is a run in which it
  shows a held lock instead).
- A user whose public summary is rejected still takes its name: a later presentable user of the same name
  is not shown (`Users.ChooseStep`, with an instance in `Users.RejectedTakesName`).
- Resolving the same publish run twice is not always without effect (`AurResolver.RerunBuildsAgain` gives the exact
  condition, `AurResolver.RerunCanBuildAgain` a run).
- A prompt that finds the prompt identifiers exhausted leaves the login client authenticating, and nothing
  else does (`Greetd.ExhaustionLeavesAuthenticating`, with an instance in `Greetd.ExhaustedLoginStays`),
  while it fails the reauthentication backend (`PamBackend.ExhaustionFails`).

## Model

| member | source | states |
|---|---|---|
| Core.EmittedIncreases | crates/fomalhaut-core/src/conversation.rs:54-184 | Over any sequence of operations, failed ones included, the prompt identifiers handed out strictly increase and never go back, also across transactions. |
| Core.AcceptedAtMostOnce | crates/fomalhaut-core/src/conversation.rs:54-184 | Over any sequence of operations, the identifiers whose answers are accepted strictly increase, so none is answered twice, and each was active at the start or emitted meanwhile. |
| Core.InactiveIsNeverAccepted | crates/fomalhaut-core/src/conversation.rs:66-85 | An identifier handed out earlier and no longer active is never answered by any later sequence of operations. |
| Core.RetiredPromptsStayRetired | crates/fomalhaut-core/src/conversation.rs:54-180 | After a successful begin, answer, cancellation, rejection, failure or disconnect, no identifier handed out before it is ever answered again. |
| Core.AuthConversation.Begin | crates/fomalhaut-core/src/conversation.rs:54-63 | The new state and error of `begin`: only from idle or failed, dropping pending events and the active prompt. |
| Core.AuthConversation.BeginResponse | crates/fomalhaut-core/src/conversation.rs:66-85 | An answer is accepted only while waiting and only for the active prompt, which it retires; otherwise nothing changes. |
| Core.AuthConversation.EmitPrompt | crates/fomalhaut-core/src/conversation.rs:87-106 | A prompt takes the next identifier, becomes the active one and the newest event; exhaustion changes nothing. |
| Core.AuthConversation.Succeed | crates/fomalhaut-core/src/conversation.rs:118-128 | Success is accepted only while authenticating and reports the identity as the newest event. |
| Core.AuthConversation.BeginCancel | crates/fomalhaut-core/src/conversation.rs:130-139 | Cancellation starts exactly from the states that need it and retires the active prompt. |
| Core.AuthConversation.Reject | crates/fomalhaut-core/src/conversation.rs:152-168 | A rejection retires the prompt and reports a failed authentication; terminal states refuse it. |
| Core.AuthConversation.NextEvent | crates/fomalhaut-core/src/conversation.rs:182-184 | Events leave the queue oldest first; an empty queue is an error and changes nothing. |
| Ipc.ParentRoundTrip | crates/fomalhaut-pam/src/ipc.rs:66-118 | Reading a written parent message from any stream gives that message and the untouched rest. |
| Ipc.ParentCanonical | crates/fomalhaut-pam/src/ipc.rs:66-118 | Any accepted parent frame is byte for byte the encoding of the message it decodes to. |
| Ipc.WorkerRoundTrip | crates/fomalhaut-pam/src/ipc.rs:121-191 | Reading a written worker message from any stream gives that message and the untouched rest. |
| Ipc.WorkerCanonical | crates/fomalhaut-pam/src/ipc.rs:121-191 | Any accepted worker frame is byte for byte the encoding of the message it decodes to. |
| Ipc.ParentStreams | crates/fomalhaut-pam/src/ipc.rs:66-118 | A byte stream is the concatenation of these written parent messages if and only if it decodes to exactly them. |
| Ipc.WorkerStreams | crates/fomalhaut-pam/src/ipc.rs:121-191 | A byte stream is the concatenation of these written worker messages if and only if it decodes to exactly them. |
| Ipc.CutFrameIsDisconnected | crates/fomalhaut-pam/src/ipc.rs:207-218 | A frame cut anywhere, even inside its header, reads as a disconnection and never as a message. |
| Ipc.Pipe.WriteParentMessage | crates/fomalhaut-pam/src/ipc.rs:66-88 | Writing appends the whole encoding of the message or, on a bound violation, nothing. |
| Ipc.Pipe.ReadParentMessage | crates/fomalhaut-pam/src/ipc.rs:90-118 | Reading takes exactly what the decoder of the whole stream takes, with the same errors. |
| Ipc.Pipe.WriteWorkerMessage | crates/fomalhaut-pam/src/ipc.rs:121-154 | Writing appends the whole encoding of the message or, on a bound violation, nothing. |
| Ipc.Pipe.ReadWorkerMessage | crates/fomalhaut-pam/src/ipc.rs:156-191 | Reading takes exactly what the decoder of the whole stream takes, with the same errors. |
| PamBackend.BackendInvariant | crates/fomalhaut-pam/src/backend.rs:61-262 | Over every sequence of calls and every behaviour of the worker processes: waiting exactly when a core prompt is active and a worker prompt stored, waiting only with a live worker, no worker after failure, disconnection or success, at most one begin per worker, at most 128 frames per transaction, and no call returns while authenticating or cancelling. |
| PamBackend.MeteredPrefix | crates/fomalhaut-pam/src/backend.rs:88-217 | The limits of one begin per worker and 128 frames per transaction hold at every moment of a log, not only at its end. |
| PamBackend.DriveKeeps | crates/fomalhaut-pam/src/backend.rs:132-217 | The receive loop ends within 129 minus the frames already received, in a settled backend that waits only by a fresh prompt, and reports success only behind an authenticated frame and a clean exit of the worker that was handed the transaction. |
| PamBackend.ExhaustionFails | crates/fomalhaut-pam/src/backend.rs:171-189 | A prompt frame fails the transaction, with an error, if and only if the prompt identifiers have run out, and is shown otherwise. |
| PamBackend.BeginKeeps | crates/fomalhaut-pam/src/backend.rs:88-107 | Opening a transaction keeps the invariant, and success without an error needs a newly reported, cleanly exited worker. |
| PamBackend.RespondKeeps | crates/fomalhaut-pam/src/backend.rs:109-130 | Answering keeps the invariant and never hands a transaction to a worker. |
| PamBackend.CancelKeeps | crates/fomalhaut-pam/src/backend.rs:219-225 | Cancelling succeeds exactly when something needs it, ends idle, and never hands a transaction to a worker. |
| PamBackend.ServingWasHanded | crates/fomalhaut-pam/src/backend.rs:88-107 | A worker that serves a transaction was sent a begin successfully, with no newer worker and no newer begin since. |
| PamBackend.ConnectedIsSettled | crates/fomalhaut-pam/src/backend.rs:61-86 | A backend whose first worker has been prepared satisfies the invariant. |
| PamBackend.PamReauthBackend.BeginReauth | crates/fomalhaut-pam/src/backend.rs:88-107 | Begin in place: a conversation error changes nothing, a missing worker is spawned before the begin is sent, and a failed spawn or send fails the transaction; the result is that of the whole receive loop behind it. |
| PamBackend.PamReauthBackend.Respond | crates/fomalhaut-pam/src/backend.rs:109-130 | Answer in place: the worker prompt is taken before anything else is looked at, the answer goes out under that worker prompt, and every failure fails the worker; the result is that of the whole receive loop behind it. |
| PamBackend.PamReauthBackend.DriveWorker | crates/fomalhaut-pam/src/backend.rs:132-217 | The receive loop, iterated in place, computes the specified result and terminates. |
| PamBackend.PamReauthBackend.Cancel | crates/fomalhaut-pam/src/backend.rs:219-225 | Cancellation in place: the worker is terminated and its prompt dropped between the two conversation transitions. |
| PamBackend.PamReauthBackend.FinishWorker | crates/fomalhaut-pam/src/backend.rs:227-243 | The worker is taken and waited for; an unclean exit terminates it and disconnects. |
| PamWorker.WorkerConversation.WaitForBegin | crates/fomalhaut-pam/src/worker.rs:169-175 | The worker's transaction opens exactly on a begin frame within its budget; otherwise the peer counts the frame and fails. |
| PamWorker.WorkerConversation.Prompt | crates/fomalhaut-pam/src/worker.rs:183-225 | A PAM prompt is written with the next prompt number and answered only by the matching answer frame; any deviation fails the conversation for good. |
| PamWorker.WorkerConversation.Message | crates/fomalhaut-pam/src/worker.rs:227-244 | A PAM message is written unless the conversation has failed; a write error or an exhausted budget fails it. |
| PamLink.LinkIsSafe | crates/fomalhaut-pam/src/backend.rs:88-243 | Backend and worker joined by two FIFO channels, for every PAM stack, interleaving and loss and all in-bounds answers: the k-th PAM prompt gets exactly the answer given to the core prompt shown for it, the sides never both wait on empty channels, at most 127 frames reach the parent, no protocol error is reported before prompt identifiers run out, and success means both PAM phases succeeded. |
| PamLink.NextKeeps | crates/fomalhaut-pam/src/worker.rs:169-252 | Every single step of the joined system keeps its invariant, and no step with an in-bounds answer ends in a protocol error. |
| PamLink.ChannelsAreStreams | crates/fomalhaut-pam/src/ipc.rs:66-191 | After any run of the joined system, whatever the answers, each channel is one byte stream: it decodes to exactly the messages on their way, no other stream does, and the next read takes the oldest and leaves the stream of the rest. |
| PamLink.OversizedAnswerIsProtocolError | crates/fomalhaut-pam/src/backend.rs:458-474 | The bound on answers is needed: an oversized answer or one with a NUL does end in a protocol error. |
| Greetd.ClientObeysProtocol | crates/fomalhaut-greetd/src/client.rs:113-293 | Whatever the server answers and whatever is called: every request was allowed by the exchange before it, a rejected authentication is always followed by its cancel request before the client rests, a missing identity is never reported, and pending successes name the account of their own session request. |
| Greetd.LegalEverywhere | crates/fomalhaut-greetd/src/client.rs:169-251 | In a legal trace each request is allowed by its predecessor: an answered response only after a secret or visible message, an empty one exactly after an informational one, a start only after a completed authentication. |
| Greetd.NothingAfterTheEnd | crates/fomalhaut-greetd/src/client.rs:113-167 | After a started session or a transport failure no later call sends anything or changes that. |
| Greetd.DriveKeeps | crates/fomalhaut-greetd/src/client.rs:169-251 | The exchange loop ends in a settled client that waits only by a fresh prompt and never reports a missing identity. |
| Greetd.ExhaustionLeavesAuthenticating | crates/fomalhaut-greetd/src/client.rs:169-251 | An operation leaves the client authenticating if and only if its last exchange asks the user while the prompt identifiers had run out before. |
| Greetd.ExhaustedLoginStays | crates/fomalhaut-greetd/src/client.rs:169-251 | Such a login: with the identifiers run out, a session creation that is answered by a secret prompt reports an error and rests authenticating. |
| Greetd.LaunchStarts | crates/fomalhaut-greetd/src/client.rs:136-153 | A launch succeeds exactly by one start request answered with success; a failed launch starts nothing. |
| Greetd.CancelKeeps | crates/fomalhaut-greetd/src/client.rs:155-167 | Cancelling keeps the client's invariant whatever the server answers, and never changes whether a session was started. |
| Greetd.GreeterClient.Create | crates/fomalhaut-greetd/src/client.rs:113-122 | Session creation in place: the empty name is refused untouched; otherwise identity and flags are set before the first exchange, and the result is that of the whole exchange loop. |
| Greetd.GreeterClient.Respond | crates/fomalhaut-greetd/src/client.rs:124-134 | Answering in place: a stale or unexpected answer sends nothing; otherwise the result is that of the whole exchange loop. |
| Greetd.GreeterClient.Launch | crates/fomalhaut-greetd/src/client.rs:136-153 | Starting in place: refused without an exchange unless authenticated and not yet starting or started. |
| Greetd.GreeterClient.CancelActive | crates/fomalhaut-greetd/src/client.rs:155-167 | Cancelling in place: refused without an exchange once a session starts; otherwise the identity is dropped before the exchange. |
| Greetd.GreeterClient.Drive | crates/fomalhaut-greetd/src/client.rs:169-251 | The loop that replaces request and purpose in place computes the specified result of the whole operation. |
| Frontend.DrainDelivers | crates/fomalhaut-web/src/controller.rs:229-293 | A drain that meets only events that can be shown empties the queue and keeps the messages bounded; a prompt that was the newest event becomes the public prompt, with the core's identifier and kind, and is told last. |
| Frontend.DrainShowsAll | crates/fomalhaut-web/src/controller.rs:229-293 | Draining tells every pending event, each as its own frontend event and in order, behind what was gathered before, and tells nothing else. |
| Frontend.DrainKeepsNewestMessages | crates/fomalhaut-web/src/controller.rs:229-278 | Draining appends to the events already gathered and leaves exactly the newest sixteen of the old and the newly told messages. |
| Frontend.StampContinues | crates/fomalhaut-web/src/controller.rs:214-227 | A batch takes consecutive sequence numbers from where the last one stopped and leaves its events and their order unchanged. |
| Frontend.EventSequence.Allocate | crates/fomalhaut-web/src/protocol/message.rs:576-596 | Numbers are handed out one by one up to the largest safe integer and never beyond. |
| Frontend.AuthPublicState.EnvelopeEvents | crates/fomalhaut-web/src/controller.rs:214-227 | Stamping one event at a time in place gives the consecutive numbering, or none when the safe integers run out. |
| Frontend.AuthPublicState.DrainCoreEvents | crates/fomalhaut-web/src/controller.rs:229-245 | The drain loop over the mutable conversation computes the specified public state, queue and events. |
| LockerController.HandleAccounts | crates/fomalhaut-web/src/controller.rs:791-859 | Every delivered batch accounts for its step: the settled state is kept with public authentication equal to the backend's and the public prompt equal to the active one, sequences continue without gap, the events are exactly the state change, if any, the request's own events and every event the backend left pending, in order, and an unlock is authorized exactly on a new success, cleanly proven during this very request; a fatal error never touches the lock. |
| LockerController.PrepareAccounts | crates/fomalhaut-web/src/controller.rs:867-883 | Preparing for sleep accounts for its step in the same sense: its batch carries exactly the state change and, if a transaction was active, its cancellation; it never hands a transaction to a worker. |
| LockerController.ResumeAccounts | crates/fomalhaut-web/src/controller.rs:886-922 | Resuming accounts for its step in the same sense: its batch carries exactly the state change, the cancellation of an older transaction, if any, and then every event of the fresh one, in order. |
| LockerController.GrantedRequestTellsState | crates/fomalhaut-web/src/controller.rs:791-859 | A granted begin, answer or cancellation always tells where it led: the newest event of its batch is the prompt the host now waits on, the success, the failure or the cancellation, as the public state says. |
| LockerController.CancelSettles | crates/fomalhaut-web/src/controller.rs:312-330 | A lifecycle cancellation always succeeds, ends idle if there was something to cancel and changes nothing otherwise. |
| LockerController.AuthorizationIsHonoured | crates/fomalhaut-web/src/controller.rs:764-776 | An authorization exists exactly when a held lock has just been authenticated for, consuming it is never refused, and without one the lock stays unauthenticated. |
| LockerController.FallbackStaysLocked | crates/fomalhaut-web/src/controller.rs:827-835 | A batch that asks for the trusted fallback leaves the lock held, no worker alive, authentication failed and nothing authorized. |
| LockerController.OnlyHeldLockIsServed | crates/fomalhaut-web/src/controller.rs:944-951 | Unless the lock is held, every request but a snapshot is answered with an invalid state and changes nothing at all. |
| LockerController.StaleAnswerIsRefused | crates/fomalhaut-web/src/controller.rs:971-978 | An answer to anything but the public prompt is refused as stale without reaching the backend, and changes nothing at all. |
| LockerController.StateGetAnswers | crates/fomalhaut-web/src/controller.rs:725-737 | A snapshot can always be taken and names the last sequence handed out. |
| Endurance.RequestsAreAnswered | crates/fomalhaut-web/src/controller.rs:791-859 | Whatever its PAM workers send through the codec, every request of a settled locker is answered by a batch and not by a fatal error, and uses up at most one prompt identifier and 131 event numbers. |
| Endurance.SleepIsAnswered | crates/fomalhaut-web/src/controller.rs:867-883 | Preparing for sleep is always answered by a batch, within the same allowance. |
| Endurance.ResumeIsAnswered | crates/fomalhaut-web/src/controller.rs:886-922 | Resuming is answered by a batch if and only if the lock is not held, or the backend is not disconnected and its worker goes along: spawn, where one is needed, and begin succeed, and behind at most 127 messages the worker asks something or sends an outcome and exits cleanly. |
| Endurance.LockerEndures | crates/fomalhaut-web/src/controller.rs:740-922 | Over any run of requests, sleep cycles and lock transitions, while prompt identifiers and event numbers stay representable in JavaScript: every request and sleep preparation is answered, a lock transition is announced exactly when its guard allows it, and the controller ends only at a resume whose worker does not go along. |
| Endurance.EnduresFromConnection | crates/fomalhaut-web/src/controller.rs:740-922 | The same from a newly connected backend, for any number of commands up to a 131st of the largest safe integer. |
| Endurance.LostWorkerEndsResume | crates/fomalhaut-web/src/controller.rs:886-922 | Such a resume exists: right after the lock is confirmed, with a worker that is lost when it is handed its transaction. |
| Endurance.AcceptedFramesAreSafe | crates/fomalhaut-pam/src/ipc.rs:156-191 | Every prompt or message the codec accepts is one the frontend protocol accepts. |
| Endurance.DriveFits | crates/fomalhaut-pam/src/backend.rs:132-217 | Each frame of the transaction budget adds at most one pending event, and each such event can be shown. |
| LockerController.LockerController.Handle | crates/fomalhaut-web/src/controller.rs:791-859 | Handling in place: execution, drain, state update, stamping and the two flags, each in the order and with the early exits of the specification. |
| LockerController.LockerController.PrepareForSleep | crates/fomalhaut-web/src/controller.rs:867-883 | Sleep preparation in place: the announcement compares with the state before the cancellation. |
| LockerController.LockerController.ResumeAfterSleep | crates/fomalhaut-web/src/controller.rs:886-922 | Resume in place: cancel, reset, begin, drain, and on failure cancel again and report a fatal error. |
| LockerController.LockerController.BeginUnlock | crates/fomalhaut-web/src/controller.rs:764-776 | The lock moves to unlocking only from locked and authenticated; otherwise nothing changes. |
| LockerController.LockerController.MarkLockAcquired | crates/fomalhaut-web/src/controller.rs:740-750 | The lock is recorded as acquired only from acquiring, with its event stamped. |
| LockerController.LockerController.MarkLockFailed | crates/fomalhaut-web/src/controller.rs:752-761 | The lock is recorded as failed unless failed or released already. |
| LockerController.LockerController.MarkLockReleased | crates/fomalhaut-web/src/controller.rs:779-788 | The lock is recorded as released only from unlocking. |
| GreeterController.HandleAccounts | crates/fomalhaut-web/src/controller.rs:446-551 | Every delivered batch accounts for its step: the settled state is kept, sequences continue, the events are exactly the state change, if any, the request's own events, every event the client left pending in order, and the start if there was one, and a session start is told exactly when the selected session was launched with success. |
| GreeterController.GrantedRequestTellsState | crates/fomalhaut-web/src/controller.rs:446-551 | A granted session creation, answer or cancellation always tells where it led: apart from a session start, the newest event of its batch is the prompt the host now waits on, the success, the failure or the cancellation. |
| GreeterController.CollectGathers | crates/fomalhaut-web/src/controller.rs:229-245 | Draining behind a request's own events settles the greeter: the queue is empty, a fresh prompt is public and told last, the selection told is the public one, and no start is told. |
| GreeterController.CollectShowsAll | crates/fomalhaut-web/src/controller.rs:229-245 | A drain tells the details gathered before, then every pending core event in order, and nothing else. |
| GreeterController.StartGathers | crates/fomalhaut-web/src/controller.rs:478-517 | The start branch launches the publicly selected command and tells of it exactly when greetd confirmed it. |
| GreeterController.StateGetAnswers | crates/fomalhaut-web/src/controller.rs:420-443 | A snapshot can always be taken; it names the last sequence and the session that is selected. |
| GreeterController.StartedLoginSurvives | crates/fomalhaut-web/src/controller.rs:478-517 | The public login state of a started session survives a request if and only if the request is not a granted power operation with a non-empty catalog, which enters the start branch again and marks the login failed; the client stays started. |
| GreeterController.StartedLoginCanFail | crates/fomalhaut-web/src/controller.rs:478-517 | A run in which it does not: greetd accepts the user and starts the session, and a granted power request then marks the login failed. |
| GreeterController.CancelSettles | crates/fomalhaut-web/src/controller.rs:312-330 | A lifecycle cancellation leaves nothing waiting, and changes nothing when there is nothing to cancel. |
| GreeterController.Find | crates/fomalhaut-web/src/controller.rs:656-662 | The first session carrying an identifier is found, and none only if no session carries it. |
| GreeterController.GreeterController.Handle | crates/fomalhaut-web/src/controller.rs:446-522 | Handling in place: execution, two drains around the start branch, state update and stamping. |
| GreeterController.GreeterController.Start | crates/fomalhaut-web/src/controller.rs:478-517 | The start branch in place: the selected command is launched only behind a completed request on an authenticated client, and its error replaces the outcome. |
| GreeterController.GreeterController.SelectSession | crates/fomalhaut-web/src/controller.rs:638-672 | Selection in place: the first session with the identifier is selected, refused once a session started or while disconnected or cancelling. |
| LockerWorker.UnlockIsSafe | crates/fomalhaut-lock/src/controller_worker.rs:270-462 | Over every sequence of commands and whatever PAM, the views and the host do: the host is told to unlock at most once, and only by a command that found the lock held and during which the newest PAM worker, handed its transaction since the lock was confirmed, reported success and exited cleanly; a success reported before that command does not count. |
| LockerWorker.LockFollowsItsPath | crates/fomalhaut-lock/src/controller_worker.rs:270-462 | Every step of a run moves the lock only from acquiring to locked, unlocking and released, or to failed. |
| LockerWorker.StepKeeps | crates/fomalhaut-lock/src/controller_worker.rs:270-540 | Every command in every environment keeps the worker's invariant, extends the published events and the PAM log, and hands transactions to PAM workers only while the lock is held. |
| LockerWorker.HeldMeansUnauthenticated | crates/fomalhaut-lock/src/controller_worker.rs:479-540 | Between commands public authentication is the backend's, the public prompt is the active one, a held lock is not authenticated for, and the watermark counts the published events. |
| LockerWorker.ViewsSeeAnInterval | crates/fomalhaut-lock/src/controller_worker.rs:464-581 | Every view's channel carries one gap-free, repetition-free interval of the event numbers from its registration on, which ends at the last published one while the view is attached, also if it has carried nothing yet, whoever asks and whenever channels fill up. |
| LockerWorker.AnswerKeeps | crates/fomalhaut-lock/src/controller_worker.rs:501-511 | Answering the origin and broadcasting to the others leaves no attached view without any of the events. |
| LockerWorker.UnlockHasCause | crates/fomalhaut-lock/src/controller_worker.rs:479-540 | An unlock notice in a run has a first command that caused it, which took the lock from locked to unlocking and during which the success was reported. |
| Views.SnapshotSeparates | crates/fomalhaut-lock/src/controller_worker.rs:479-522 | A snapshot on a channel carries exactly the number of the last event put on it before, so it separates older from newer events. |
| LockerWorker.LockerWorker.Step | crates/fomalhaut-lock/src/controller_worker.rs:329-460 | One command in place: every error path drains or drops all views and stops the worker. |
| LockerWorker.LockerWorker.HandleRequest | crates/fomalhaut-lock/src/controller_worker.rs:479-522 | A request in place: an unknown view is ignored, a fatal error drains all views, and an authorization is consumed before anything is sent. |
| LockerWorker.LockerWorker.HandleLifecycle | crates/fomalhaut-lock/src/controller_worker.rs:524-540 | A lifecycle batch in place: an authorization is consumed before anything is sent, and the host is told to unlock after the views. |
| LockerWorker.LockerWorker.BroadcastEvents | crates/fomalhaut-lock/src/controller_worker.rs:555-568 | The loop over the views delivers to each attached view but the excluded one, and lets go of those without room. |
| LockerWorker.LockerWorker.SendTo | crates/fomalhaut-lock/src/controller_worker.rs:570-581 | The loop delivers to the named view only and lets go of it if it has no room. |
| LockerWorker.LockerWorker.DrainViews | crates/fomalhaut-lock/src/controller_worker.rs:583-601 | Every view is let go, told so if it has room. |
| GreeterWorker.RunAnswersInOrder | crates/fomalhaut/src/controller_worker.rs:187-245 | Whatever greetd answers: the output channel carries event numbers 1, 2, 3, ... without gap, snapshots name the last event before them, and the answers on it are exactly, and in order, the batches that the controller computes for the requests, each from the state its request found: for all requests while the worker runs, and for a prefix of them once it has stopped. |
| GreeterWorker.StepKeeps | crates/fomalhaut/src/controller_worker.rs:187-245 | Every command keeps the numbering, the snapshot alignment and the correspondence of answers and requests. |
| GreeterWorker.GreeterWorker.Serve | crates/fomalhaut/src/controller_worker.rs:187-245 | The command loop, served in place, computes the specified run. |
| Bridge.AnswersFindTheirMessages | crates/fomalhaut-gtk/src/lib.rs:532-612 | Under every interleaving of script messages, page loads, controller work and polls, whichever queues are full at whichever step: no uncorrelated reply is ever found, every answer goes to the message it was computed for while its page is shown, every message is replied to exactly once or is the pending one, and every accepted request follows one cancellation per earlier page. |
| Bridge.PolledBatchIsPending | crates/fomalhaut-gtk/src/lib.rs:667-723 | In any such run, a batch polled while its page is shown finds its own message pending, so neither mismatch branch is ever taken. |
| Bridge.NothingAfterTheEnd | crates/fomalhaut-gtk/src/lib.rs:770-798 | After completion or failure nothing more is handed to the controller, and the ending does not change. |
| Bridge.ApplyKeeps | crates/fomalhaut-gtk/src/lib.rs:532-876 | Every single step keeps the correlation of flight, pending reply and epoch. |
| Bridge.BridgeHost.OnScriptMessage | crates/fomalhaut-gtk/src/lib.rs:541-606 | The callback replies at once or hands the message over and makes it pending. |
| Bridge.BridgeHost.OnLoadStarted | crates/fomalhaut-gtk/src/lib.rs:845-876 | A page load advances the epoch, rejects the pending reply and queues a cancellation, or ends the view. |
| Bridge.BridgeHost.OnPoll | crates/fomalhaut-gtk/src/lib.rs:667-757 | The polling loop amounts to some number of single polls and, while the view lives, leaves no output behind. |
| Bridge.BridgeHost.HandleBatch | crates/fomalhaut-gtk/src/lib.rs:677-723 | A batch is answered, discarded or ends the view as specified. |
| Bridge.BridgeHost.Finish | crates/fomalhaut-gtk/src/lib.rs:770-798 | The view ends once: the pending reply is rejected and the controller shut down. |
| Sdk.SubscribersSeeOrder | packages/fomalhaut-sdk/src/client.ts:241-385 | Under any loss, repetition and reordering: no subscriber ever sees a sequence at or below the connecting snapshot, sequences seen strictly increase and stay above every snapshot returned before; request numbers strictly increase and each request is settled before the next is sent. |
| Sdk.OrderedEventsPass | packages/fomalhaut-sdk/src/client.ts:364-385 | Events of the client's mode that arrive in order above the watermark are all delivered, unchanged and in order. |
| Sdk.StaleEventsAreDropped | packages/fomalhaut-sdk/src/client.ts:364-385 | Events at or below the watermark change nothing and reach nobody. |
| Sdk.QueuedEventsReachNobody | packages/fomalhaut-sdk/src/client.ts:210-238 | Events queued while connecting reach no subscriber, though they raise the watermark, because they are replayed before anybody can subscribe. |
| Sdk.QueuedEventIsLost | packages/fomalhaut-sdk/src/client.ts:210-238 | Such an event: new, valid and of the client's mode, it raises the watermark and reaches nobody. |
| Sdk.ApplyKeeps | packages/fomalhaut-sdk/src/client.ts:302-385 | Every single step keeps order of delivery and seriality of requests. |
| Sdk.FomalhautClient.constructor | packages/fomalhaut-sdk/src/client.ts:210-238 | The constructor takes the snapshot's sequence and replays the queue through the event filter. |
| Sdk.FomalhautClient.ReceiveEvent | packages/fomalhaut-sdk/src/client.ts:364-385 | The filter passes exactly well-formed newer events of the client's mode and raises the watermark to them. |
| Sdk.FomalhautClient.StartExchange | packages/fomalhaut-sdk/src/client.ts:342-362 | A request is refused while one is in flight or when the numbers run out, and otherwise takes the next number. |
| Sdk.FomalhautClient.ResumeCaller | packages/fomalhaut-sdk/src/client.ts:302-312 | A returned snapshot only ever raises the watermark; a malformed one or one of another mode throws. |
| ThemeStore.PublishedKeepsAgreement | themes/nocturne/src/state/theme-store.ts:189-251 | Folding the event reducers over any batch that tells a public change takes a replica that agrees with the host to one that agrees again: same authentication state and, while the host waits, the same prompt. |
| ThemeStore.FoldDetails | themes/nocturne/src/state/theme-store.ts:216-251 | Events other than state changes never touch the replica's authentication state, nor a locker's lock. |
| ThemeStore.AnnouncedStateFitsPrompt | themes/nocturne/src/state/theme-store.ts:189-214 | An announced state leaves no prompt of a kind it does not wait for, never loses one it waits for, and announcing it twice is announcing it once. |
| ThemeStore.FoldMessages | themes/nocturne/src/state/theme-store.ts:226-236 | Without a failure among them, events add exactly the messages they tell, in order. |
| ThemeStore.HostMessagesAreNewest | themes/nocturne/src/state/theme-store.ts:226-236 | The host's bounded messages remain the newest of the replica's unbounded list, as long as nothing failed or was reset. |
| ThemeStore.ClearDisplayLosesPrompt | themes/nocturne/src/state/theme-store.ts:79-86 | What the theme clears on its own it loses exactly while the host is waiting for that prompt. |
| LockerReplica.ClearingLosesPrompt | themes/nocturne/src/state/theme-store.ts:79-86 | A run in which it does: the theme clears its display while a held lock asks for a secret. |
| ThemeStore.FailureIsShown | themes/nocturne/src/state/theme-store.ts:369-398 | A failed authentication always leaves an error as the newest message, within the bound on messages. |
| ThemeStore.Store.ReceiveAll | themes/nocturne/src/state/theme-store.ts:189-306 | Events received one at a time in place fold the reducers; before a snapshot they change nothing. |
| LockerReplica.ViewFollowsHost | themes/nocturne/src/state/theme-store.ts:189-306 | From host to screen: a client that took a snapshot and receives what its view's channel carries hands all of it to the theme, whose replica then shows the host's authentication state, its prompt while it waits, and its lock, after any number of commands other than page cancellations with something to cancel; only a host that has begun to unlock since the snapshot is still shown as locked. |
| LockerReplica.LockIsShownExactly | themes/nocturne/src/state/theme-store.ts:282-306 | After any such run the lock shown is the host's if and only if the host is not unlocking or the replica already showed it unlocking before, as after a snapshot taken meanwhile; otherwise the lock is shown as held. |
| LockerReplica.UnlockingIsNotShown | crates/fomalhaut-web/src/controller.rs:725-776 | A run in which they differ: a view with a snapshot of the held lock still shows it as locked once the request that unlocks has been served. |
| LockerReplica.StepFollows | crates/fomalhaut-web/src/controller.rs:791-942 | Each such command keeps a replica that follows the host following it. |
| LockerReplica.PageCancelIsSilent | crates/fomalhaut-web/src/controller.rs:862-864 | A page cancellation keeps the replicas in agreement if and only if it had nothing to cancel, because it announces nothing. |
| LockerReplica.PageCancelLosesPrompt | crates/fomalhaut-web/src/controller.rs:862-864 | A run in which they then disagree: the user of a held lock has been asked for a secret when another page is loaded. |
| LockerReplica.LossIsShown | crates/fomalhaut-web/src/controller.rs:752-761 | The loss of the lock, the last thing a worker announces, shows on every replica that followed the host. |
| LockerReplica.ChannelCarriesNews | crates/fomalhaut-lock/src/controller_worker.rs:542-568 | What a still attached view has been sent since an earlier moment is exactly what was published since. |
| GreeterReplica.PageFollowsHost | themes/nocturne/src/state/theme-store.ts:189-280 | From host to screen for the greeter: after any requests that are not fatal the theme's replica has the host's authentication state, its prompt while it waits, its selected session, and knows of a started login. |
| GreeterReplica.BatchFollows | crates/fomalhaut-web/src/controller.rs:446-551 | Folding one delivered batch keeps a replica that follows the greeter following it. |
| GreeterReplica.FoldSelects | themes/nocturne/src/state/theme-store.ts:256-279 | The replica's selected session and started login are those the folded events last named. |
| Exec.QuotingIsInverted | crates/fomalhaut-session/src/exec.rs:13-106 | Quoting an argument list canonically and parsing it gives the list back if and only if it is non-empty, its first argument is non-empty and without an equals sign, and no argument has a NUL. |
| Exec.ParsingIsCanonical | crates/fomalhaut-session/src/exec.rs:13-106 | Every accepted value denotes such a list, and parsing the canonical quoting of that list gives it again. |
| Exec.LexIsClean | crates/fomalhaut-session/src/exec.rs:13-76 | From any reading position without a NUL so far, whatever is accepted denotes a list of that kind. |
| Exec.BareReservedIsRefused | crates/fomalhaut-session/src/exec.rs:53-62 | Without quotes or backslashes, no value with a character that a shell interprets is accepted. |
| Exec.Parse | crates/fomalhaut-session/src/exec.rs:13-76 | The character loop computes the specified result, with the same error for every rejected value. |
| Exec.PushCharacter | crates/fomalhaut-session/src/exec.rs:80-99 | A pushed character consumes a doubled percent sign, refuses other field codes and NUL, and otherwise stands for itself. |
| Discovery.FirstClaimDecides | crates/fomalhaut-session/src/discovery.rs:58-89 | An identifier is in the catalog if and only if the first path claiming it loads, with what that path loads, whatever later paths hold. |
| Discovery.CatalogIsDecided | crates/fomalhaut-session/src/discovery.rs:58-89 | Every catalog entry comes from a first claim that loaded. |
| Discovery.EveryClaimIsCounted | crates/fomalhaut-session/src/discovery.rs:58-89 | Every scanned path ends in exactly one of catalog and rejections. |
| Discovery.RejectionsHaveReasons | crates/fomalhaut-session/src/discovery.rs:58-89 | The rejections are, in scan order, the paths without a valid name, those shadowed by an earlier claim, and first claims that do not load, each with its own reason. |
| Discovery.Discover | crates/fomalhaut-session/src/discovery.rs:58-89 | The nested loops compute the specified report, or fail exactly if some directory cannot be read. |
| Users.PublicUsersAreSound | crates/fomalhaut-user/src/lib.rs:415-444 | The public catalog has at most 128 users, each summary naming exactly its own avatar, and any two of them have distinct names and stand most used first and then by name. |
| Users.SortIsStable | crates/fomalhaut-user/src/lib.rs:415-421 | The order is by use and then by name, and users of equal rank keep the order in which they were found. |
| Users.ChooseStep | crates/fomalhaut-user/src/lib.rs:423-442 | The next user is presented exactly if there is room, its name is new, and it can be presented; an unpresentable first user still takes its name. |
| Users.RejectedTakesName | crates/fomalhaut-user/src/lib.rs:423-442 | Two users of one name, the first without a valid display name: none is presented, though the second alone would be. |
| Users.AvatarsAreNumbered | crates/fomalhaut-user/src/lib.rs:426-442 | Avatars are numbered from 1 without gaps and each summary carries the number of its own user's avatar, also behind rejected summaries. |
| Users.BuildPublicUsers | crates/fomalhaut-user/src/lib.rs:415-444 | The loop computes the specified summaries and avatars. |
| AurResolver.SplitUndoesJoin | packaging/aur/resolve.py:126-133 | Splitting a printed AUR version gives it back if and only if its package version is non-empty and its release positive. |
| AurResolver.OnlyAffectedMatter | packaging/aur/resolve.py:154-220 | The resolution does not depend on manifest or AUR versions of packages the publish run does not affect. |
| AurResolver.RerunBuildsAgain | packaging/aur/resolve.py:154-206 | Resolving the same publish run again after publishing its entry builds once more if and only if a dependency was published and the main package did not succeed in that run. |
| AurResolver.RerunCanBuildAgain | packaging/aur/resolve.py:154-206 | A run that does: a new dependency of a package the registry has already builds the second release and, resolved again, the third. |
| AurResolver.BuildsMoveForward | packaging/aur/resolve.py:182-205 | Every entry is the next release of the current package version or the first release of a new one. |
| AurResolver.ResolveAutomatic | packaging/aur/resolve.py:163-206 | The loop computes the decisions in order and stops at the first refusal. |

## Left out

- Process spawning, pipes, threads, timeouts, D-Bus, logind and AccountsService: their outcomes are arbitrary inputs of the model.
- Scheduling: that blocked sends and joins eventually proceed is not modelled, only what holds whenever they do.
- Start-up of the two controller threads before their loops: the model starts with a prepared backend, or a connected greetd socket, and a listening host.
- libpam, greetd and the compositor: arbitrary environments. A PAM stack is the list of callbacks it makes and its two result codes; since every list is covered, stacks that react to answers are covered run by run.
- JSON, TOML and desktop-file parsing: requests, publish results and desktop entries are decoded values; loading one desktop file or reading one avatar file is an arbitrary result.
- Secret zeroization and redacted formatting: no observable functional property.
- GTK and WebKit beyond page epoch, pending reply and end of the view: widgets, URI schemes, navigation policy and delivery of scripts into the page.
- The locker's map of views is a list of channels with a flag for those still in the map; no property depends on the map's iteration order.
- Channel capacities of the locker's views and of the host's queues: whether a channel has room is an arbitrary choice for every delivery, which includes every capacity and queues shared between views.
- Users, avatars, locale and power capabilities in snapshots: the greeter's user catalog appears by its size, a power request carries whether its action is enabled and accepted.
- Theme actions other than clearing the display, screens, translation and the busy and error flags: one-branch user interface code.
- Agreement on messages beyond `ThemeStore.HostMessagesAreNewest`: across failures and fresh transactions the theme keeps older messages and adds a translated failure text, while the host clears its list.
- `packaging/aur/resolve.py`: HTTP, git, the command line, manual resolution and the SemVer and commit patterns; versions and publish records are taken as already accepted.
- Error message texts and their retryable flag: only the error codes are modelled.
- GreeterReplica.PageFollowsHost: page cancellations are not part of its runs, because the greeter's only page is the one being replaced.
- LockerReplica.ViewFollowsHost: page cancellations with something to cancel are not part of its runs, because agreement then fails, as LockerReplica.PageCancelIsSilent shows.
