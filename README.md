# Provisioning coordinator and listen button of the AVS Java sample client

A Dafny model of two pieces of control logic from the Alexa Voice Service Java sample client.

**`AuthSetup`** (module `Auth`, file `auth_setup.dfy`) provisions the device with an access token.
- It keeps a `HashSet` of access-token listeners. `onAccessTokenReceived(token)` hands the token to each of them.
- It starts one of two provisioning methods, chosen by the device configuration:
  - `COMPANION_APP`: a thread starts the companion-app provisioning server once.
  - `COMPANION_SERVICE`: a `java.util.Timer` task runs at a fixed rate, first at delay 0 and then every 30000 ms. Each run calls `startRemoteProvisioning()` while `provisioningSuccess` is false. The first success sets the flag and cancels the timer.

The provisioning state is the value `Coordinator`. The functions `Start`, `TickStep` and `RunTicks` give its transitions, and the lemmas about them state the retry behaviour. The class `AuthSetup` holds the same fields. Its methods' postconditions tie each new state to those functions. A firing of the timer task is the event `Tick(a)`. The attempt outcome `a` is how the foreign `startRemoteProvisioning()` call ends: success, or an exception whose message may be null.

**`AVSApp`'s listen button** (module `ListenButton`, file `listen_button.dfy`) has three states: `START`, `STOP` and `PROCESSING`.
- `wake()` (also reached from `onWakeWordDetected()`) reports user activity to the controller. From `START` it starts recording and hands the controller a request listener. From any other state it stops recording.
- The request listener's `onRequestSuccess` wakes the app again only while the button is STOP. Its `onRequestError` always wakes it, so an error callback in START starts a recording. Both then call `finishProcessing()`.

The controller calls are logged as a trace. The step functions `WakeStep`, `RequestSuccessStep` and `RequestErrorStep` state what each operation does. The class `AvsApp` runs the same code imperatively. The registration URL shown by `displayRegCode` is the pure function `RegistrationUrl`.

The code does not do the following, and neither does the model:
- The broadcast gives no per-listener exception isolation. The first listener that throws ends it, and the exception reaches the caller.
- The broadcast iterates the live set; it does not take a snapshot.
- Nothing caps broadcasts at one per coordinator. The coordinator broadcasts whenever its `onAccessTokenReceived` is called.
- A success callback that arrives while still recording stops the recording. It does not restart capture.
- In companion-service mode, the thread built for an immediate first attempt is never started. Every attempt comes from the timer.

## Model

| member | source | states |
|---|---|---|
| `Auth.AuthSetup.constructor` | samples/javaclient/src/main/java/com/amazon/alexa/avs/auth/AuthSetup.java:43-59 | a new coordinator has no listeners, `provisioningSuccess` false, a running timer with no task, and no server start or attempt |
| `Auth.AuthSetup.AddAccessTokenListener` | samples/javaclient/src/main/java/com/amazon/alexa/avs/auth/AuthSetup.java:61-63 | adding a registered listener leaves the set unchanged; adding a new one grows the set by exactly that listener |
| `Auth.AuthSetup.OnAccessTokenReceived` | samples/javaclient/src/main/java/com/amazon/alexa/avs/auth/AuthSetup.java:136-141 | if no listener throws, every registered listener gets the token exactly once and no one else does; if one throws, the broadcast stops right after that listener, every earlier recipient was a non-throwing registered listener, and the exception is passed on; the listener set is unchanged |
| `Auth.BroadcastReachesEachOnce` | samples/javaclient/src/main/java/com/amazon/alexa/avs/auth/AuthSetup.java:136-141 | in a complete broadcast a listener gets the token once if registered and not at all otherwise, so there are exactly as many deliveries as listeners |
| `Auth.Start` | samples/javaclient/src/main/java/com/amazon/alexa/avs/auth/AuthSetup.java:69-133 | companion-app mode starts the server once and schedules nothing; companion-service mode schedules one task with delay 0 and period 30000 ms, or fails when the timer is no longer running; neither mode makes an attempt or touches the flag; the invariant is kept |
| `Auth.AuthSetup.StartProvisioningThread` | samples/javaclient/src/main/java/com/amazon/alexa/avs/auth/AuthSetup.java:69-133 | the new state is the one `Start` gives; when scheduling throws, nothing changes and the error is returned |
| `Auth.TickStep` | samples/javaclient/src/main/java/com/amazon/alexa/avs/auth/AuthSetup.java:113-130 | a tick of a stopped or empty timer does nothing; a tick with the flag set makes no attempt and changes nothing; otherwise one attempt is made and: a success sets the flag and cancels the timer; a failure with a message keeps the flag false and the timer running, reporting the sign-in hint exactly when the message starts with "InvalidSessionId"; a failure with a null message stops the timer; the invariant is kept |
| `Auth.AuthSetup.Tick` | samples/javaclient/src/main/java/com/amazon/alexa/avs/auth/AuthSetup.java:113-130 | the new state and report are those of `TickStep`; the listeners and deliveries are unchanged |
| `Auth.RunTicks` | samples/javaclient/src/main/java/com/amazon/alexa/avs/auth/AuthSetup.java:113-132 | folds `TickStep` over consecutive timer firings, in order, with one report per firing; the retry properties are the lemmas below |
| `Auth.RunTicksKeepsConsistent` | samples/javaclient/src/main/java/com/amazon/alexa/avs/auth/AuthSetup.java:116-120 | any run of ticks keeps the invariant that success implies a cancelled timer and at least one attempt |
| `Auth.StoppedTimerIgnoresTicks` | samples/javaclient/src/main/java/com/amazon/alexa/avs/auth/AuthSetup.java:120-132 | once the timer is cancelled or dead, or holds no task, no later firing runs or changes anything |
| `Auth.SuccessIsFinal` | samples/javaclient/src/main/java/com/amazon/alexa/avs/auth/AuthSetup.java:116-120 | once `provisioningSuccess` is true it stays true, the state never changes again and no further attempt is made |
| `Auth.AttemptsComeFromTicks` | samples/javaclient/src/main/java/com/amazon/alexa/avs/auth/AuthSetup.java:96-132 | the number of `startRemoteProvisioning()` calls grows by exactly the number of ticks that made an attempt |
| `Auth.AtMostOneSuccess` | samples/javaclient/src/main/java/com/amazon/alexa/avs/auth/AuthSetup.java:116-120 | however many ticks run, at most one provisions the device, and none does once the flag is set |
| `Auth.FailuresKeepRetrying` | samples/javaclient/src/main/java/com/amazon/alexa/avs/auth/AuthSetup.java:121-127 | failures with a message, with or without the "InvalidSessionId" prefix, leave the flag false and the timer armed; every tick makes one attempt and reports the hint exactly for prefixed messages |
| `Auth.ProvisionedAtFirstSuccess` | samples/javaclient/src/main/java/com/amazon/alexa/avs/auth/AuthSetup.java:116-120 | after k failures with a message, the first success sets the flag and cancels the timer after exactly k+1 attempts, and no later tick runs |
| `Auth.NullMessageEndsRetries` | samples/javaclient/src/main/java/com/amazon/alexa/avs/auth/AuthSetup.java:121-122 | a failure with a null message after k failures with a message kills the timer after k+1 attempts; the flag stays false and no later tick runs |
| `Auth.MessageOnlyChangesTheHint` | samples/javaclient/src/main/java/com/amazon/alexa/avs/auth/AuthSetup.java:121-127 | two failures whose messages differ leave the same coordinator state |
| `Auth.CompanionAppStartsServerOnce` | samples/javaclient/src/main/java/com/amazon/alexa/avs/auth/AuthSetup.java:70-89 | in companion-app mode the server is started once, no task is scheduled, and no later tick makes an attempt, so a failure is never retried |
| `Auth.CompanionServiceFirstAttemptIsATick` | samples/javaclient/src/main/java/com/amazon/alexa/avs/auth/AuthSetup.java:96-132 | in companion-service mode, starting schedules the single task (0 ms, 30000 ms) and makes no attempt; the first tick makes the first attempt |
| `ListenButton.AvsApp.constructor` | samples/javaclient/src/main/java/com/amazon/alexa/avs/AVSApp.java:122 | after construction the button is START and no controller call has been made |
| `ListenButton.WakeStep` | samples/javaclient/src/main/java/com/amazon/alexa/avs/AVSApp.java:145-176 | `wake()` first reports user activity exactly once; from START it moves to STOP with exactly one startRecording; from STOP or PROCESSING it moves to PROCESSING with one stopRecording and no startRecording |
| `ListenButton.AvsApp.Wake` | samples/javaclient/src/main/java/com/amazon/alexa/avs/AVSApp.java:145-176 | the new state and the calls appended are those of `WakeStep` |
| `ListenButton.AvsApp.OnWakeWordDetected` | samples/javaclient/src/main/java/com/amazon/alexa/avs/AVSApp.java:224-228 | a detected wake word acts exactly as `wake()` |
| `ListenButton.FinishAfter` | samples/javaclient/src/main/java/com/amazon/alexa/avs/AVSApp.java:178-181 | `finishProcessing()` always ends in START and adds exactly one processingFinished and no other call |
| `ListenButton.AvsApp.FinishProcessing` | samples/javaclient/src/main/java/com/amazon/alexa/avs/AVSApp.java:178-181 | the button is START and exactly one processingFinished is appended |
| `ListenButton.RequestSuccessStep` | samples/javaclient/src/main/java/com/amazon/alexa/avs/AVSApp.java:153-161 | a success callback ends in START with one processingFinished and never starts a recording; from STOP it issues exactly one stopRecording, and otherwise it makes no recording call |
| `ListenButton.AvsApp.OnRequestSuccess` | samples/javaclient/src/main/java/com/amazon/alexa/avs/AVSApp.java:153-161 | the new state and the calls appended are those of `RequestSuccessStep` |
| `ListenButton.RequestErrorStep` | samples/javaclient/src/main/java/com/amazon/alexa/avs/AVSApp.java:163-169 | an error callback ends in START with one user activity and one processingFinished; from STOP or PROCESSING it issues one stopRecording and no startRecording; from START it starts a recording |
| `ListenButton.AvsApp.OnRequestError` | samples/javaclient/src/main/java/com/amazon/alexa/avs/AVSApp.java:163-169 | the new state and the calls appended are those of `RequestErrorStep` |
| `ListenButton.EventKeepsCaptureInvariant` | samples/javaclient/src/main/java/com/amazon/alexa/avs/AVSApp.java:145-181 | a wake, a success callback, or an error callback outside START keeps the invariant that a recording is open exactly while the button is STOP |
| `ListenButton.CapturesNeverOverlap` | samples/javaclient/src/main/java/com/amazon/alexa/avs/AVSApp.java:145-181 | for any sequence of wake words and callbacks with no error callback in START, no startRecording is issued while a recording is open, and a recording is open exactly when the button ends in STOP |
| `ListenButton.ErrorCallbackWhileIdleOverlaps` | samples/javaclient/src/main/java/com/amazon/alexa/avs/AVSApp.java:163-171 | an error callback in START starts a recording yet leaves the button START, so the next wake starts a second, overlapping recording |
| `ListenButton.RegistrationUrl` | samples/javaclient/src/main/java/com/amazon/alexa/avs/AVSApp.java:212-213 | the registration URL is the service URL, then "/provision/", then the registration code |
| `ListenButton.RegCodeRoundTrip` | samples/javaclient/src/main/java/com/amazon/alexa/avs/AVSApp.java:212-213 | the registration code can be read back from the URL built for it |
| `ListenButton.RegistrationUrlOfRegCode` | samples/javaclient/src/main/java/com/amazon/alexa/avs/AVSApp.java:212-213 | every URL that starts with the service URL and "/provision/" is the URL built for the code that follows |
| `ListenButton.AvsApp.DisplayRegCode` | samples/javaclient/src/main/java/com/amazon/alexa/avs/AVSApp.java:209-217 | `displayRegCode` shows the URL `RegistrationUrl` builds from the configured service URL |

## Left out

- Threads, `java.util.Timer` scheduling and the `synchronized` modifiers are left out. Each timer firing and each callback is one sequential event. Ticks on one `java.util.Timer` run on a single thread, so attempts never overlap. Races between `addAccessTokenListener` and a running broadcast on the unsynchronized `HashSet` are not modelled.
- Timing of the fixed-rate schedule is left out. The delay and period are recorded, but ticks carry no time, so the catch-up runs after a long attempt are not represented.
- The auth managers, `CompanionAppProvisioningServer`, `OAuth2ClientForPkce`, `CodeChallengeWorkflow` and `CompanionServiceClient` are not part of this model. They do network I/O.
  - Only the outcome of `startRemoteProvisioning()` is an input.
  - The companion-app server's outcome changes no coordinator state, since a failure is only logged, so it is not an input.
  - The auth managers call `onAccessTokenReceived`. In the model the environment calls it.
- A listener is identified by a number. What a listener does with the token is only the choice of whether it throws.
- Logging and `System.out` output are left out. The one log line that depends on data, the "did you sign in" hint, is reported as `Retrying(signInHint)`.
- In `AVSApp`, the Swing user interface, `main`, and the constructors' wiring of the controller, factories and configuration are left out. The model starts from the state those constructors leave. Also left out: `getAppVersion` (classpath file I/O), `onExpectSpeechDirective` (a sleep-polling thread with no state effect), `rmsChanged` and `onStopCaptureDirective` (empty bodies), and the empty `onAccessTokenReceived`.
- `ListenButton.CapturesNeverOverlap`: assumes that no error callback arrives while the button is START. Whether the controller can deliver one then is decided by `AVSController`, which is not part of this model. `ListenButton.ErrorCallbackWhileIdleOverlaps` shows what happens if it does.
