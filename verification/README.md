# BBB streaming server: control plane and stream workers in Dafny

This project models the core of a service that streams BigBlueButton meetings to an RTMP
endpoint. The core has four parts:

- **The control-plane gateway** (`Gateway`, gateway.dfy). It validates a submission, derives the
  job id from the meeting fingerprint `sha256(meetingID + "@" + host)`, enqueues the job and sets
  its progress to `queued`. It answers inspection requests. It admits or refuses `stop`, `pause`
  and `resume` by the job's current status, writes a transitional status (`stopping`, `pausing`,
  `resuming`) and publishes the action. It is a pure function from a request and the store of
  progress records to a response, the new store and the effects (enqueue, publish).
- **The sandboxed worker** (`Sandbox`, sandbox.dfy). Its message handler only writes a
  transitional status. A one-second polling loop turns that status into process changes: it
  starts a pause-image ffmpeg and kills the conference ffmpeg, or the reverse, and tears
  everything down on `stopping`. It is a step function over download, join, message and
  loop-turn events.
- **The flag-routed worker** (`LiveStream`, livestream.dfy). It is the `BBBLiveStream` class: three
  ffmpeg processes run side by side, and a `showPauseImage` flag decides which encoder's
  output chunks reach the RTMP process. Its startup and `stopStream` are modelled, along with the
  interleaving of control messages and data chunks.
- **The browser helpers** (`PuppeteerStream`, puppeteer.dfy). This covers:
  - `addToArgs` and the rewriting `launch` does to Chrome's options;
  - the FIFO mutex around the tab query;
  - the option defaults and guards of `getStream`;
  - the bounded probe for the recording extension;
  - the scan for a free WebSocket port.

Shared vocabulary is in `Common` (common.dfy): statuses, progress records, actions and
channel names. `Traces` (traces.dfy) holds the generic fold of a step function over an event
sequence, with its append lemmas.

Processes are abstract ids drawn from a counter. A worker's `live` set holds the processes it
spawned and has not yet killed, so an orphaned process is a live id that no handle refers to.
Every interaction with Redis, BullMQ, Chrome, ffmpeg or the network is an effect in the
returned list or a parameter that stands for the environment's answer.

The model follows the code as written. In particular:
- the `stop` guard admits only `running` and `paused`;
- re-submitting a meeting overwrites its progress with `queued`; there is no de-duplication
  or retry logic in the gateway;
- the sandboxed worker never settles its promise after a startup error;
- neither worker has a one-shot "closing" guard;
- the gateway publishes commands on a channel that no worker subscribes to. `Gateway.Command`
  keeps that channel, and the corrected channel is proved separately (see Findings).

## Model

| member | source | states |
|---|---|---|
| Common.ParseAction | src/worker/sandbox.ts:65-74 | a message's action is recognised exactly when it is the wire name of pause, resume or stop |
| Common.ParseActionName | src/worker/BBBLiveStream.ts:82-95 | parsing inverts the wire name of every action |
| Common.PauseImageFile | src/worker/sandbox.ts:34 | the pause image goes to `/tmp/pause-image-` + job id + `.jpg`, and the job id can be read back from the path |
| Common.ChannelsNeverMeet | src/controller/app.ts:200 | the `job-` channel the gateway publishes on never equals any worker's `meeting-` subscription channel |
| Common.WorkerChannelInjective | src/worker/sandbox.ts:50 | two jobs share a worker channel only if they are the same job |
| Gateway.SchemaErrors | src/controller/app.ts:67-81 | the schema passes iff `joinUrl` and `rtmpUrl` are present and non-empty; each missing field yields exactly one "Invalid value" error for its path, `joinUrl`'s first, and there are no others |
| Gateway.QueryGet | src/controller/app.ts:122-124 | the `meetingID` lookup returns the value of the first pair with that name, and nothing iff no pair has it |
| Gateway.Submit | src/controller/app.ts:84-164 | the job is enqueued, and a 201 returned, iff the submission is acceptable; rejections leave the store alone, and each comes with its own 422 error list in the source's order; success gives 201 with `{queued,0,0}` under the fingerprint id, plus an enqueue with `removeOnComplete` |
| Gateway.SameMeetingSameJob | src/controller/app.ts:140 | two acceptable submissions naming the same meeting on the same host get the same job id, whatever else differs |
| Gateway.AfterLastAtRecoversHost | src/controller/app.ts:140 | the text after the last `@` of the hashed string is the host |
| Gateway.FingerprintInputInjective | src/controller/app.ts:140 | the hashed string determines the meeting id and the host (hosts contain no `@`), so distinct meetings collide only through SHA-256 |
| Gateway.Inspect | src/controller/app.ts:166-179 | 404 "Job not found" iff the id is unknown, otherwise 200 with that job's stored progress |
| Gateway.InspectAfterSubmit | src/controller/app.ts:160-179 | right after an accepted submission, inspecting its id shows `{queued,0,0}`, and every other job is shown as before |
| Gateway.Command | src/controller/app.ts:181-261 | 404 iff the job is unknown; 400 echoing the unchanged progress iff the guard refuses the status; otherwise the transitional status with zero counters, one publish of the action on `job-<id>`, and 202 with the new progress |
| Gateway.CommandReachesNoWorker | src/controller/app.ts:200 | every message a command publishes goes to a channel that no worker subscribes to |
| Gateway.JobChannelTargets | src/controller/app.ts:200 | commands for two jobs share a `job-` channel iff the jobs are equal |
| Gateway.InspectAfterCommand | src/controller/app.ts:166-261 | inspecting a job after a command shows the progress the command's reply echoed |
| Gateway.CommandChannel | src/worker/sandbox.ts:50 | corrected: the channel a command for a job should go to is the one that job's worker subscribes to, and no other job's |
| Gateway.CommandChannelTargets | src/worker/BBBLiveStream.ts:67 | corrected: commands for two jobs share a worker channel iff the jobs are equal |
| Gateway.CorrectedCommand | src/controller/app.ts:181-261 | corrected: the response and store of `Command`, with the admitted command's one message reaching the worker of its own job and no other |
| Gateway.StopGuardIsNarrow | src/controller/app.ts:190-197 | stop is refused with 400 and publishes nothing from queued, starting, pausing, resuming, stopping or stopped |
| Gateway.TransitionalAdmitsNothing | src/controller/app.ts:190-245 | no command is admitted from any transitional status |
| Gateway.AtMostOnePublishPerJob | src/controller/app.ts:181-261 | for any sequence of serialized commands with no worker writing in between, at most one message is published on each job's channel, and none once the job is transitional |
| Gateway.SubmitKeepsQuiet | src/controller/app.ts:84-164 | a submission publishes nothing, and a job no command can act on stays so, since a submission only writes `queued` |
| Gateway.AtMostOnePublishPerJobWithSubmissions | src/controller/app.ts:84-261 | for any sequence of serialized submissions and commands with no worker writing in between, at most one message is published on each job's channel, and none for a job that is unknown or neither running nor paused |
| Sandbox.OnDownloaded | src/worker/sandbox.ts:42-78 | whatever the download result, the worker subscribes to its channel and writes `starting` |
| Sandbox.OnJoined | src/worker/sandbox.ts:113-131 | a failed join crashes with the status unchanged; a join writes `running` and spawns the conference encoder; a failed capture then crashes with that encoder still alive |
| Sandbox.OnMessage | src/worker/sandbox.ts:63-75 | each action writes the same transitional status the gateway writes for it, whatever the current status; other actions change nothing |
| Sandbox.MessageIgnoresStatus | src/worker/sandbox.ts:63-75 | the handler's reaction does not depend on the current status |
| Sandbox.PauseBranch | src/worker/sandbox.ts:138-151 | `paused` is written and a pause-image encoder spawned; the conference encoder is killed if it has a handle; the live set gains the new encoder and loses only that one |
| Sandbox.ResumeBranch | src/worker/sandbox.ts:154-167 | `running` is written and a conference encoder spawned; the pause encoder is killed if it has a handle; a failed capture crashes with the new encoder alive |
| Sandbox.Teardown | src/worker/sandbox.ts:172-193 | `stopped` is written, then the browser closed; if that succeeds the display is stopped, each handled encoder killed and the promise resolved; if it throws the worker ends in the catch with every process still alive |
| Sandbox.Poll | src/worker/sandbox.ts:136-170 | one loop turn: teardown on `stopping`; the pause branch on `pausing`; the resume branch on `resuming`; nothing otherwise |
| Sandbox.LoopExitsOnlyOnStopping | src/worker/sandbox.ts:136-183 | a loop turn finishes the worker and resolves iff it observes `stopping` and the browser closes |
| Sandbox.CrashNeverResolves | src/worker/sandbox.ts:185-193 | after an error reaches the catch, no later event resolves the promise, leaves the crashed state, or kills or spawns a process: every later effect is a status write |
| Sandbox.ResolvesIffFinished | src/worker/sandbox.ts:172-183 | over any event sequence the promise resolves iff the worker ends torn down |
| Sandbox.FinishedStaysFinished | src/worker/sandbox.ts:183 | once torn down the worker stays so and never resolves again |
| Sandbox.StepKeepsInv | src/worker/sandbox.ts:136-180 | when every message is one the gateway's guard admits and every capture and browser close succeeds, every step keeps exactly the active encoder alive |
| Sandbox.GuardedRunLeavesNoOrphans | src/worker/sandbox.ts:136-180 | when every message is one the gateway's guard admits and every capture and browser close succeeds, no ffmpeg is orphaned, and nothing the worker spawned is alive after teardown |
| Sandbox.FailedCloseOrphansEncoder | src/worker/sandbox.ts:172-193 | when closing the browser throws, the active encoder is never killed and the promise never resolves, whatever happens later |
| Sandbox.InitInv | src/worker/sandbox.ts:30-37 | a fresh worker holds no processes |
| Sandbox.UnguardedPauseOrphansProcess | src/worker/sandbox.ts:138-141 | a second pause while paused overwrites the pause handle, and the first pause encoder survives the teardown |
| LiveStream.New | src/worker/BBBLiveStream.ts:37-49 | the job id, the job's current status and the job fields are copied, the pause-image path is derived from the job id, the flag is down and no resource is held |
| LiveStream.StreamVideoconference | src/worker/BBBLiveStream.ts:252-300 | ffmpeg is spawned first; without a page the call then fails with "Page not initialized", leaving it running |
| LiveStream.Open | src/worker/BBBLiveStream.ts:99-138 | after `openBBBMeeting` the display is assigned; the browser and page are assigned iff the open got past launching and creating them |
| LiveStream.StartProcesses | src/worker/BBBLiveStream.ts:161-163 | the RTMP, conference and pause-image processes are spawned in that order with fresh ids, and all three are live |
| LiveStream.StartedWrites | src/worker/BBBLiveStream.ts:153-165 | a successful startup writes `starting`, `running`, `running` and no other status |
| LiveStream.StartDownloadFailed | src/worker/BBBLiveStream.ts:55-64 | a failed pause-image download raises "Failed to download pause image" before any status is written |
| LiveStream.StartOpenFailed | src/worker/BBBLiveStream.ts:151-183 | when opening the meeting throws, only `starting` is written and the error is raised as "Error during streaming: " + its JSON |
| LiveStream.StartStream | src/worker/BBBLiveStream.ts:140-186 | subscription first and the resolver stored; no startup outcome resolves the promise; the status writes and raised error of each outcome; three live processes and routing attached only on success |
| LiveStream.CompleteStop | src/worker/BBBLiveStream.ts:188-211 | with the browser closed (or absent): `stopped` is written first; the browser is closed iff assigned, the display stopped iff assigned; the resolver is called last iff set; nothing is forwarded; only the live set and the status change |
| LiveStream.StopStream | src/worker/BBBLiveStream.ts:188-211 | `stopped` is written first and the browser closed iff assigned; when that close throws nothing after it runs, so no process is killed and the resolver is not called; otherwise the complete stop |
| LiveStream.StopStreamKills | src/worker/BBBLiveStream.ts:194-207 | `stopStream` kills exactly the processes its three handles refer to, and only if the browser, when assigned, closes |
| LiveStream.StopStreamRepeats | src/worker/BBBLiveStream.ts:188-211 | with no re-entry guard, a second `stopStream` whose browser closes repeats every step and changes nothing further |
| LiveStream.OnMessage | src/worker/BBBLiveStream.ts:78-96 | pause writes `paused` and raises the flag; resume writes `running` and lowers it; stop writes `stopping` then `stopped` and runs `stopStream`; other actions change nothing |
| LiveStream.ExactlyOneSource | src/worker/BBBLiveStream.ts:167-177 | for any flag value at most one encoder is routed, and exactly one when the RTMP process exists |
| LiveStream.OnData | src/worker/BBBLiveStream.ts:167-177 | a chunk is forwarded iff routing is attached and its source matches the flag |
| LiveStream.MessageForwardsNothing | src/worker/BBBLiveStream.ts:78-96 | control messages never write to the RTMP process |
| LiveStream.RunFrame | src/worker/BBBLiveStream.ts:78-96 | events never change the RTMP handle or the routing; the flag is the one the last pause or resume left |
| LiveStream.RoutingMatchesFlag | src/worker/BBBLiveStream.ts:167-177 | over any interleaving of messages and chunks, the RTMP process receives exactly, in order, the chunks whose source matched the flag when they arrived |
| PuppeteerStream.IncludesIff | src/worker/PuppeteerStream.ts:67 | `includes` holds iff the substring occurs at some position |
| PuppeteerStream.AppendToMatching | src/worker/PuppeteerStream.ts:66-72 | the map keeps the length and appends `","+value` to exactly the elements containing the argument |
| PuppeteerStream.AddToArgs | src/worker/PuppeteerStream.ts:60-74 | without a value the flag is pushed unless already an element; with one, matched elements get the value appended, and `arg+value` is pushed iff nothing matched |
| PuppeteerStream.AddFlagIdempotent | src/worker/PuppeteerStream.ts:60-63 | adding a flag without a value twice equals adding it once |
| PuppeteerStream.AddToArgsEstablishes | src/worker/PuppeteerStream.ts:60-74 | afterwards some element contains the argument |
| PuppeteerStream.ExtensionPath | src/worker/PuppeteerStream.ts:76-78 | the caller's extension path when truthy, the bundled one otherwise |
| PuppeteerStream.SizedArgs | src/worker/PuppeteerStream.ts:86-89 | the window-size and ozone arguments are appended iff both viewport dimensions are non-zero |
| PuppeteerStream.IgnoreMuteAudio | src/worker/PuppeteerStream.ts:95-98 | a falsy ignore list becomes exactly `["--mute-audio"]`; an existing list gains it once at the end unless present; `true` is kept |
| PuppeteerStream.HeadlessArgs | src/worker/PuppeteerStream.ts:100 | `--headless=new` is present afterwards in the new mode, pushed only when missing, and nothing changes otherwise |
| PuppeteerStream.Launch | src/worker/PuppeteerStream.ts:55-101 | `headless` becomes "new" iff it was "new" and false otherwise; only the new mode touches the ignore list |
| PuppeteerStream.HeadlessFlagOnce | src/worker/PuppeteerStream.ts:100 | a list holding `--headless=new` at most once holds it exactly once afterwards |
| PuppeteerStream.MuteAudioOnce | src/worker/PuppeteerStream.ts:97-98 | when the ignore list held `--mute-audio` at most once, it holds it exactly once afterwards |
| PuppeteerStream.Lock | src/worker/PuppeteerStream.ts:222-230 | granted at once iff the mutex is free; otherwise the caller joins the back of the queue |
| PuppeteerStream.Unlock | src/worker/PuppeteerStream.ts:232-235 | hands the still-held mutex to the oldest waiter, or frees it when nobody waits |
| PuppeteerStream.MutexStepKeepsInv | src/worker/PuppeteerStream.ts:219-235 | a non-empty queue implies the mutex is held, before and after every call |
| PuppeteerStream.GrantsInRequestOrder | src/worker/PuppeteerStream.ts:219-235 | over any call sequence, grants followed by waiters equal the initial waiters followed by the lock callers in order (FIFO) |
| PuppeteerStream.RetryPolicy | src/worker/PuppeteerStream.ts:244 | `{each:20,times:3}`, with each key overridden by the caller whenever the key is present, even as `undefined` |
| PuppeteerStream.ResolveOptions | src/worker/PuppeteerStream.ts:238-262 | rejects iff neither audio nor video; mimeType defaults to video/webm if video, else audio/webm; frameSize defaults to 20; tabQuery defaults to `{active:true}` |
| PuppeteerStream.ResolveIdempotent | src/worker/PuppeteerStream.ts:238-244 | resolving the resolved options again changes nothing |
| PuppeteerStream.FirstSuccess | src/worker/PuppeteerStream.ts:333-336 | the first tick in range whose probe succeeds, none failing before it, or none at all |
| PuppeteerStream.AssertExtensionLoaded | src/worker/PuppeteerStream.ts:331-339 | returns at the first successful probe within `times` attempts, waiting `each^tick` ms after each failure, as Node's `setTimeout` clamps it; throws the "Could not find START_RECORDING" error after `times` failures |
| PuppeteerStream.GetStream | src/worker/PuppeteerStream.ts:237-302 | the guard error first, leaving the mutex alone; a call finding the mutex held waits at the back of its queue; a throw while querying the tab leaves the mutex held; otherwise the mutex is handed to the oldest waiter or freed, then "Cannot find tab…" when the query finds no tab, then the TypeError of `(await wss).on` when the port scan found no port, then the extension probe's error |
| PuppeteerStream.LeakedLockStarves | src/worker/PuppeteerStream.ts:219-265 | once the mutex is held with nobody left to release it, no later `lock` is granted and every caller waits in arrival order |
| PuppeteerStream.FirstUsable | src/worker/PuppeteerStream.ts:28-46 | the least port in [55200, 65535] whose server listens or fails with an error other than EADDRINUSE, or none when every port is in use |
| PuppeteerStream.ScanPorts | src/worker/PuppeteerStream.ts:28-46 | the loop returns exactly that port: usable, every lower port in use; or none when every port is in use |

## Left out

- The `/health` and `/metrics` endpoints, which only read queue counters.
- Gateway.SchemaErrors: the `value` member of express-validator's error objects is not modelled,
  and body fields are strings or missing.
- BullMQ's own handling of a duplicate `jobId`. `Submit` records the enqueue as an effect and
  overwrites the progress, which is what the gateway's code does; what the queue does with the
  duplicate is library behaviour.
- Redis delivery, subscription failures and JSON parsing of messages. A message is its `action`
  string. An unparsable message is not modelled.
- Webhook posting, the BullMQ worker wiring (src/worker/app.ts), and the browser-side extension
  (src/worker/extension/options.ts). The compiled duplicates sandbox.js and options.js are also
  left out.
- The argument vectors of ffmpeg, Xvfb and Chrome in the two workers. Spawning and killing are
  abstract actions.
- SHA-256 and URL parsing. They are the `sha256Hex` and `parseUrl` parameters of `Gateway.Env`.
- The HTTPS download of the pause image. Its outcome is a boolean event.
- Sleeps and timeouts: the one-second loop delay, the 10-second click timeout and the close delays.
- Gateway.AtMostOnePublishPerJob: each request is modelled as one atomic step, and the same holds
  for Gateway.AtMostOnePublishPerJobWithSubmissions. In the code, each
  handler awaits `getJob` before checking the guard. So two concurrent `pause` requests can both
  read `running`, both pass the guard and both publish. Sandbox.GuardedRunLeavesNoOrphans relies
  on the gateway's guard in the same way.
- Sandbox.Teardown: only a throw from `browser.close()` is modelled. A failing `updateProgress`
  or `xvfb.stopSync()` is not modelled.
- LiveStream.StopStream: only a throw from `browser.close()` is modelled, not one from
  `updateProgress` or `xvfb.stopSync()`. What the unhandled rejection does to the process is not
  modelled either.
- Sandbox.OnMessage: the sandbox module's Redis client is shared by every job the process runs.
  Each modelled worker hears only its own messages.
- LiveStream.StartStream: startup is one atomic step, so a control message that arrives during
  one of its awaits is not interleaved with it. A `getStream` failure inside
  `streamVideoconference` during startup is not modelled either; it would leave the RTMP and
  conference processes running. The page check there always passes, because the meeting is
  opened first.
- LiveStream.OnMessage: `stopStream` is not awaited in the handler. Its steps are modelled as
  happening at once, in order.
- PuppeteerStream.Launch: the form that passes a Puppeteer instance as the first argument is not
  modelled. A missing options object is the all-unset `LaunchOptions`.
- `launch`'s start-up actions are not modelled: starting Puppeteer, the incognito toggle, opening
  the options page and wrapping `browser.close`. They drive the browser only.
  `getExtensionPage`'s two errors come from `waitForTarget` and are not modelled.
- `getStream`'s WebSocket connection handling, mute and unmute, and the recording settings it
  forwards are not modelled. The tab query's answer is the `tabFound` parameter and its error is
  `queryError`.
- PuppeteerStream.GetStream: a call that waits for the mutex is not resumed when the mutex is
  later handed to it. `Lock`, `Unlock` and `GrantsInRequestOrder` cover the hand-over.
- PuppeteerStream.AssertExtensionLoaded: `each` and `times` are integers. Fractional values are
  not modelled, and neither is `NaN` beyond the undefined case. A probe is true or false. An
  `evaluate` that rejects, which ends the loop at once with its own error, is not modelled.
- PuppeteerStream.ScanPorts: the race between `listening` and `error` is given as each port's
  first outcome.
- The log message `'...result: '+result ? 'success' : 'failed'` always logs "success" because of
  operator precedence. Logs are not modelled.
- Rolling fps and bitrate averaging, retry classification, a one-shot closing guard,
  end-of-meeting watchers and retry on resubmission are not modelled: none of them exists in
  this code.

## Findings

| source | as written | input that shows it | evidently intended | confidence | as-written member | corrected member |
|---|---|---|---|---|---|---|
| src/controller/app.ts:200 | the gateway publishes control messages on `"job-"+id`, while both workers subscribe to `"meeting-"+id` (src/worker/sandbox.ts:50) | any job id, e.g. `"abc"`: `"job-abc"` differs from `"meeting-abc"`, so stop, pause and resume never reach the worker | publish on the channel the worker of that job subscribes to | high; not executed | Common.ChannelsNeverMeet | Gateway.CommandChannel |
