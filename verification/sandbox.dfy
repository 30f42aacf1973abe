/** The sandboxed stream processor (src/worker/sandbox.ts, `streamMeeting`),
    the one the queue worker loads. It is modelled as a step function over
    the worker's state, driven by a sequence of events: the pause-image
    download finishing, the browser join finishing, control messages, and
    one turn of the status-polling loop.

    ffmpeg processes are abstract process ids handed out by a counter; `live`
    holds those spawned and not yet killed, so an orphaned process is one in
    `live` that no handle refers to. */
module Sandbox {
  import opened Common
  import opened Traces
  import Gateway

  /** Where `streamMeeting` is. */
  datatype Phase =
    | Downloading  // fetching the pause image; not yet subscribed
    | Launching    // subscribed, status `starting`, opening the browser and joining
    | Streaming    // inside the status-polling loop
    | Finished     // torn down and the promise resolved
    | Crashed      // an exception reached the catch: logged, promise never settled

  datatype Worker = Worker(
    jobId: string,
    phase: Phase,
    status: Status,
    conf: Option<Pid>,
    pause: Option<Pid>,
    live: set<Pid>,
    nextPid: Pid)

  /** What the worker does to the outside world. */
  datatype Effect =
    | Subscribe(channel: string)
    | WriteStatus(status: Status)
    | SpawnConference(pid: Pid)
    | SpawnPauseImage(pid: Pid)
    | Kill(pid: Pid)
    | CloseBrowser
    | StopDisplay
    | Resolve

  /** `Joined` and `Tick` carry whether capturing the conference tab
      (`getStream` inside `streamVideoconference`) succeeds when it is
      attempted in that step; `Tick` also carries whether `browser.close()`
      succeeds when the step tears down. */
  datatype Event =
    | Downloaded(ok: bool)
    | Joined(joined: bool, captureOk: bool)
    | Message(action: string)
    | Tick(captureOk: bool, closeOk: bool)

  /** A worker freshly handed job `jobId` whose stored status is `status`. */
  function Init(jobId: string, status: Status): Worker
  {
    Worker(jobId, Downloading, status, None, None, {}, 0)
  }

  /** Pids below `nextPid` have been handed out; the rest are fresh. */
  function Spawn(w: Worker): (Worker, Pid)
  {
    (w.(live := w.live + {w.nextPid}, nextPid := w.nextPid + 1), w.nextPid)
  }

  /** `kill('SIGKILL')` on a handle, when the handle is non-null. */
  function KillHandle(w: Worker, h: Option<Pid>): (r: Out<Worker, Effect>)
    ensures h.None? ==> r == Out(w, [])
    ensures h.Some? ==> r.state == w.(live := w.live - {h.value}) && r.effects == [Kill(h.value)]
  {
    if h.Some? then Out(w.(live := w.live - {h.value}), [Kill(h.value)]) else Out(w, [])
  }

  // ---------------------------------------------------------------------------
  // Startup

  /** The download result is only logged: whatever it is, the worker
      subscribes to its channel and writes `starting`. */
  function OnDownloaded(w: Worker, ok: bool): (r: Out<Worker, Effect>)
    requires w.phase == Downloading
    ensures r.state.phase == Launching && r.state.status == Starting
    ensures r.effects == [Subscribe(WorkerChannel(w.jobId)), WriteStatus(Starting)]
    ensures r.state.live == w.live && r.state.conf == w.conf && r.state.pause == w.pause
  {
    Out(w.(phase := Launching, status := Starting),
        [Subscribe(WorkerChannel(w.jobId)), WriteStatus(Starting)])
  }

  /** Joining the meeting. A failed join is only logged: the status is left
      as it is and the promise never settles. After a successful join the
      worker writes `running` and starts the conference stream; if capturing
      the tab then fails, the spawned ffmpeg is left running and the worker
      ends in the same catch. */
  function OnJoined(w: Worker, joined: bool, captureOk: bool): (r: Out<Worker, Effect>)
    requires w.phase == Launching
    ensures !joined ==> r == Out(w.(phase := Crashed), [])
    ensures joined ==> r.effects == [WriteStatus(Running), SpawnConference(w.nextPid)]
                       && r.state.status == Running
                       && r.state.live == w.live + {w.nextPid}
    ensures joined && captureOk ==> r.state.phase == Streaming && r.state.conf == Some(w.nextPid)
                                    && r.state.pause.None?
    ensures joined && !captureOk ==> r.state.phase == Crashed && r.state.conf == w.conf
  {
    if !joined then Out(w.(phase := Crashed), [])
    else
      var (w1, c) := Spawn(w.(status := Running));
      if captureOk then
        Out(w1.(phase := Streaming, conf := Some(c), pause := None), [WriteStatus(Running), SpawnConference(c)])
      else
        Out(w1.(phase := Crashed), [WriteStatus(Running), SpawnConference(c)])
  }

  // ---------------------------------------------------------------------------
  // Control messages

  /** The message handler: pause, resume and stop write the same
      placeholder status the gateway writes for that command, whatever the
      current status; any other action is ignored. */
  function OnMessage(w: Worker, action: string): (r: Out<Worker, Effect>)
    ensures ParseAction(action).None? ==> r == Out(w, [])
    ensures ParseAction(action).Some? ==>
              var s := Gateway.Transitional(ParseAction(action).value);
              r == Out(w.(status := s), [WriteStatus(s)])
  {
    match ParseAction(action)
    case None => Out(w, [])
    case Some(Pause) => Out(w.(status := Pausing), [WriteStatus(Pausing)])
    case Some(Resume) => Out(w.(status := Resuming), [WriteStatus(Resuming)])
    case Some(Stop) => Out(w.(status := Stopping), [WriteStatus(Stopping)])
  }

  /** The handler never consults the status: two workers that differ only
      in status react to a message with the same effects and end in the
      same status. */
  lemma MessageIgnoresStatus(w: Worker, s1: Status, s2: Status, action: string)
    ensures OnMessage(w.(status := s1), action).effects == OnMessage(w.(status := s2), action).effects
    ensures ParseAction(action).Some? ==>
              OnMessage(w.(status := s1), action).state == OnMessage(w.(status := s2), action).state
  {
  }

  // ---------------------------------------------------------------------------
  // The status-polling loop

  /** The `pausing` branch: write `paused`, start a pause-image stream, and
      kill the conference stream if there is a handle. */
  function PauseBranch(w: Worker): (r: Out<Worker, Effect>)
    requires w.status == Pausing
    ensures r.state.status == Paused && r.state.phase == w.phase
    ensures r.state.pause == Some(w.nextPid) && r.state.conf == w.conf
    ensures r.state.live == (w.live + {w.nextPid}) - (if w.conf.Some? then {w.conf.value} else {})
    ensures r.state.nextPid == w.nextPid + 1
    ensures r.effects == [WriteStatus(Paused), SpawnPauseImage(w.nextPid)]
                         + (if w.conf.Some? then [Kill(w.conf.value)] else [])
  {
    var (w1, p) := Spawn(w.(status := Paused));
    var k := KillHandle(w1.(pause := Some(p)), w.conf);
    Out(k.state, [WriteStatus(Paused), SpawnPauseImage(p)] + k.effects)
  }

  /** The `resuming` branch: write `running`, start a fresh conference
      stream, and kill the pause-image stream if there is a handle. When the
      capture fails the new ffmpeg is left behind and the worker crashes. */
  function ResumeBranch(w: Worker, captureOk: bool): (r: Out<Worker, Effect>)
    requires w.status == Resuming
    ensures r.state.status == Running && r.state.nextPid == w.nextPid + 1
    ensures |r.effects| >= 2 && r.effects[..2] == [WriteStatus(Running), SpawnConference(w.nextPid)]
    ensures captureOk ==>
              && r.state.phase == w.phase
              && r.state.conf == Some(w.nextPid) && r.state.pause == w.pause
              && r.state.live == (w.live + {w.nextPid}) - (if w.pause.Some? then {w.pause.value} else {})
              && r.effects == [WriteStatus(Running), SpawnConference(w.nextPid)]
                              + (if w.pause.Some? then [Kill(w.pause.value)] else [])
    ensures !captureOk ==>
              r.state.phase == Crashed && r.state.live == w.live + {w.nextPid}
              && r.state.conf == w.conf && r.state.pause == w.pause && |r.effects| == 2
  {
    var (w1, c) := Spawn(w.(status := Running));
    if captureOk then
      var k := KillHandle(w1.(conf := Some(c)), w.pause);
      Out(k.state, [WriteStatus(Running), SpawnConference(c)] + k.effects)
    else
      Out(w1.(phase := Crashed), [WriteStatus(Running), SpawnConference(c)])
  }

  /** After the loop: write `stopped`, close the browser, stop the display,
      kill each stream that has a handle, then resolve. When closing the
      browser throws, the catch only logs: no stream is killed and the
      promise never settles. */
  function Teardown(w: Worker, closeOk: bool): (r: Out<Worker, Effect>)
    ensures r.state.status == Stopped
    ensures r.state.phase == (if closeOk then Finished else Crashed)
    ensures |r.effects| >= 2 && r.effects[..2] == [WriteStatus(Stopped), CloseBrowser]
    ensures closeOk ==>
              && r.state.live == w.live - (if w.conf.Some? then {w.conf.value} else {})
                                        - (if w.pause.Some? then {w.pause.value} else {})
              && r.effects == [WriteStatus(Stopped), CloseBrowser, StopDisplay]
                              + (if w.conf.Some? then [Kill(w.conf.value)] else [])
                              + (if w.pause.Some? then [Kill(w.pause.value)] else [])
                              + [Resolve]
    ensures !closeOk ==> r.state.live == w.live && |r.effects| == 2
  {
    if !closeOk then
      Out(w.(status := Stopped, phase := Crashed), [WriteStatus(Stopped), CloseBrowser])
    else
      var w1 := w.(status := Stopped, phase := Finished);
      var k1 := KillHandle(w1, w.conf);
      var k2 := KillHandle(k1.state, w.pause);
      Out(k2.state, [WriteStatus(Stopped), CloseBrowser, StopDisplay] + k1.effects + k2.effects + [Resolve])
  }

  /** One turn of `while (status !== "stopping")`: leave the loop and tear
      down on `stopping`; otherwise settle `pausing`, then settle `resuming`
      (the second test reads the status the first may have written), then
      sleep. */
  function Poll(w: Worker, captureOk: bool, closeOk: bool): (r: Out<Worker, Effect>)
    requires w.phase == Streaming
    ensures w.status == Stopping ==> r == Teardown(w, closeOk)
    ensures w.status == Pausing ==> r == PauseBranch(w)
    ensures w.status == Resuming ==> r == ResumeBranch(w, captureOk)
    ensures w.status !in {Stopping, Pausing, Resuming} ==> r == Out(w, [])
  {
    if w.status == Stopping then Teardown(w, closeOk)
    else
      var a := if w.status == Pausing then PauseBranch(w) else Out(w, []);
      var b := if a.state.status == Resuming then ResumeBranch(a.state, captureOk) else Out(a.state, []);
      Out(b.state, a.effects + b.effects)
  }

  /** The loop is left only when it observes `stopping`: settled statuses,
      `running` and `paused` included, keep it going. It finishes and
      resolves only if the browser then closes. */
  lemma LoopExitsOnlyOnStopping(w: Worker, captureOk: bool, closeOk: bool)
    requires w.phase == Streaming
    ensures Poll(w, captureOk, closeOk).state.phase == Finished <==> w.status == Stopping && closeOk
    ensures Resolve in Poll(w, captureOk, closeOk).effects <==> w.status == Stopping && closeOk
  {
    if w.status == Pausing {
      assert Resolve !in PauseBranch(w).effects;
    } else if w.status == Resuming {
      assert Resolve !in ResumeBranch(w, captureOk).effects;
    }
  }

  // ---------------------------------------------------------------------------
  // Event dispatch

  /** One event. Events that do not belong to the current phase change
      nothing; messages are heard from the subscription on, even after the
      promise has resolved or the startup has crashed. */
  function Step(w: Worker, e: Event): Out<Worker, Effect>
  {
    match e
    case Downloaded(ok) => if w.phase == Downloading then OnDownloaded(w, ok) else Out(w, [])
    case Joined(j, c) => if w.phase == Launching then OnJoined(w, j, c) else Out(w, [])
    case Message(a) => if w.phase == Downloading then Out(w, []) else OnMessage(w, a)
    case Tick(c, k) => if w.phase == Streaming then Poll(w, c, k) else Out(w, [])
  }

  /** A run over an event sequence: the final worker and every effect in order. */
  function Run(w: Worker, es: seq<Event>): Out<Worker, Effect>
  {
    Fold(Step, w, es)
  }

  /** A crash is final: no later event resolves the promise, leaves the
      crashed phase, or kills or spawns a process; the message handler's
      status writes are all that is left. */
  lemma {:induction false} CrashNeverResolves(w: Worker, es: seq<Event>)
    requires w.phase == Crashed
    ensures Run(w, es).state.phase == Crashed
    ensures Run(w, es).state.live == w.live
    ensures Resolve !in Run(w, es).effects
    ensures forall e :: e in Run(w, es).effects ==> e.WriteStatus?
    decreases |es|
  {
    if es != [] {
      var o := Step(w, es[0]);
      CrashNeverResolves(o.state, es[1..]);
      assert forall e :: e in o.effects ==> e.WriteStatus?;
      assert Run(w, es).effects == o.effects + Run(o.state, es[1..]).effects;
    }
  }

  /** The promise resolves in a run exactly when the run ends torn down. */
  lemma {:induction false} ResolvesIffFinished(w: Worker, es: seq<Event>)
    requires w.phase != Finished
    ensures Resolve in Run(w, es).effects <==> Run(w, es).state.phase == Finished
    decreases |es|
  {
    if es != [] {
      var o := Step(w, es[0]);
      if o.state.phase == Finished {
        StepResolvesIffFinishing(w, es[0]);
        FinishedStaysFinished(o.state, es[1..]);
      } else {
        StepResolvesIffFinishing(w, es[0]);
        ResolvesIffFinished(o.state, es[1..]);
      }
    }
  }

  lemma StepResolvesIffFinishing(w: Worker, e: Event)
    requires w.phase != Finished
    ensures Resolve in Step(w, e).effects <==> Step(w, e).state.phase == Finished
  {
    if e.Tick? && w.phase == Streaming {
      LoopExitsOnlyOnStopping(w, e.captureOk, e.closeOk);
    }
  }

  /** Once torn down, the worker stays torn down and resolves no second time. */
  lemma {:induction false} FinishedStaysFinished(w: Worker, es: seq<Event>)
    requires w.phase == Finished
    ensures Run(w, es).state.phase == Finished
    ensures Resolve !in Run(w, es).effects
    decreases |es|
  {
    if es != [] {
      FinishedStaysFinished(Step(w, es[0]).state, es[1..]);
    }
  }

  // ---------------------------------------------------------------------------
  // No orphaned ffmpeg under the gateway's command discipline

  /** An event the gateway could have caused: a control message only when
      the gateway's guard admits it from the worker's current status. Every
      capture and every browser close succeeds. */
  predicate Guarded(w: Worker, e: Event)
  {
    match e
    case Downloaded(_) => true
    case Joined(_, c) => c
    case Message(a) => ParseAction(a).Some? ==> Gateway.Admits(ParseAction(a).value, w.status)
    case Tick(c, k) => c && k
  }

  predicate GuardedTrace(w: Worker, es: seq<Event>)
    decreases |es|
  {
    es == [] || (Guarded(w, es[0]) && GuardedTrace(Step(w, es[0]).state, es[1..]))
  }

  /** Every live process is held by the handle the status says is active,
      and handles refer only to pids already handed out. */
  ghost predicate Inv(w: Worker)
  {
    && (w.conf.Some? ==> w.conf.value < w.nextPid)
    && (w.pause.Some? ==> w.pause.value < w.nextPid)
    && match w.phase
       case Downloading => w.live == {} && w.conf.None? && w.pause.None?
       case Launching => w.live == {} && w.conf.None? && w.pause.None? && w.status == Starting
       case Crashed => w.live == {} && w.status == Starting
       case Finished => w.live == {} && w.status == Stopped
       case Streaming =>
         match w.status
         case Running => w.conf.Some? && w.live == {w.conf.value}
         case Pausing => w.conf.Some? && w.live == {w.conf.value}
         case Paused => w.pause.Some? && w.live == {w.pause.value}
         case Resuming => w.pause.Some? && w.live == {w.pause.value}
         case Stopping => (w.conf.Some? && w.live == {w.conf.value})
                          || (w.pause.Some? && w.live == {w.pause.value})
         case _ => false
  }

  lemma StepKeepsInv(w: Worker, e: Event)
    requires Inv(w) && Guarded(w, e)
    ensures Inv(Step(w, e).state)
  {
    if e.Tick? && w.phase == Streaming {
      if w.status == Pausing {
        var r := PauseBranch(w);
        assert w.live == {w.conf.value};
        assert r.state.live == {w.nextPid};
      } else if w.status == Resuming {
        var r := ResumeBranch(w, e.captureOk);
        assert r.state.live == {w.nextPid};
      }
    }
  }

  /** Driven only by commands the gateway admits, the worker never orphans an
      ffmpeg process, and once torn down no process it spawned is alive. */
  lemma {:induction false} GuardedRunLeavesNoOrphans(w: Worker, es: seq<Event>)
    requires Inv(w) && GuardedTrace(w, es)
    ensures Inv(Run(w, es).state)
    ensures Run(w, es).state.phase == Finished ==> Run(w, es).state.live == {}
    decreases |es|
  {
    if es != [] {
      StepKeepsInv(w, es[0]);
      GuardedRunLeavesNoOrphans(Step(w, es[0]).state, es[1..]);
    }
  }

  /** The initial worker satisfies the invariant. */
  lemma InitInv(jobId: string, status: Status)
    ensures Inv(Init(jobId, status))
  {
  }

  /** When closing the browser throws during teardown, the encoder the
      worker was streaming with is never killed: the worker ends in the
      catch with that process still alive, and no later event kills it or
      resolves the promise. */
  lemma FailedCloseOrphansEncoder(w: Worker, captureOk: bool, es: seq<Event>)
    requires Inv(w) && w.phase == Streaming && w.status == Stopping
    ensures var r := Poll(w, captureOk, false);
            && r.state.phase == Crashed && r.state.live != {}
            && (forall p :: Kill(p) !in r.effects) && Resolve !in r.effects
            && Run(r.state, es).state.live == w.live && Resolve !in Run(r.state, es).effects
  {
    var r := Poll(w, captureOk, false);
    CrashNeverResolves(r.state, es);
  }

  /** Running `a + b` ends where running `b` from the end of `a` ends. */
  lemma RunThrough(w: Worker, a: seq<Event>, b: seq<Event>, mid: Worker)
    requires Run(w, a).state == mid
    ensures Run(w, a + b).state == Run(mid, b).state
  {
    FoldAppend(Step, w, a, b);
  }

  /** The worker after joining, one pause and one loop turn: the
      conference encoder is killed and the pause-image encoder, pid 1, is
      the only process alive. */
  lemma PausedOnce()
    ensures Run(Init("j", Queued), [Downloaded(true), Joined(true, true), Message("pause"), Tick(true, true)]).state
            == Worker("j", Streaming, Paused, Some(0), Some(1), {1}, 2)
  {
    var w1 := Step(Init("j", Queued), Downloaded(true)).state;
    var w2 := Step(w1, Joined(true, true)).state;
    var w3 := Step(w2, Message("pause")).state;
    var w4 := Step(w3, Tick(true, true)).state;
    assert Run(w3, [Tick(true, true)]).state == w4;
    assert Run(w2, [Message("pause"), Tick(true, true)]).state == w4;
    assert Run(w1, [Joined(true, true), Message("pause"), Tick(true, true)]).state == w4;
  }

  /** From there a second pause spawns pid 2 over the handle of pid 1, and
      the stop kills only pid 2. */
  lemma PausedAgainThenStopped()
    ensures var r := Run(Worker("j", Streaming, Paused, Some(0), Some(1), {1}, 2),
                         [Message("pause"), Tick(true, true), Message("stop"), Tick(true, true)]);
            r.state.phase == Finished && r.state.live == {1}
  {
    var w4 := Worker("j", Streaming, Paused, Some(0), Some(1), {1}, 2);
    var w5 := Step(w4, Message("pause")).state;
    var w6 := Step(w5, Tick(true, true)).state;
    assert w6.live == {1, 2} && w6.pause == Some(2);
    var w7 := Step(w6, Message("stop")).state;
    var w8 := Step(w7, Tick(true, true)).state;
    assert w8.live == {1};
    assert Run(w7, [Tick(true, true)]).state == w8;
    assert Run(w6, [Message("stop"), Tick(true, true)]).state == w8;
    assert Run(w5, [Tick(true, true), Message("stop"), Tick(true, true)]).state == w8;
  }

  /** Without the guard the handler accepts a second pause while paused; the
      loop then overwrites the pause handle without killing the first
      pause-image ffmpeg, which survives the teardown. */
  lemma UnguardedPauseOrphansProcess()
    ensures var r := Run(Init("j", Queued),
                         [Downloaded(true), Joined(true, true),
                          Message("pause"), Tick(true, true),
                          Message("pause"), Tick(true, true),
                          Message("stop"), Tick(true, true)]);
            r.state.phase == Finished && r.state.live == {1}
  {
    var a := [Downloaded(true), Joined(true, true), Message("pause"), Tick(true, true)];
    var b := [Message("pause"), Tick(true, true), Message("stop"), Tick(true, true)];
    PausedOnce();
    PausedAgainThenStopped();
    RunThrough(Init("j", Queued), a, b, Worker("j", Streaming, Paused, Some(0), Some(1), {1}, 2));
    assert a + b == [Downloaded(true), Joined(true, true), Message("pause"), Tick(true, true),
                     Message("pause"), Tick(true, true), Message("stop"), Tick(true, true)];
  }
}
