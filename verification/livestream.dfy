/** The flag-routed worker variant (src/worker/BBBLiveStream.ts, class
    `BBBLiveStream`). Three ffmpeg processes run side by side: the RTMP
    output, the conference encoder and the pause-image encoder. Control
    messages set the job status and the `showPauseImage` flag directly, and
    each chunk either encoder emits is written to the RTMP output or dropped
    according to that flag.

    The object is an immutable record; each method is a function returning
    the new record and the effects it performed, in order. */
module LiveStream {
  import opened Common
  import opened Traces
  import Gateway

  /** The two encoders whose output can feed the RTMP process. */
  datatype Source = Conference | PauseImage

  /** What a spawned ffmpeg process does: the RTMP output, or one of the
      two encoders. */
  datatype Role = RtmpOutput | Encoder(source: Source)

  /** How far `openBBBMeeting` got before it threw: the display object is
      assigned before it is started, the browser once it has launched, the
      page once it has been created; the last stage covers navigating,
      sizing and clicking the listen-only button. */
  datatype OpenStage = StartDisplay | LaunchBrowser | CreatePage | JoinMeeting

  datatype OpenOutcome = Opened | OpenFailed(stage: OpenStage, errorJson: string)

  /** What the constructor copies from the job. */
  datatype Config = Config(
    jobId: string,
    joinUrl: string,
    pauseImageUrl: Option<string>,
    pauseImageFile: string,
    rtmpUrl: string)

  /** Which of the display, browser and page fields are assigned. */
  datatype Session = Session(xvfb: bool, browser: bool, page: bool)

  /** The three ffmpeg handles, the processes spawned and not yet killed,
      and the next fresh process id. */
  datatype Procs = Procs(
    rtmp: Option<Pid>,
    conference: Option<Pid>,
    pauseImage: Option<Pid>,
    live: set<Pid>,
    nextPid: Pid)

  /** A `BBBLiveStream` object: `status` is the last status it wrote,
      `streamEnded` whether the resolver is stored, `routing` whether the
      stdout handlers of the two encoders are attached. */
  datatype Streamer = Streamer(
    config: Config,
    status: Status,
    showPauseImage: bool,
    streamEnded: bool,
    routing: bool,
    session: Session,
    procs: Procs)

  datatype Effect =
    | Subscribe(channel: string)
    | WriteStatus(status: Status)
    | Spawn(role: Role, pid: Pid)
    | Kill(pid: Pid)
    | CloseBrowser
    | StopDisplay
    | Resolve
    | Forward(source: Source, chunk: nat)
    | Raise(msg: string)

  /** Events after startup: a control message, or a chunk on an encoder's
      stdout (the chunk's bytes are an opaque token). A message carries
      whether `browser.close()` succeeds should it run `stopStream`. */
  datatype Event = Message(action: string, closeOk: bool) | Data(source: Source, chunk: nat)

  /** The constructor: job fields copied, the pause-image path derived from
      the job id, the flag false and no resources held. */
  function New(jobId: string, data: Gateway.JobData, status: Status): (s: Streamer)
    ensures s.config.jobId == jobId && s.status == status
    ensures s.config.joinUrl == data.joinUrl && s.config.rtmpUrl == data.rtmpUrl
    ensures s.config.pauseImageUrl == data.pauseImageUrl
    ensures s.config.pauseImageFile == PauseImageFile(jobId)
    ensures !s.showPauseImage && !s.streamEnded && !s.routing
    ensures !s.session.xvfb && !s.session.browser && !s.session.page
    ensures s.procs.rtmp.None? && s.procs.conference.None? && s.procs.pauseImage.None? && s.procs.live == {}
  {
    Streamer(Config(jobId, data.joinUrl, data.pauseImageUrl, PauseImageFile(jobId), data.rtmpUrl),
             status, false, false, false, Session(false, false, false), Procs(None, None, None, {}, 0))
  }

  /** The status values among `effects`, in order. */
  function StatusWrites(effects: seq<Effect>): seq<Status>
  {
    if effects == [] then []
    else (if effects[0].WriteStatus? then [effects[0].status] else []) + StatusWrites(effects[1..])
  }

  lemma {:induction false} StatusWritesAppend(a: seq<Effect>, b: seq<Effect>)
    ensures StatusWrites(a + b) == StatusWrites(a) + StatusWrites(b)
    decreases |a|
  {
    if a == [] {
      assert a + b == b;
    } else {
      assert (a + b)[0] == a[0];
      assert (a + b)[1..] == a[1..] + b;
      StatusWritesAppend(a[1..], b);
    }
  }

  lemma {:induction false} NoStatusWrites(e: seq<Effect>)
    requires forall i :: 0 <= i < |e| ==> !e[i].WriteStatus?
    ensures StatusWrites(e) == []
    decreases |e|
  {
    if e != [] {
      NoStatusWrites(e[1..]);
    }
  }

  function SpawnAs(p: Procs, role: Role): (Procs, seq<Effect>)
  {
    (p.(live := p.live + {p.nextPid}, nextPid := p.nextPid + 1), [Spawn(role, p.nextPid)])
  }

  /** `streamVideoconference`: ffmpeg is spawned first, then the page is
      checked; without a page it throws "Page not initialized" and the
      spawned process is left running with no handle. */
  function StreamVideoconference(page: bool, p: Procs): (r: (Procs, seq<Effect>, Result<Pid>))
    ensures r.1 == [Spawn(Encoder(Conference), p.nextPid)]
    ensures r.0 == p.(live := p.live + {p.nextPid}, nextPid := p.nextPid + 1)
    ensures page <==> r.2 == Ok(p.nextPid)
    ensures !page ==> r.2 == Err("Page not initialized")
  {
    var (p1, e) := SpawnAs(p, Encoder(Conference));
    if page then (p1, e, Ok(p.nextPid)) else (p1, e, Err("Page not initialized"))
  }

  /** What `openBBBMeeting` leaves assigned. */
  function Open(ss: Session, outcome: OpenOutcome): (r: Session)
    ensures r.xvfb
    ensures r.browser <==> ss.browser || outcome.Opened? || outcome.stage in {CreatePage, JoinMeeting}
    ensures r.page <==> ss.page || outcome.Opened? || outcome.stage == JoinMeeting
  {
    match outcome
    case Opened => Session(true, true, true)
    case OpenFailed(StartDisplay, _) => ss.(xvfb := true)
    case OpenFailed(LaunchBrowser, _) => ss.(xvfb := true)
    case OpenFailed(CreatePage, _) => ss.(xvfb := true, browser := true)
    case OpenFailed(JoinMeeting, _) => Session(true, true, true)
  }

  /** The three ffmpeg processes started once the meeting is open (RTMP
      output, conference encoder, pause-image encoder, in that order). */
  function StartProcesses(p: Procs): (r: (Procs, seq<Effect>))
    ensures var n := p.nextPid;
            && r.0 == Procs(Some(n), Some(n + 1), Some(n + 2), p.live + {n, n + 1, n + 2}, n + 3)
            && r.1 == [Spawn(RtmpOutput, n), Spawn(Encoder(Conference), n + 1), Spawn(Encoder(PauseImage), n + 2)]
  {
    var (p1, e1) := SpawnAs(p, RtmpOutput);
    var (p2, e2, vc) := StreamVideoconference(true, p1);
    var (p3, e3) := SpawnAs(p2, Encoder(PauseImage));
    (p3.(rtmp := Some(p.nextPid), conference := Some(vc.value), pauseImage := Some(p2.nextPid)),
     e1 + e2 + e3)
  }

  /** The effects of a successful startup write `starting`, `running`,
      `running` and nothing else to the status. */
  lemma StartedWrites(channel: string, spawns: seq<Effect>)
    requires forall i :: 0 <= i < |spawns| ==> !spawns[i].WriteStatus?
    ensures StatusWrites([Subscribe(channel), WriteStatus(Starting), WriteStatus(Running)]
                         + (spawns + [WriteStatus(Running)])) == [Starting, Running, Running]
  {
    var head := [Subscribe(channel), WriteStatus(Starting), WriteStatus(Running)];
    var tail := spawns + [WriteStatus(Running)];
    HeadWrites(channel);
    TailWrites(spawns);
    StatusWritesAppend(head, tail);
  }

  lemma HeadWrites(channel: string)
    ensures StatusWrites([Subscribe(channel), WriteStatus(Starting), WriteStatus(Running)]) == [Starting, Running]
  {
    var head := [Subscribe(channel), WriteStatus(Starting), WriteStatus(Running)];
    assert StatusWrites(head[2..]) == [Running];
    assert StatusWrites(head[1..]) == [Starting, Running];
  }

  lemma TailWrites(spawns: seq<Effect>)
    requires forall i :: 0 <= i < |spawns| ==> !spawns[i].WriteStatus?
    ensures StatusWrites(spawns + [WriteStatus(Running)]) == [Running]
  {
    NoStatusWrites(spawns);
    StatusWritesAppend(spawns, [WriteStatus(Running)]);
    assert StatusWrites([WriteStatus(Running)]) == [Running];
  }

  /** Startup when the pause image cannot be downloaded: the error is
      raised before the status is touched. */
  function StartDownloadFailed(s: Streamer): (r: Out<Streamer, Effect>)
    ensures r.state == s.(streamEnded := true)
    ensures r.effects == [Subscribe(WorkerChannel(s.config.jobId)), Raise("Failed to download pause image")]
    ensures StatusWrites(r.effects) == []
  {
    var e := [Subscribe(WorkerChannel(s.config.jobId)), Raise("Failed to download pause image")];
    NoStatusWrites(e);
    Out(s.(streamEnded := true), e)
  }

  /** Startup when opening the meeting throws: `starting` has been written,
      whatever `openBBBMeeting` assigned stays assigned, and the error is
      raised with its JSON text. */
  function StartOpenFailed(s: Streamer, stage: OpenStage, errorJson: string): (r: Out<Streamer, Effect>)
    ensures r.state == s.(streamEnded := true, status := Starting,
                          session := Open(s.session, OpenFailed(stage, errorJson)))
    ensures |r.effects| == 3 && r.effects[0] == Subscribe(WorkerChannel(s.config.jobId))
    ensures r.effects[2] == Raise("Error during streaming: " + errorJson)
    ensures StatusWrites(r.effects) == [Starting]
  {
    var raise := Raise("Error during streaming: " + errorJson);
    var sub := [Subscribe(WorkerChannel(s.config.jobId))];
    var e := sub + [WriteStatus(Starting), raise];
    NoStatusWrites(sub);
    NoStatusWrites([raise]);
    StatusWritesAppend(sub, [WriteStatus(Starting)]);
    StatusWritesAppend(sub + [WriteStatus(Starting)], [raise]);
    assert e == (sub + [WriteStatus(Starting)]) + [raise];
    Out(s.(streamEnded := true, status := Starting, session := Open(s.session, OpenFailed(stage, errorJson))), e)
  }

  /** Startup that succeeds: `starting`, `running`, the three processes,
      `running` again, and the routing handlers attached. */
  function StartOpened(s: Streamer): (r: Out<Streamer, Effect>)
    requires s.procs.live == {}
    ensures r.state == s.(streamEnded := true, status := Running, routing := true,
                          session := Session(true, true, true), procs := StartProcesses(s.procs).0)
    ensures |r.effects| == 7 && r.effects[0] == Subscribe(WorkerChannel(s.config.jobId))
    ensures Resolve !in r.effects
    ensures StatusWrites(r.effects) == [Starting, Running, Running]
    ensures r.state.procs.rtmp.Some? && r.state.procs.conference.Some? && r.state.procs.pauseImage.Some?
    ensures r.state.procs.live
            == {r.state.procs.rtmp.value, r.state.procs.conference.value, r.state.procs.pauseImage.value}
    ensures |r.state.procs.live| == 3
  {
    var (procs, spawns) := StartProcesses(s.procs);
    var head := [Subscribe(WorkerChannel(s.config.jobId)), WriteStatus(Starting), WriteStatus(Running)];
    var e := head + (spawns + [WriteStatus(Running)]);
    StartedWrites(WorkerChannel(s.config.jobId), spawns);
    var n := s.procs.nextPid;
    assert procs.live == {n, n + 1, n + 2};
    Out(s.(streamEnded := true, status := Running, routing := true,
           session := Session(true, true, true), procs := procs), e)
  }

  /** `startStream`: subscribe, remember the resolver, download the pause
      image, then open the meeting and start the three processes.
      Both failures are raised inside the promise executor, so they do not
      settle the promise `startStream` returns; a download failure stops
      everything before the status is touched. */
  function StartStream(s: Streamer, downloadOk: bool, open: OpenOutcome): (r: Out<Streamer, Effect>)
    requires s.procs.live == {} && !s.routing
    ensures |r.effects| >= 2 && r.effects[0] == Subscribe(WorkerChannel(s.config.jobId))
    ensures r.state.streamEnded && Resolve !in r.effects
    ensures r.state.showPauseImage == s.showPauseImage
    ensures !downloadOk ==>
              && StatusWrites(r.effects) == []
              && r.effects[|r.effects| - 1] == Raise("Failed to download pause image")
              && r.state.procs.live == {}
    ensures downloadOk && open.OpenFailed? ==>
              && StatusWrites(r.effects) == [Starting]
              && r.effects[|r.effects| - 1] == Raise("Error during streaming: " + open.errorJson)
              && r.state.procs.live == {} && !r.state.routing
    ensures downloadOk && open.Opened? ==>
              && StatusWrites(r.effects) == [Starting, Running, Running]
              && r.state.status == Running && r.state.routing
              && r.state.procs.rtmp.Some? && r.state.procs.conference.Some? && r.state.procs.pauseImage.Some?
              && r.state.procs.live
                 == {r.state.procs.rtmp.value, r.state.procs.conference.value, r.state.procs.pauseImage.value}
              && |r.state.procs.live| == 3
  {
    if !downloadOk then StartDownloadFailed(s)
    else if open.OpenFailed? then StartOpenFailed(s, open.stage, open.errorJson)
    else StartOpened(s)
  }

  // ---------------------------------------------------------------------------
  // Teardown

  function KillIf(h: Option<Pid>): seq<Effect>
  {
    if h.Some? then [Kill(h.value)] else []
  }

  function Held(h: Option<Pid>): set<Pid>
  {
    if h.Some? then {h.value} else {}
  }

  /** The processes the three handles refer to. */
  function Handles(p: Procs): set<Pid>
  {
    Held(p.conference) + Held(p.pauseImage) + Held(p.rtmp)
  }

  /** One kill per handle that is set: conference, pause image, RTMP. */
  function Kills(p: Procs): (e: seq<Effect>)
    ensures forall q :: Kill(q) in e <==> q in Handles(p)
    ensures forall i :: 0 <= i < |e| ==> e[i].Kill?
  {
    KillIf(p.conference) + KillIf(p.pauseImage) + KillIf(p.rtmp)
  }

  /** Closing the browser and stopping the display, each only if assigned. */
  function Releases(ss: Session): (e: seq<Effect>)
    ensures CloseBrowser in e <==> ss.browser
    ensures StopDisplay in e <==> ss.xvfb
    ensures forall i :: 0 <= i < |e| ==> e[i] in {CloseBrowser, StopDisplay}
  {
    (if ss.browser then [CloseBrowser] else []) + (if ss.xvfb then [StopDisplay] else [])
  }

  /** `stopStream` once the browser is closed, or when there is none:
      write `stopped`, then release each resource that is present, then
      call the resolver if set. Nothing is cleared, so the record keeps
      every field but the status and the set of live processes. */
  function CompleteStop(s: Streamer): (r: Out<Streamer, Effect>)
    ensures r.state == s.(status := Stopped, procs := s.procs.(live := s.procs.live - Handles(s.procs)))
    ensures |r.effects| > 0 && r.effects[0] == WriteStatus(Stopped)
    ensures CloseBrowser in r.effects <==> s.session.browser
    ensures StopDisplay in r.effects <==> s.session.xvfb
    ensures Resolve in r.effects <==> s.streamEnded
    ensures forall src, c :: Forward(src, c) !in r.effects
    ensures s.streamEnded ==> r.effects[|r.effects| - 1] == Resolve
  {
    var rel := Releases(s.session);
    var kills := Kills(s.procs);
    var res: seq<Effect> := if s.streamEnded then [Resolve] else [];
    var e := [WriteStatus(Stopped)] + rel + kills + res;
    assert Resolve !in rel && Resolve !in kills;
    assert CloseBrowser !in kills && StopDisplay !in kills;
    Out(s.(status := Stopped, procs := s.procs.(live := s.procs.live - Handles(s.procs))), e)
  }

  /** `stopStream`. When `browser.close()` throws, the rest is skipped: no
      process is killed and the resolver is not called. Nobody awaits
      `stopStream`, so the rejection goes unhandled. */
  function StopStream(s: Streamer, closeOk: bool): (r: Out<Streamer, Effect>)
    ensures r.state.status == Stopped
    ensures |r.effects| > 0 && r.effects[0] == WriteStatus(Stopped)
    ensures CloseBrowser in r.effects <==> s.session.browser
    ensures forall src, c :: Forward(src, c) !in r.effects
    ensures closeOk || !s.session.browser ==> r == CompleteStop(s)
    ensures s.session.browser && !closeOk ==>
              r.state == s.(status := Stopped) && r.effects == [WriteStatus(Stopped), CloseBrowser]
  {
    if s.session.browser && !closeOk then Out(s.(status := Stopped), [WriteStatus(Stopped), CloseBrowser])
    else CompleteStop(s)
  }

  /** `stopStream` kills exactly the processes its three handles refer to,
      and only if the browser, when there is one, closes. */
  lemma StopStreamKills(s: Streamer, closeOk: bool, p: Pid)
    ensures Kill(p) in StopStream(s, closeOk).effects <==> p in Handles(s.procs) && (closeOk || !s.session.browser)
  {
    var rel := Releases(s.session);
    var res: seq<Effect> := if s.streamEnded then [Resolve] else [];
    assert Kill(p) !in rel;
    assert Kill(p) !in res;
  }

  /** There is no re-entry guard: a second `stopStream` performs exactly the
      same steps again (close, stop, kill, resolve) and changes nothing
      further. */
  lemma StopStreamRepeats(s: Streamer)
    ensures StopStream(StopStream(s, true).state, true).effects == StopStream(s, true).effects
    ensures StopStream(StopStream(s, true).state, true).state == StopStream(s, true).state
  {
  }

  // ---------------------------------------------------------------------------
  // Control messages and data routing

  /** The message handler: pause writes `paused` and raises the flag, resume
      writes `running` and lowers it, whatever the previous status; stop
      writes `stopping` and runs `stopStream`, whose browser close succeeds
      iff `closeOk`. Other actions are ignored. */
  function OnMessage(s: Streamer, action: string, closeOk: bool): (r: Out<Streamer, Effect>)
    ensures ParseAction(action).None? ==> r == Out(s, [])
    ensures ParseAction(action) == Some(Pause) ==>
              r == Out(s.(status := Paused, showPauseImage := true), [WriteStatus(Paused)])
    ensures ParseAction(action) == Some(Resume) ==>
              r == Out(s.(status := Running, showPauseImage := false), [WriteStatus(Running)])
    ensures ParseAction(action) == Some(Stop) ==>
              r.state == StopStream(s, closeOk).state
              && r.effects == [WriteStatus(Stopping)] + StopStream(s, closeOk).effects
              && r.effects[..2] == [WriteStatus(Stopping), WriteStatus(Stopped)]
  {
    match ParseAction(action)
    case None => Out(s, [])
    case Some(Pause) => Out(s.(status := Paused, showPauseImage := true), [WriteStatus(Paused)])
    case Some(Resume) => Out(s.(status := Running, showPauseImage := false), [WriteStatus(Running)])
    case Some(Stop) =>
      var st := StopStream(s.(status := Stopping), closeOk);
      Out(st.state, [WriteStatus(Stopping)] + st.effects)
  }

  /** Whether a chunk from `src` is written to the RTMP process: the
      conference only while the flag is down, the pause image only while it
      is up, and only if the RTMP process handle exists. */
  predicate Forwards(s: Streamer, src: Source)
  {
    s.procs.rtmp.Some? && (if src == Conference then !s.showPauseImage else s.showPauseImage)
  }

  /** For every flag value exactly one source is routed to an existing RTMP
      process, and none without one. */
  lemma ExactlyOneSource(s: Streamer)
    ensures !(Forwards(s, Conference) && Forwards(s, PauseImage))
    ensures s.procs.rtmp.Some? ==> Forwards(s, Conference) || Forwards(s, PauseImage)
  {
  }

  /** A chunk on an encoder's stdout; it has a listener only once startup
      has attached the routing handlers. */
  function OnData(s: Streamer, src: Source, chunk: nat): (r: Out<Streamer, Effect>)
    ensures r.state == s
    ensures r.effects != [] <==> s.routing && Forwards(s, src)
    ensures r.effects != [] ==> r.effects == [Forward(src, chunk)]
  {
    if s.routing && Forwards(s, src) then Out(s, [Forward(src, chunk)]) else Out(s, [])
  }

  function Step(s: Streamer, e: Event): Out<Streamer, Effect>
  {
    match e
    case Message(a, k) => OnMessage(s, a, k)
    case Data(src, c) => OnData(s, src, c)
  }

  function Run(s: Streamer, es: seq<Event>): Out<Streamer, Effect>
  {
    Fold(Step, s, es)
  }

  // ---------------------------------------------------------------------------
  // Forwarding invariant over interleaved events

  /** The flag after `es`, read off the last pause or resume message
      (`init` if there is none). */
  function FlagAfter(init: bool, es: seq<Event>): bool
    decreases |es|
  {
    if es == [] then init
    else
      var last := es[|es| - 1];
      if last.Message? && ParseAction(last.action) == Some(Pause) then true
      else if last.Message? && ParseAction(last.action) == Some(Resume) then false
      else FlagAfter(init, es[..|es| - 1])
  }

  /** The chunks that should reach the RTMP process in `es`: each data event
      whose source matches the flag left by the events before it, provided
      startup attached the routing and the RTMP handle exists. */
  function Expected(s: Streamer, es: seq<Event>): seq<(Source, nat)>
    decreases |es|
  {
    if es == [] then []
    else
      var prefix := es[..|es| - 1];
      var last := es[|es| - 1];
      Expected(s, prefix)
      + (if last.Data? && s.routing && s.procs.rtmp.Some?
            && (last.source == Conference <==> !FlagAfter(s.showPauseImage, prefix))
         then [(last.source, last.chunk)] else [])
  }

  /** The chunks among `effects` that were written to the RTMP process. */
  function Forwarded(effects: seq<Effect>): seq<(Source, nat)>
  {
    if effects == [] then []
    else (if effects[0].Forward? then [(effects[0].source, effects[0].chunk)] else [])
         + Forwarded(effects[1..])
  }

  lemma {:induction false} ForwardedAppend(a: seq<Effect>, b: seq<Effect>)
    ensures Forwarded(a + b) == Forwarded(a) + Forwarded(b)
    decreases |a|
  {
    if a == [] {
      assert a + b == b;
    } else {
      assert (a + b)[0] == a[0];
      assert (a + b)[1..] == a[1..] + b;
      ForwardedAppend(a[1..], b);
    }
  }

  /** Messages never emit forwarded chunks. */
  lemma MessageForwardsNothing(s: Streamer, action: string, closeOk: bool)
    ensures Forwarded(OnMessage(s, action, closeOk).effects) == []
  {
    if ParseAction(action) == Some(Stop) {
      var st := StopStream(s.(status := Stopping), closeOk);
      NoForwardNoForwarded([WriteStatus(Stopping)] + st.effects);
    }
  }

  lemma {:induction false} NoForwardNoForwarded(e: seq<Effect>)
    requires forall src, c :: Forward(src, c) !in e
    ensures Forwarded(e) == []
    decreases |e|
  {
    if e != [] {
      NoForwardNoForwarded(e[1..]);
    }
  }

  lemma StepFrame(s: Streamer, e: Event)
    ensures Step(s, e).state.procs.rtmp == s.procs.rtmp && Step(s, e).state.routing == s.routing
    ensures Step(s, e).state.showPauseImage
            == if e.Message? && ParseAction(e.action) == Some(Pause) then true
               else if e.Message? && ParseAction(e.action) == Some(Resume) then false
               else s.showPauseImage
  {
  }

  /** Events never change the RTMP handle or whether routing is attached,
      and the flag is the one the last pause/resume message left. */
  lemma {:induction false} RunFrame(s: Streamer, es: seq<Event>)
    ensures Run(s, es).state.procs.rtmp == s.procs.rtmp
    ensures Run(s, es).state.routing == s.routing
    ensures Run(s, es).state.showPauseImage == FlagAfter(s.showPauseImage, es)
    decreases |es|
  {
    if es != [] {
      RunFrame(s, es[..|es| - 1]);
      FoldSnoc(Step, s, es);
      StepFrame(Run(s, es[..|es| - 1]).state, es[|es| - 1]);
    }
  }

  /** The forwarding invariant: over any interleaving of control messages
      and chunks from both encoders, the RTMP process receives exactly the
      chunks whose source matched the flag at the moment they arrived, in
      arrival order. */
  lemma {:induction false} RoutingMatchesFlag(s: Streamer, es: seq<Event>)
    ensures Forwarded(Run(s, es).effects) == Expected(s, es)
    decreases |es|
  {
    if es != [] {
      var prefix := es[..|es| - 1];
      var last := es[|es| - 1];
      RoutingMatchesFlag(s, prefix);
      FoldSnoc(Step, s, es);
      RunFrame(s, prefix);
      var mid := Run(s, prefix).state;
      ForwardedAppend(Run(s, prefix).effects, Step(mid, last).effects);
      if last.Message? {
        MessageForwardsNothing(mid, last.action, last.closeOk);
      } else {
        assert Forwarded([Forward(last.source, last.chunk)]) == [(last.source, last.chunk)];
      }
    }
  }
}
