/** The control-plane HTTP gateway (src/controller/app.ts): job submission,
    inspection and the stop/pause/resume commands, as a pure function
    `Request x Store -> Response x Store x Effects`.

    The queue is seen through the one field the gateway reads and writes,
    each job's progress record; adding a job and publishing a control
    message are returned as effects. SHA-256 and the WHATWG URL parser are
    supplied by the caller in `Env`, so nothing is assumed about them beyond
    being functions. */
module Gateway {
  import opened Common

  /** The parts of a parsed URL the gateway looks at: `host` and the query
      string as an ordered list of name/value pairs. */
  datatype Url = Url(host: string, query: seq<(string, string)>)

  /** `new URL(s)` (None when it throws) and `sha256(s)` as a hex digest. */
  datatype Env = Env(parseUrl: string -> Option<Url>, sha256Hex: string -> string)

  /** The JSON body of `POST /`; a missing field is None. */
  datatype Body = Body(
    joinUrl: Option<string>,
    pauseImageUrl: Option<string>,
    webhookUrl: Option<string>,
    rtmpUrl: Option<string>)

  /** One entry of the `errors` array of a 422 response. */
  datatype FieldError = FieldError(kind: string, msg: string, path: string, location: string)

  /** The data stored with an enqueued job. */
  datatype JobData = JobData(
    joinUrl: string,
    pauseImageUrl: Option<string>,
    rtmpUrl: string,
    webhookUrl: Option<string>)

  datatype Response =
    | JobView(code: int, id: string, progress: Progress)
    | Invalid(errors: seq<FieldError>)
    | NotFound(text: string)

  /** What the gateway asks of the queue and of Redis. */
  datatype Effect =
    | Enqueue(name: string, jobId: string, data: JobData, removeOnComplete: bool)
    | Publish(channel: string, message: Action)

  /** The progress record of every job the queue knows, by job id. */
  type Store = map<string, Progress>

  datatype Reply = Reply(response: Response, store: Store, effects: seq<Effect>)

  // ---------------------------------------------------------------------------
  // Validation

  /** express-validator's `notEmpty`: present and not the empty string. */
  predicate Filled(v: Option<string>)
  {
    v.Some? && v.value != ""
  }

  /** The error express-validator reports for a field that fails `notEmpty`. */
  function SchemaError(path: string): FieldError
  {
    FieldError("field", "Invalid value", path, "body")
  }

  /** The errors `createSchema` produces, in schema order; the two optional
      fields carry no validator and never fail. */
  function SchemaErrors(b: Body): (errs: seq<FieldError>)
    ensures errs == [] <==> Filled(b.joinUrl) && Filled(b.rtmpUrl)
    ensures forall e :: e in errs ==> e.msg == "Invalid value" && e.path in {"joinUrl", "rtmpUrl"}
    ensures SchemaError("joinUrl") in errs <==> !Filled(b.joinUrl)
    ensures SchemaError("rtmpUrl") in errs <==> !Filled(b.rtmpUrl)
    ensures |errs| == (if Filled(b.joinUrl) then 0 else 1) + (if Filled(b.rtmpUrl) then 0 else 1)
    ensures !Filled(b.joinUrl) ==> errs[0] == SchemaError("joinUrl")
    ensures !Filled(b.rtmpUrl) ==> errs[|errs| - 1] == SchemaError("rtmpUrl")
  {
    (if Filled(b.joinUrl) then [] else [SchemaError("joinUrl")]) +
    (if Filled(b.rtmpUrl) then [] else [SchemaError("rtmpUrl")])
  }

  /** `URLSearchParams.get`: the value of the first pair with that name. */
  function QueryGet(query: seq<(string, string)>, name: string): (r: Option<string>)
    ensures r.None? <==> forall i :: 0 <= i < |query| ==> query[i].0 != name
    ensures r.Some? ==> exists i :: 0 <= i < |query| && query[i] == (name, r.value)
                                  && forall j :: 0 <= j < i ==> query[j].0 != name
  {
    if query == [] then None
    else if query[0].0 == name then Some(query[0].1)
    else
      var r := QueryGet(query[1..], name);
      if r.Some? then
        var k :| 0 <= k < |query[1..]| && query[1..][k] == (name, r.value)
                 && forall j :: 0 <= j < k ==> query[1..][j].0 != name;
        assert query[k + 1] == (name, r.value);
        r
      else r
  }

  /** The string that is hashed into the job id. */
  function FingerprintInput(meetingId: string, host: string): string
  {
    meetingId + "@" + host
  }

  /** The job id of a meeting: SHA-256 of `meetingID@host` in hex. */
  function JobId(env: Env, meetingId: string, host: string): string
  {
    env.sha256Hex(FingerprintInput(meetingId, host))
  }

  /** The meeting a join URL names: its `meetingID` parameter and its host. */
  function MeetingOf(env: Env, joinUrl: string): Option<(string, string)>
  {
    match env.parseUrl(joinUrl)
    case None => None
    case Some(u) =>
      match QueryGet(u.query, "meetingID")
      case None => None
      case Some(m) => Some((m, u.host))
  }

  /** The progress every accepted submission is given. */
  const QueuedProgress := Progress(Queued, Some(0), Some(0))

  /** When a submission is accepted: both required fields are non-empty, the
      join URL parses, and its query has some `meetingID` parameter. */
  ghost predicate Acceptable(env: Env, b: Body)
  {
    && Filled(b.joinUrl) && Filled(b.rtmpUrl)
    && env.parseUrl(b.joinUrl.value).Some?
    && exists i :: 0 <= i < |env.parseUrl(b.joinUrl.value).value.query|
                   && env.parseUrl(b.joinUrl.value).value.query[i].0 == "meetingID"
  }

  // ---------------------------------------------------------------------------
  // POST /

  /** Submission. Schema failures are reported before the URL is looked at;
      then an unparsable URL, then a missing `meetingID`. Only an accepted
      submission touches the queue: it enqueues under the fingerprint with
      `removeOnComplete` and overwrites that id's progress with
      `{queued, 0, 0}`. */
  function Submit(env: Env, b: Body, store: Store): (r: Reply)
    ensures r.effects != [] <==> Acceptable(env, b)
    ensures r.response.JobView? <==> Acceptable(env, b)
    ensures r.effects == [] ==> r.store == store && r.response.Invalid?
    ensures SchemaErrors(b) != [] ==> r.response == Invalid(SchemaErrors(b))
    ensures SchemaErrors(b) == [] && env.parseUrl(b.joinUrl.value).None? ==>
              r.response == Invalid([FieldError("field", "Invalid url", "joinUrl", "body")])
    ensures SchemaErrors(b) == [] && env.parseUrl(b.joinUrl.value).Some?
            && MeetingOf(env, b.joinUrl.value).None? ==>
              r.response == Invalid([FieldError("field", "Meeting ID not found in join url", "joinUrl", "body")])
    ensures r.response.JobView? ==>
              && MeetingOf(env, b.joinUrl.value).Some?
              && var (m, h) := MeetingOf(env, b.joinUrl.value).value;
              && r.response == JobView(201, JobId(env, m, h), QueuedProgress)
              && r.store == store[JobId(env, m, h) := QueuedProgress]
              && r.effects == [Enqueue("meeting", JobId(env, m, h),
                                       JobData(b.joinUrl.value, b.pauseImageUrl, b.rtmpUrl.value, b.webhookUrl),
                                       true)]
  {
    var errs := SchemaErrors(b);
    if errs != [] then
      Reply(Invalid(errs), store, [])
    else if env.parseUrl(b.joinUrl.value).None? then
      Reply(Invalid([FieldError("field", "Invalid url", "joinUrl", "body")]), store, [])
    else
      var u := env.parseUrl(b.joinUrl.value).value;
      var meetingId := QueryGet(u.query, "meetingID");
      if meetingId.None? then
        Reply(Invalid([FieldError("field", "Meeting ID not found in join url", "joinUrl", "body")]), store, [])
      else
        var id := JobId(env, meetingId.value, u.host);
        var data := JobData(b.joinUrl.value, b.pauseImageUrl, b.rtmpUrl.value, b.webhookUrl);
        Reply(JobView(201, id, QueuedProgress), store[id := QueuedProgress],
              [Enqueue("meeting", id, data, true)])
  }

  /** Two submissions whose join URLs name the same meeting on the same host
      get the same job id, whatever else differs between them (other query
      parameters, path, output or webhook URLs). */
  lemma SameMeetingSameJob(env: Env, b1: Body, b2: Body, s1: Store, s2: Store)
    requires Acceptable(env, b1) && Acceptable(env, b2)
    requires MeetingOf(env, b1.joinUrl.value) == MeetingOf(env, b2.joinUrl.value)
    ensures Submit(env, b1, s1).response.JobView?
    ensures Submit(env, b2, s2).response.JobView?
    ensures Submit(env, b1, s1).response.id == Submit(env, b2, s2).response.id
  {
  }

  /** The characters after the last `@` of a string (all of it if none). */
  function AfterLastAt(s: string): string
  {
    if s == [] then []
    else if s[|s| - 1] == '@' then []
    else AfterLastAt(s[..|s| - 1]) + [s[|s| - 1]]
  }

  /** Splitting the hashed string at its last `@` recovers the host. */
  lemma {:induction false} AfterLastAtRecoversHost(m: string, h: string)
    requires '@' !in h
    ensures AfterLastAt(FingerprintInput(m, h)) == h
    decreases |h|
  {
    var s := FingerprintInput(m, h);
    if h != [] {
      var h' := h[..|h| - 1];
      assert s[..|s| - 1] == FingerprintInput(m, h');
      assert s[|s| - 1] == h[|h| - 1];
      AfterLastAtRecoversHost(m, h');
      assert h' + [h[|h| - 1]] == h;
    }
  }

  /** The hashed string determines the pair: hosts never contain `@` (it is
      a forbidden host code point), so the last `@` splits it uniquely. Two
      different meetings therefore only share a job id through a SHA-256
      collision. */
  lemma FingerprintInputInjective(m1: string, h1: string, m2: string, h2: string)
    requires '@' !in h1 && '@' !in h2
    requires FingerprintInput(m1, h1) == FingerprintInput(m2, h2)
    ensures m1 == m2 && h1 == h2
  {
    var s := FingerprintInput(m1, h1);
    AfterLastAtRecoversHost(m1, h1);
    AfterLastAtRecoversHost(m2, h2);
    assert m1 == s[..|m1|] && m2 == s[..|m2|];
  }

  // ---------------------------------------------------------------------------
  // GET /:jobId

  /** Inspection: the job's id and progress, or 404. Never changes anything. */
  function Inspect(id: string, store: Store): (r: Response)
    ensures r.NotFound? <==> id !in store
    ensures r.NotFound? ==> r.text == "Job not found"
    ensures r.JobView? ==> r.code == 200 && r.id == id && r.progress == store[id]
  {
    if id !in store then NotFound("Job not found") else JobView(200, id, store[id])
  }

  /** Inspecting a job right after its submission was accepted shows it
      queued with zero counters, and other jobs are shown as before. */
  lemma InspectAfterSubmit(env: Env, b: Body, store: Store, other: string)
    requires Acceptable(env, b)
    ensures var r := Submit(env, b, store);
            && Inspect(r.response.id, r.store) == JobView(200, r.response.id, QueuedProgress)
            && (other != r.response.id ==> Inspect(other, r.store) == Inspect(other, store))
  {
  }

  // ---------------------------------------------------------------------------
  // POST /:jobId/stop, /pause, /resume

  /** The status guard of each command: stop only from `running` or
      `paused`, pause only from `running`, resume only from `paused`. */
  predicate Admits(a: Action, s: Status)
  {
    match a
    case Stop => s == Running || s == Paused
    case Pause => s == Running
    case Resume => s == Paused
  }

  /** The placeholder status an accepted command writes. */
  function Transitional(a: Action): Status
  {
    match a
    case Stop => Stopping
    case Pause => Pausing
    case Resume => Resuming
  }

  /** A command for job `id`: 404 when the queue does not know it; 400
      echoing the unchanged progress when the guard refuses the current
      status; otherwise the transitional status with zero counters is
      written, `{action}` is published on `job-<id>`, and 202 echoes the
      new progress. */
  function Command(a: Action, id: string, store: Store): (r: Reply)
    ensures r.response.NotFound? <==> id !in store
    ensures r.response.NotFound? ==> r.response.text == "No stream running for this meeting"
    ensures id in store && !Admits(a, store[id].status) ==>
              r.response == JobView(400, id, store[id]) && r.store == store && r.effects == []
    ensures id in store && Admits(a, store[id].status) ==>
              && r.response == JobView(202, id, Progress(Transitional(a), Some(0), Some(0)))
              && r.store == store[id := Progress(Transitional(a), Some(0), Some(0))]
              && r.effects == [Publish(JobChannelAsWritten(id), a)]
    ensures r.effects != [] <==> id in store && Admits(a, store[id].status)
  {
    if id !in store then
      Reply(NotFound("No stream running for this meeting"), store, [])
    else if !Admits(a, store[id].status) then
      Reply(JobView(400, id, store[id]), store, [])
    else
      var p := Progress(Transitional(a), Some(0), Some(0));
      Reply(JobView(202, id, p), store[id := p], [Publish(JobChannelAsWritten(id), a)])
  }

  /** As written, no command reaches any worker: every message `Command`
      publishes goes to a channel that no worker subscribes to. */
  lemma CommandReachesNoWorker(a: Action, id: string, store: Store, j: string)
    ensures forall e :: e in Command(a, id, store).effects ==> e.Publish? && e.channel != WorkerChannel(j)
  {
    ChannelsNeverMeet(id, j);
  }

  /** Commands for two jobs go to the same `job-` channel only when the
      jobs are the same. */
  lemma JobChannelTargets(id1: string, id2: string)
    ensures JobChannelAsWritten(id1) == JobChannelAsWritten(id2) <==> id1 == id2
  {
    if JobChannelAsWritten(id1) == JobChannelAsWritten(id2) {
      assert id1 == JobChannelAsWritten(id1)[4..];
      assert id2 == JobChannelAsWritten(id2)[4..];
    }
  }

  /** Corrected: the channel a command for job `id` should go to, the one
      the worker running that job subscribes to, and no other worker's. */
  function CommandChannel(id: string): (c: string)
    ensures forall j :: c == WorkerChannel(j) <==> j == id
  {
    forall j ensures WorkerChannel(id) == WorkerChannel(j) <==> j == id {
      WorkerChannelInjective(id, j);
    }
    WorkerChannel(id)
  }

  /** Corrected: commands for two jobs share a channel only when the jobs
      are the same. */
  lemma CommandChannelTargets(id1: string, id2: string)
    ensures CommandChannel(id1) == CommandChannel(id2) <==> id1 == id2
  {
    WorkerChannelInjective(id1, id2);
  }

  /** Corrected: `Command` with its message published on `CommandChannel`.
      The response and the store are those of `Command`, and an admitted
      command reaches the worker of its own job and no other. */
  function CorrectedCommand(a: Action, id: string, store: Store): (r: Reply)
    ensures r.response == Command(a, id, store).response && r.store == Command(a, id, store).store
    ensures |r.effects| == |Command(a, id, store).effects| <= 1
    ensures forall e, j :: e in r.effects ==> e.Publish? && e.message == a && (e.channel == WorkerChannel(j) <==> j == id)
  {
    var r := Command(a, id, store);
    Reply(r.response, r.store, if r.effects == [] then [] else [Publish(CommandChannel(id), a)])
  }

  /** Inspecting a job after a command shows what the command's reply
      echoed: the transitional status when it was admitted, the unchanged
      progress when it was refused. */
  lemma InspectAfterCommand(a: Action, id: string, store: Store)
    requires id in store
    ensures var r := Command(a, id, store);
            Inspect(id, r.store) == r.response.(code := 200)
  {
  }

  /** Stop is refused from every status but `running` and `paused`: a job
      that is still queued or starting, or that is pausing or resuming,
      cannot be stopped through the gateway. */
  lemma StopGuardIsNarrow(id: string, store: Store)
    requires id in store
    requires store[id].status in {Queued, Starting, Pausing, Resuming, Stopping, Stopped}
    ensures Command(Stop, id, store).response.code == 400
    ensures Command(Stop, id, store).effects == []
  {
  }

  /** Each command's guard and its transitional status are consistent: no
      command is admitted from any transitional status, so commands on one
      job cannot pile up before the worker settles the previous one. */
  lemma TransitionalAdmitsNothing(a: Action, b: Action)
    ensures !Admits(b, Transitional(a))
  {
  }

  /** Applies commands in order, each to the store the previous one left:
      the final store and every effect, in order. */
  function RunCommands(cmds: seq<(Action, string)>, store: Store): (Store, seq<Effect>)
    decreases |cmds|
  {
    if cmds == [] then (store, [])
    else
      var r := Command(cmds[0].0, cmds[0].1, store);
      var (final, rest) := RunCommands(cmds[1..], r.store);
      (final, r.effects + rest)
  }

  predicate IsTransitional(s: Status)
  {
    s == Stopping || s == Pausing || s == Resuming
  }

  /** The control messages among `effects` that go to `channel`. */
  function PublishesOn(effects: seq<Effect>, channel: string): seq<Effect>
  {
    if effects == [] then []
    else (if effects[0].Publish? && effects[0].channel == channel then [effects[0]] else [])
         + PublishesOn(effects[1..], channel)
  }

  lemma {:induction false} PublishesOnAppend(a: seq<Effect>, b: seq<Effect>, channel: string)
    ensures PublishesOn(a + b, channel) == PublishesOn(a, channel) + PublishesOn(b, channel)
    decreases |a|
  {
    if a != [] {
      assert (a + b)[0] == a[0];
      assert (a + b)[1..] == a[1..] + b;
      PublishesOnAppend(a[1..], b, channel);
    } else {
      assert a + b == b;
    }
  }

  /** With no worker writing in between, any sequence of serialized
      commands publishes at most one control message per job, and none at
      all once the job is in a transitional status: the first accepted
      command leaves a status that refuses all later ones. */
  lemma {:induction false} AtMostOnePublishPerJob(cmds: seq<(Action, string)>, store: Store, id: string)
    ensures |PublishesOn(RunCommands(cmds, store).1, JobChannelAsWritten(id))| <= 1
    ensures id in store && IsTransitional(store[id].status) ==>
              PublishesOn(RunCommands(cmds, store).1, JobChannelAsWritten(id)) == []
    decreases |cmds|
  {
    if cmds != [] {
      var (a, j) := cmds[0];
      var r := Command(a, j, store);
      var rest := RunCommands(cmds[1..], r.store).1;
      AtMostOnePublishPerJob(cmds[1..], r.store, id);
      PublishesOnAppend(r.effects, rest, JobChannelAsWritten(id));
      JobChannelTargets(j, id);
      if j == id && id in store && Admits(a, store[id].status) {
        assert r.store[id].status == Transitional(a);
        assert PublishesOn(rest, JobChannelAsWritten(id)) == [];
      } else {
        assert PublishesOn(r.effects, JobChannelAsWritten(id)) == [];
        if id in store && IsTransitional(store[id].status) {
          assert r.store[id] == store[id];
        }
      }
    }
  }

  /** A request to the gateway that can change a job's progress. */
  datatype Request = Submission(body: Body) | Control(action: Action, id: string)

  /** Serves requests in order, each against the store the previous one
      left: the final store and every effect, in order. */
  function Serve(env: Env, reqs: seq<Request>, store: Store): (Store, seq<Effect>)
    decreases |reqs|
  {
    if reqs == [] then (store, [])
    else
      var r := match reqs[0]
               case Submission(b) => Submit(env, b, store)
               case Control(a, j) => Command(a, j, store);
      var (final, rest) := Serve(env, reqs[1..], r.store);
      (final, r.effects + rest)
  }

  /** No command for the job is admitted: it is unknown, or its status is
      neither `running` nor `paused`. */
  predicate Quiet(store: Store, id: string)
  {
    id !in store || store[id].status !in {Running, Paused}
  }

  /** A submission publishes nothing and keeps a quiet job quiet: it only
      ever writes `queued`. */
  lemma SubmitKeepsQuiet(env: Env, b: Body, store: Store, id: string)
    ensures PublishesOn(Submit(env, b, store).effects, JobChannelAsWritten(id)) == []
    ensures Quiet(store, id) ==> Quiet(Submit(env, b, store).store, id)
  {
    var r := Submit(env, b, store);
    if r.response.JobView? {
      assert PublishesOn(r.effects[1..], JobChannelAsWritten(id)) == [];
    }
  }

  /** The bound of `AtMostOnePublishPerJob` survives submissions mixed in
      with the commands: re-submitting a job resets it to `queued`, from
      which no command is admitted. A quiet job gets no message at all. */
  lemma {:induction false} AtMostOnePublishPerJobWithSubmissions(env: Env, reqs: seq<Request>, store: Store, id: string)
    ensures |PublishesOn(Serve(env, reqs, store).1, JobChannelAsWritten(id))| <= 1
    ensures Quiet(store, id) ==> PublishesOn(Serve(env, reqs, store).1, JobChannelAsWritten(id)) == []
    decreases |reqs|
  {
    if reqs != [] {
      var ch := JobChannelAsWritten(id);
      var r := match reqs[0]
               case Submission(b) => Submit(env, b, store)
               case Control(a, j) => Command(a, j, store);
      var rest := Serve(env, reqs[1..], r.store).1;
      assert Serve(env, reqs, store).1 == r.effects + rest;
      AtMostOnePublishPerJobWithSubmissions(env, reqs[1..], r.store, id);
      PublishesOnAppend(r.effects, rest, ch);
      match reqs[0]
      case Submission(b) =>
        SubmitKeepsQuiet(env, b, store, id);
      case Control(a, j) =>
        JobChannelTargets(j, id);
        if j == id && id in store && Admits(a, store[id].status) {
          assert r.store[id].status == Transitional(a);
          assert Quiet(r.store, id);
        } else {
          assert PublishesOn(r.effects, ch) == [];
          if Quiet(store, id) && id in r.store {
            assert r.store[id] == store[id];
          }
        }
    }
  }
}
