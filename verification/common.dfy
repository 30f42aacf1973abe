/** Vocabulary shared by the control plane and the two worker variants:
    the job progress record, its status values, and the control actions
    carried on the pub/sub channel. */
module Common {

  /** A value that may be missing (`undefined`/`null` in the source). */
  datatype Option<+T> = None | Some(value: T)

  /** A computation that either succeeds or raises an error with a message. */
  datatype Result<+T> = Ok(value: T) | Err(msg: string)

  /** Every value that any component writes into `progress.status`. */
  datatype Status =
    | Queued
    | Starting
    | Running
    | Pausing
    | Paused
    | Resuming
    | Stopping
    | Stopped

  /** The job's progress record `{status, fps, bitrate}`; the workers write
      records that carry only a status, so the two counters are optional. */
  datatype Progress = Progress(status: Status, fps: Option<int>, bitrate: Option<int>)

  /** Progress as the workers write it: `{status}` alone. */
  function StatusOnly(s: Status): (p: Progress)
    ensures p.status == s && p.fps.None? && p.bitrate.None?
  {
    Progress(s, None, None)
  }

  /** The control commands of the `{action}` message. */
  datatype Action = Pause | Resume | Stop

  /** The wire spelling of an action inside `{action: ...}`. */
  function ActionName(a: Action): string
  {
    match a
    case Pause => "pause"
    case Resume => "resume"
    case Stop => "stop"
  }

  /** How a worker reads `data.action`: the three known names, nothing else. */
  function ParseAction(name: string): (r: Option<Action>)
    ensures r.Some? ==> ActionName(r.value) == name
    ensures r.None? ==> forall a: Action :: ActionName(a) != name
  {
    if name == "pause" then Some(Pause)
    else if name == "resume" then Some(Resume)
    else if name == "stop" then Some(Stop)
    else None
  }

  /** Parsing inverts the wire spelling of every action. */
  lemma ParseActionName(a: Action)
    ensures ParseAction(ActionName(a)) == Some(a)
  {
  }

  /** The channel the gateway publishes a job's control messages on
      (src/controller/app.ts:200). `Gateway.CommandChannel` is the one it
      should use. */
  function JobChannelAsWritten(jobId: string): string
  {
    "job-" + jobId
  }

  /** The channel both worker variants subscribe to for a job's control
      messages. */
  function WorkerChannel(jobId: string): string
  {
    "meeting-" + jobId
  }

  /** As written, the gateway publishes on `job-<id>` while the workers
      listen on `meeting-<id>`: for no pair of job ids do the two names
      coincide, so no published command reaches any worker. */
  lemma ChannelsNeverMeet(id1: string, id2: string)
    ensures JobChannelAsWritten(id1) != WorkerChannel(id2)
  {
    assert JobChannelAsWritten(id1)[0] == 'j';
    assert WorkerChannel(id2)[0] == 'm';
  }

  /** Distinct jobs have distinct worker channels. */
  lemma WorkerChannelInjective(id1: string, id2: string)
    ensures WorkerChannel(id1) == WorkerChannel(id2) <==> id1 == id2
  {
    if WorkerChannel(id1) == WorkerChannel(id2) {
      assert id1 == WorkerChannel(id1)[8..];
      assert id2 == WorkerChannel(id2)[8..];
    }
  }

  /** The file both worker variants download the pause image to. */
  function PauseImageFile(jobId: string): (f: string)
    ensures |f| == |"/tmp/pause-image-"| + |jobId| + |".jpg"|
    ensures f[..|"/tmp/pause-image-"|] == "/tmp/pause-image-"
    ensures f[|f| - 4..] == ".jpg"
    ensures f[|"/tmp/pause-image-"|..|f| - 4] == jobId
  {
    "/tmp/pause-image-" + jobId + ".jpg"
  }

  /** Abstract operating-system process ids, handed out by a counter. */
  type Pid = nat
}
