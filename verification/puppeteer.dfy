/** The browser launch and capture helpers (src/worker/PuppeteerStream.ts):
    rewriting Chrome's argument list, normalising the headless options,
    the process-wide FIFO mutex around the tab query, the defaults and
    guards of `getStream`, the bounded probe for the recording extension,
    and the scan for a free WebSocket port.

    Calls into the browser and the operating system are parameters: a probe
    function stands for each answer the environment gives. */
module PuppeteerStream {
  import opened Common
  import opened Traces

  // ---------------------------------------------------------------------------
  // Strings

  /** `x.includes(sub)`: `sub` occurs in `x` at some position (the empty
      string occurs everywhere). */
  function Includes(x: string, sub: string): bool
    decreases |x|
  {
    if |sub| > |x| then false
    else if x[..|sub|] == sub then true
    else Includes(x[1..], sub)
  }

  /** `sub` occurs in `x` starting at index `i`. */
  predicate OccursAt(x: string, sub: string, i: int)
  {
    0 <= i <= |x| - |sub| && x[i..i + |sub|] == sub
  }

  /** `Includes` agrees with the position-based definition of an infix. */
  lemma {:induction false} IncludesIff(x: string, sub: string)
    ensures Includes(x, sub) <==> exists i :: OccursAt(x, sub, i)
    decreases |x|
  {
    if |sub| > |x| {
    } else if x[..|sub|] == sub {
      assert OccursAt(x, sub, 0);
    } else {
      IncludesIff(x[1..], sub);
      if Includes(x, sub) {
        var i :| OccursAt(x[1..], sub, i);
        assert x[i + 1..i + 1 + |sub|] == x[1..][i..i + |sub|];
        assert OccursAt(x, sub, i + 1);
      }
      if exists i :: OccursAt(x, sub, i) {
        var i :| OccursAt(x, sub, i);
        assert x[0..0 + |sub|] == x[..|sub|];
        assert i != 0;
        assert x[1..][i - 1..i - 1 + |sub|] == x[i..i + |sub|];
        assert OccursAt(x[1..], sub, i - 1);
      }
    }
  }

  /** Extending a string on the right keeps every infix it had. */
  lemma IncludesExtend(x: string, y: string, sub: string)
    requires Includes(x, sub)
    ensures Includes(x + y, sub)
  {
    IncludesIff(x, sub);
    var i :| OccursAt(x, sub, i);
    assert (x + y)[i..i + |sub|] == x[i..i + |sub|];
    assert OccursAt(x + y, sub, i);
    IncludesIff(x + y, sub);
  }

  /** Every string includes itself. */
  lemma IncludesSelf(x: string)
    ensures Includes(x, x)
  {
    assert x[..|x|] == x;
  }

  /** Decimal digits of a natural number. */
  function NatDigits(n: nat): (r: string)
    ensures |r| > 0
    ensures forall i :: 0 <= i < |r| ==> '0' <= r[i] <= '9'
    decreases n
  {
    var d := [(48 + n % 10) as char];
    if n < 10 then d else NatDigits(n / 10) + d
  }

  /** A template-literal number: a leading minus sign for negatives. */
  function Decimal(n: int): string
  {
    if n < 0 then "-" + NatDigits(-n) else NatDigits(n)
  }

  // ---------------------------------------------------------------------------
  // addToArgs

  /** A value JavaScript treats as false in `if (!value)`: missing or empty. */
  predicate FalsyString(v: Option<string>)
  {
    v.None? || v.value == ""
  }

  /** Some element of `args` contains `arg` as a substring. */
  predicate Matched(args: seq<string>, arg: string)
  {
    exists i :: 0 <= i < |args| && Includes(args[i], arg)
  }

  /** The `map` inside `addToArgs`: every element containing `arg` gets
      `","+value` appended, the others are kept. */
  function AppendToMatching(args: seq<string>, arg: string, value: string): (r: seq<string>)
    ensures |r| == |args|
    ensures forall i :: 0 <= i < |args| ==>
              r[i] == if Includes(args[i], arg) then args[i] + "," + value else args[i]
    decreases |args|
  {
    if args == [] then []
    else
      [if Includes(args[0], arg) then args[0] + "," + value else args[0]]
      + AppendToMatching(args[1..], arg, value)
  }

  /** `addToArgs(arg, value)`. Without a value the flag is pushed unless an
      element equals it exactly; with one, the value is appended to every
      element containing `arg`, and `arg+value` is pushed only when nothing
      matched. */
  function AddToArgs(args: seq<string>, arg: string, value: Option<string>): (r: seq<string>)
    ensures FalsyString(value) ==> arg in r && (arg in args ==> r == args)
    ensures FalsyString(value) && arg !in args ==> r == args + [arg]
    ensures !FalsyString(value) && Matched(args, arg) ==>
              |r| == |args|
              && forall i :: 0 <= i < |args| ==>
                   r[i] == if Includes(args[i], arg) then args[i] + "," + value.value else args[i]
    ensures !FalsyString(value) && !Matched(args, arg) ==> r == args + [arg + value.value]
  {
    if FalsyString(value) then
      if arg in args then args else args + [arg]
    else
      var mapped := AppendToMatching(args, arg, value.value);
      if Matched(args, arg) then mapped
      else
        assert mapped == args;
        mapped + [arg + value.value]
  }

  /** Adding a flag without a value twice is the same as adding it once. */
  lemma AddFlagIdempotent(args: seq<string>, arg: string)
    ensures AddToArgs(AddToArgs(args, arg, None), arg, None) == AddToArgs(args, arg, None)
  {
  }

  /** A matched element still contains `arg` once `","+value` is appended. */
  lemma AppendedKeepsArg(x: string, arg: string, value: string)
    requires Includes(x, arg)
    ensures Includes(x + "," + value, arg)
  {
    IncludesExtend(x, "," + value, arg);
    assert x + "," + value == x + ("," + value);
  }

  /** Whatever the list held, afterwards some element contains `arg`: the
      matched elements keep it as a prefix of their extension, and the pushed
      element starts with it. */
  lemma AddToArgsEstablishes(args: seq<string>, arg: string, value: Option<string>)
    ensures Matched(AddToArgs(args, arg, value), arg)
  {
    var r := AddToArgs(args, arg, value);
    IncludesSelf(arg);
    if FalsyString(value) {
      var i :| 0 <= i < |r| && r[i] == arg;
      assert Includes(r[i], arg);
    } else if Matched(args, arg) {
      var i :| 0 <= i < |args| && Includes(args[i], arg);
      AppendedKeepsArg(args[i], arg, value.value);
      assert Includes(r[i], arg);
    } else {
      IncludesExtend(arg, value.value, arg);
      assert Includes(r[|args|], arg);
    }
  }

  // ---------------------------------------------------------------------------
  // launch: option normalisation

  /** The id of the bundled recording extension. */
  const ExtensionId: string := "jjndjgheafjngoipoacpjgeicjeomjli"

  /** A viewport dimension is used only when it is a non-zero number. */
  predicate TruthyNumber(n: Option<int>)
  {
    n.Some? && n.value != 0
  }

  datatype Viewport = Viewport(width: Option<int>, height: Option<int>)

  /** The `headless` option as the caller may pass it. */
  datatype Headless = HeadlessUnset | HeadlessBool(b: bool) | HeadlessString(mode: string)

  /** `ignoreDefaultArgs`: unset, a boolean, or a list of flags to drop. */
  datatype IgnoreDefaults = IgnoreUnset | IgnoreAll(all: bool) | IgnoreList(flags: seq<string>)

  datatype LaunchOptions = LaunchOptions(
    args: Option<seq<string>>,
    extensionPath: Option<string>,
    viewport: Option<Viewport>,
    headless: Headless,
    ignoreDefaultArgs: IgnoreDefaults)

  /** The options handed to Puppeteer after rewriting; `headlessNew` is the
      normalised `headless`, `"new"` when true and `false` otherwise. */
  datatype Normalised = Normalised(
    args: seq<string>,
    extensionPath: string,
    headlessNew: bool,
    ignoreDefaultArgs: IgnoreDefaults)

  /** Both viewport dimensions are set and non-zero. */
  predicate HasWindowSize(o: LaunchOptions)
  {
    o.viewport.Some? && TruthyNumber(o.viewport.value.width) && TruthyNumber(o.viewport.value.height)
  }

  /** The two arguments that pin the window and screen size. */
  function WindowArgs(width: int, height: int): seq<string>
  {
    var size := Decimal(width) + "," + Decimal(height);
    ["--window-size=" + size, "--ozone-override-screen-size=" + size]
  }

  /** The extension path: the caller's when truthy, the bundled one
      otherwise. */
  function ExtensionPath(o: LaunchOptions, bundled: string): (p: string)
    ensures !FalsyString(o.extensionPath) ==> p == o.extensionPath.value
    ensures FalsyString(o.extensionPath) ==> p == bundled
  {
    if FalsyString(o.extensionPath) then bundled else o.extensionPath.value
  }

  /** The five `addToArgs` calls, in order, starting from the caller's list
      (or an empty one). */
  function ExtensionArgs(o: LaunchOptions, bundled: string): seq<string>
  {
    var ext := Some(ExtensionPath(o, bundled));
    var a0 := if o.args.Some? then o.args.value else [];
    var a1 := AddToArgs(a0, "--load-extension=", ext);
    var a2 := AddToArgs(a1, "--disable-extensions-except=", ext);
    var a3 := AddToArgs(a2, "--allowlisted-extension-id=", Some(ExtensionId));
    var a4 := AddToArgs(a3, "--autoplay-policy=no-user-gesture-required", None);
    AddToArgs(a4, "--auto-accept-this-tab-capture", None)
  }

  /** The argument list before the headless step: the window arguments are
      appended exactly when both viewport dimensions are truthy. */
  function SizedArgs(o: LaunchOptions, bundled: string): (r: seq<string>)
    ensures HasWindowSize(o) ==>
              r == ExtensionArgs(o, bundled)
                   + WindowArgs(o.viewport.value.width.value, o.viewport.value.height.value)
    ensures !HasWindowSize(o) ==> r == ExtensionArgs(o, bundled)
  {
    var a := ExtensionArgs(o, bundled);
    if HasWindowSize(o) then a + WindowArgs(o.viewport.value.width.value, o.viewport.value.height.value)
    else a
  }

  /** What the new headless mode does to the ignore list: a falsy value
      becomes an empty list, and a list gets `--mute-audio` unless present,
      so a falsy value ends as exactly `["--mute-audio"]`. */
  function IgnoreMuteAudio(ig: IgnoreDefaults): (r: IgnoreDefaults)
    ensures ig.IgnoreAll? && ig.all ==> r == ig
    ensures ig.IgnoreList? && "--mute-audio" in ig.flags ==> r == ig
    ensures r.IgnoreList? <==> !(ig.IgnoreAll? && ig.all)
    ensures r.IgnoreList? ==> "--mute-audio" in r.flags
    ensures ig.IgnoreUnset? || ig == IgnoreAll(false) ==> r == IgnoreList(["--mute-audio"])
    ensures r.IgnoreList? && ig.IgnoreList? ==>
              |ig.flags| <= |r.flags| <= |ig.flags| + 1 && r.flags[..|ig.flags|] == ig.flags
  {
    var list := if ig.IgnoreUnset? || ig == IgnoreAll(false) then IgnoreList([]) else ig;
    if list.IgnoreList? && "--mute-audio" !in list.flags then IgnoreList(list.flags + ["--mute-audio"])
    else list
  }

  /** The headless step on the argument list. */
  function HeadlessArgs(args: seq<string>, headlessNew: bool): (r: seq<string>)
    ensures !headlessNew ==> r == args
    ensures headlessNew ==> "--headless=new" in r
    ensures headlessNew && "--headless=new" in args ==> r == args
    ensures headlessNew && "--headless=new" !in args ==> r == args + ["--headless=new"]
  {
    if headlessNew && "--headless=new" !in args then args + ["--headless=new"] else args
  }

  /** The rewriting `launch` does before starting the browser; `bundled` is
      the path of the extension shipped next to the module. */
  function Launch(o: LaunchOptions, bundled: string): (n: Normalised)
    ensures n.headlessNew <==> o.headless == HeadlessString("new")
    ensures n.extensionPath == ExtensionPath(o, bundled)
    ensures n.args == HeadlessArgs(SizedArgs(o, bundled), n.headlessNew)
    ensures !n.headlessNew ==> n.ignoreDefaultArgs == o.ignoreDefaultArgs
    ensures n.headlessNew ==> n.ignoreDefaultArgs == IgnoreMuteAudio(o.ignoreDefaultArgs)
  {
    var headlessNew := o.headless == HeadlessString("new");
    var sized := SizedArgs(o, bundled);
    Normalised(HeadlessArgs(sized, headlessNew), ExtensionPath(o, bundled), headlessNew,
               if headlessNew then IgnoreMuteAudio(o.ignoreDefaultArgs) else o.ignoreDefaultArgs)
  }

  /** The number of times `x` occurs in `xs`. */
  function Occurrences(xs: seq<string>, x: string): nat
  {
    multiset(xs)[x]
  }

  /** In the new headless mode `--headless=new` is added at most once: a
      list holding it at most once holds it exactly once afterwards. */
  lemma HeadlessFlagOnce(args: seq<string>)
    requires Occurrences(args, "--headless=new") <= 1
    ensures Occurrences(HeadlessArgs(args, true), "--headless=new") == 1
  {
    if "--headless=new" !in args {
      assert multiset(args + ["--headless=new"]) == multiset(args) + multiset{"--headless=new"};
    }
  }

  /** Likewise `--mute-audio` enters the ignore list at most once. */
  lemma MuteAudioOnce(ig: IgnoreDefaults)
    requires ig.IgnoreList? ==> Occurrences(ig.flags, "--mute-audio") <= 1
    ensures IgnoreMuteAudio(ig).IgnoreList? ==> Occurrences(IgnoreMuteAudio(ig).flags, "--mute-audio") == 1
  {
    if ig.IgnoreList? && "--mute-audio" !in ig.flags {
      assert multiset(ig.flags + ["--mute-audio"]) == multiset(ig.flags) + multiset{"--mute-audio"};
    } else if ig.IgnoreUnset? || ig == IgnoreAll(false) {
      assert multiset(["--mute-audio"]) == multiset{"--mute-audio"};
    }
  }

  // ---------------------------------------------------------------------------
  // The tab-query mutex

  /** `mutex` and the FIFO `queue` of waiting resolvers, each standing for
      the caller that is waiting. */
  datatype Mutex = Mutex(held: bool, queue: seq<nat>)

  /** `lock()`: granted at once when free (and the mutex becomes held),
      otherwise the caller joins the back of the queue. */
  function Lock(m: Mutex, caller: nat): (r: Out<Mutex, nat>)
    ensures !m.held ==> r == Out(Mutex(true, m.queue), [caller])
    ensures m.held ==> r == Out(Mutex(true, m.queue + [caller]), [])
  {
    if !m.held then Out(m.(held := true), [caller]) else Out(m.(queue := m.queue + [caller]), [])
  }

  /** `unlock()`: hands the mutex to the oldest waiter, which keeps it
      held, or frees it when nobody waits. */
  function Unlock(m: Mutex): (r: Out<Mutex, nat>)
    ensures m.queue != [] ==> r == Out(Mutex(m.held, m.queue[1..]), [m.queue[0]])
    ensures m.queue == [] ==> r == Out(Mutex(false, []), [])
  {
    if |m.queue| > 0 then Out(m.(queue := m.queue[1..]), [m.queue[0]]) else Out(m.(held := false), [])
  }

  /** Somebody waiting implies somebody holds the mutex. */
  predicate MutexInv(m: Mutex)
  {
    m.queue != [] ==> m.held
  }

  datatype MutexEvent = LockBy(caller: nat) | Release

  function MutexStep(m: Mutex, e: MutexEvent): Out<Mutex, nat>
  {
    match e
    case LockBy(c) => Lock(m, c)
    case Release => Unlock(m)
  }

  /** The callers of `lock` in `es`, in order. */
  function Requests(es: seq<MutexEvent>): seq<nat>
  {
    if es == [] then []
    else (if es[0].LockBy? then [es[0].caller] else []) + Requests(es[1..])
  }

  lemma {:induction false} RequestsSnoc(es: seq<MutexEvent>)
    requires es != []
    ensures Requests(es) == Requests(es[..|es| - 1])
                            + (if es[|es| - 1].LockBy? then [es[|es| - 1].caller] else [])
    decreases |es|
  {
    if |es| > 1 {
      RequestsSnoc(es[1..]);
      assert es[1..][..|es[1..]| - 1] == es[..|es| - 1][1..];
    }
  }

  /** Every step keeps the invariant. */
  lemma MutexStepKeepsInv(m: Mutex, e: MutexEvent)
    requires MutexInv(m)
    ensures MutexInv(MutexStep(m, e).state)
  {
  }

  /** One step moves callers from the queue to the granted list without
      reordering them, and appends a new caller at the back. */
  lemma MutexStepBalance(m: Mutex, e: MutexEvent)
    requires MutexInv(m)
    ensures MutexStep(m, e).effects + MutexStep(m, e).state.queue
            == m.queue + (if e.LockBy? then [e.caller] else [])
  {
    if e.Release? && m.queue != [] {
      assert [m.queue[0]] + m.queue[1..] == m.queue;
    }
  }

  /** Granted-then-waiting bookkeeping across one more step. */
  lemma Rebalance(granted: seq<nat>, waiting: seq<nat>, newGrants: seq<nat>, newWaiting: seq<nat>,
                  initial: seq<nat>, requested: seq<nat>, added: seq<nat>)
    requires granted + waiting == initial + requested
    requires newGrants + newWaiting == waiting + added
    ensures (granted + newGrants) + newWaiting == initial + (requested + added)
  {
    calc {
      (granted + newGrants) + newWaiting;
      granted + (newGrants + newWaiting);
      (granted + waiting) + added;
    }
  }

  /** FIFO fairness: over any sequence of lock and unlock calls, the callers
      granted so far followed by those still waiting are exactly the initial
      waiters followed by the callers of `lock`, in order. So the mutex is
      granted in the order it was requested, and the invariant holds
      throughout. */
  lemma {:induction false} GrantsInRequestOrder(m: Mutex, es: seq<MutexEvent>)
    requires MutexInv(m)
    ensures Fold(MutexStep, m, es).effects + Fold(MutexStep, m, es).state.queue == m.queue + Requests(es)
    ensures MutexInv(Fold(MutexStep, m, es).state)
    decreases |es|
  {
    if es != [] {
      var prefix := es[..|es| - 1];
      var last := es[|es| - 1];
      GrantsInRequestOrder(m, prefix);
      FoldSnoc(MutexStep, m, es);
      RequestsSnoc(es);
      var mid := Fold(MutexStep, m, prefix);
      var step := MutexStep(mid.state, last);
      var added: seq<nat> := if last.LockBy? then [last.caller] else [];
      MutexStepKeepsInv(mid.state, last);
      MutexStepBalance(mid.state, last);
      Rebalance(mid.effects, mid.state.queue, step.effects, step.state.queue, m.queue, Requests(prefix), added);
    }
  }

  // ---------------------------------------------------------------------------
  // getStream

  /** The caller's `retry` object: for each key, `None` when it is absent
      and `Some(None)` when it is present but `undefined`. */
  datatype RetryOption = RetryOption(each: Option<Option<int>>, times: Option<Option<int>>)

  /** The merged retry policy; `None` is `undefined`. */
  datatype Retry = Retry(each: Option<int>, times: Option<int>)

  /** The keys of a Chrome tab query, each with its value as text. */
  type TabQuery = seq<(string, string)>

  datatype StreamOptions = StreamOptions(
    audio: bool,
    video: bool,
    mimeType: Option<string>,
    frameSize: Option<int>,
    retry: Option<RetryOption>,
    tabQuery: Option<TabQuery>)

  /** `getStream`'s options after defaulting. */
  datatype Resolved = Resolved(mimeType: string, frameSize: int, retry: Retry, tabQuery: TabQuery)

  /** `Object.assign({}, {each: 20, times: 3}, retry)`: a key the caller
      passed overrides the default even when its value is `undefined`. */
  function RetryPolicy(retry: Option<RetryOption>): (r: Retry)
    ensures retry.None? ==> r == Retry(Some(20), Some(3))
    ensures retry.Some? && retry.value.each.Some? ==> r.each == retry.value.each.value
    ensures retry.Some? && retry.value.each.None? ==> r.each == Some(20)
    ensures retry.Some? && retry.value.times.Some? ==> r.times == retry.value.times.value
    ensures retry.Some? && retry.value.times.None? ==> r.times == Some(3)
  {
    if retry.None? then Retry(Some(20), Some(3))
    else
      Retry(if retry.value.each.Some? then retry.value.each.value else Some(20),
            if retry.value.times.Some? then retry.value.times.value else Some(3))
  }

  /** The guard and the defaults at the top of `getStream`. */
  function ResolveOptions(o: StreamOptions): (r: Result<Resolved>)
    ensures r.Err? <==> !o.audio && !o.video
    ensures r.Err? ==> r.msg == "At least audio or video must be true"
    ensures r.Ok? && !FalsyString(o.mimeType) ==> r.value.mimeType == o.mimeType.value
    ensures r.Ok? && FalsyString(o.mimeType) ==>
              r.value.mimeType == if o.video then "video/webm" else "audio/webm"
    ensures r.Ok? ==> r.value.frameSize == if TruthyNumber(o.frameSize) then o.frameSize.value else 20
    ensures r.Ok? ==> r.value.retry == RetryPolicy(o.retry)
    ensures r.Ok? ==> r.value.tabQuery == if o.tabQuery.Some? then o.tabQuery.value else [("active", "true")]
  {
    if !o.audio && !o.video then Err("At least audio or video must be true")
    else
      var mime := if !FalsyString(o.mimeType) then o.mimeType.value
                  else if o.video then "video/webm" else "audio/webm";
      var frame := if TruthyNumber(o.frameSize) then o.frameSize.value else 20;
      var query := if o.tabQuery.Some? then o.tabQuery.value else [("active", "true")];
      Ok(Resolved(mime, frame, RetryPolicy(o.retry), query))
  }

  /** Resolving is a fixpoint: feeding the resolved values back as the
      caller's options resolves to the same options. */
  lemma ResolveIdempotent(o: StreamOptions)
    requires ResolveOptions(o).Ok?
    ensures var v := ResolveOptions(o).value;
            var again := StreamOptions(o.audio, o.video, Some(v.mimeType), Some(v.frameSize),
                                       Some(RetryOption(Some(v.retry.each), Some(v.retry.times))),
                                       Some(v.tabQuery));
            ResolveOptions(again) == ResolveOptions(o)
  {
  }

  /** The largest delay Node's `setTimeout` honours, 2^31 - 1 ms. */
  const MaxTimerDelay: int := 2147483647

  /** The delay Node's `setTimeout` actually uses for a requested one
      (`None` is `NaN`): `NaN`, anything below 1 and anything above
      `MaxTimerDelay` become 1 ms. */
  function TimerDelay(ms: Option<int>): (d: int)
    ensures 1 <= d <= MaxTimerDelay
    ensures ms.Some? && 1 <= ms.value <= MaxTimerDelay ==> d == ms.value
  {
    if ms.Some? && 1 <= ms.value <= MaxTimerDelay then ms.value else 1
  }

  /** The wait after the probe at `tick` fails: `Math.pow(each, tick)` ms as
      `setTimeout` applies it. A missing `each` is `NaN`, yet `NaN ** 0` is
      1. */
  function WaitMs(each: Option<int>, tick: nat): int
  {
    TimerDelay(if tick == 0 then Some(1) else if each.None? then None else Some(Pow(each.value, tick)))
  }

  function Pow(b: int, e: nat): int
  {
    if e == 0 then 1 else b * Pow(b, e - 1)
  }

  /** The number of probes `currentTick < times` allows: none when `times`
      is `undefined` or not positive. */
  function Attempts(times: Option<int>): nat
  {
    if times.Some? && times.value > 0 then times.value else 0
  }

  /** The first tick in `[from, limit)` whose probe succeeds. */
  function FirstSuccess(probe: nat -> bool, from: nat, limit: nat): (r: Option<nat>)
    ensures r.Some? ==> from <= r.value < limit && probe(r.value)
                        && forall t :: from <= t < r.value ==> !probe(t)
    ensures r.None? ==> forall t :: from <= t < limit ==> !probe(t)
    decreases limit - from
  {
    if from >= limit then None
    else if probe(from) then Some(from)
    else FirstSuccess(probe, from + 1, limit)
  }

  const ExtensionMissing: string := "Could not find START_RECORDING function in the browser context"

  /** `assertExtensionLoaded`: probe tick 0, 1, … while `tick < times`,
      waiting `each^tick` after each failure; return at the first success,
      throw once every allowed probe has failed. `probe(t)` is the answer of
      the `t`-th evaluation in the extension page. */
  method AssertExtensionLoaded(probe: nat -> bool, retry: Retry) returns (r: Result<nat>, waits: seq<int>)
    ensures var first := FirstSuccess(probe, 0, Attempts(retry.times));
            && (first.Some? ==> r == Ok(first.value))
            && (first.None? ==> r == Err(ExtensionMissing))
    ensures r.Ok? ==> |waits| == r.value
    ensures r.Err? ==> |waits| == Attempts(retry.times)
    ensures forall i :: 0 <= i < |waits| ==> waits[i] == WaitMs(retry.each, i)
  {
    var limit := Attempts(retry.times);
    var tick: nat := 0;
    waits := [];
    while tick < limit
      invariant tick <= limit
      invariant |waits| == tick
      invariant forall i :: 0 <= i < tick ==> waits[i] == WaitMs(retry.each, i)
      invariant FirstSuccess(probe, 0, limit) == FirstSuccess(probe, tick, limit)
    {
      if probe(tick) {
        return Ok(tick), waits;
      }
      waits := waits + [WaitMs(retry.each, tick)];
      tick := tick + 1;
    }
    r := Err(ExtensionMissing);
  }

  /** How far a `getStream` call gets: it settles with a result, or it
      waits in the mutex's queue. */
  datatype Call = Done(result: Result<Resolved>) | Blocked

  const TabMissing: string := "Cannot find tab, try providing your own tabQuery to getStream options"

  /** The TypeError of `(await wss).on(...)` when the port scan found no
      usable port and `wss` resolved to `undefined`. */
  const NoServer: string := "Cannot read properties of undefined (reading 'on')"

  /** `getStream` by `caller` against the module's mutex `m`. After the
      guard and the defaults it takes the lock, waiting in the queue while
      another call holds it. Under the lock it brings the page to the front
      and queries the tabs; `queryError` is the error either of those
      throws. Only then is the lock released, so a throw there leaves the
      mutex held for good. An empty answer throws; so does attaching the
      connection handler when the module's port scan (`ScanPorts`) settled
      on no port, as `server` says; only then is the extension probed. */
  method GetStream(o: StreamOptions, m: Mutex, caller: nat, queryError: Option<string>,
                   tabFound: bool, server: Option<int>, probe: nat -> bool) returns (r: Call, m': Mutex)
    ensures ResolveOptions(o).Err? ==> r == Done(ResolveOptions(o)) && m' == m
    ensures ResolveOptions(o).Ok? && m.held ==> r == Blocked && m' == Mutex(true, m.queue + [caller])
    ensures ResolveOptions(o).Ok? && !m.held && queryError.Some? ==>
              r == Done(Err(queryError.value)) && m' == Mutex(true, m.queue)
    ensures ResolveOptions(o).Ok? && !m.held && queryError.None? ==>
              && (m.queue == [] ==> m' == Mutex(false, []))
              && (m.queue != [] ==> m' == Mutex(true, m.queue[1..]))
              && (!tabFound ==> r == Done(Err(TabMissing)))
              && (tabFound && server.None? ==> r == Done(Err(NoServer)))
              && (tabFound && server.Some? ==>
                    var first := FirstSuccess(probe, 0, Attempts(ResolveOptions(o).value.retry.times));
                    && (first.Some? ==> r == Done(ResolveOptions(o)))
                    && (first.None? ==> r == Done(Err(ExtensionMissing))))
  {
    var resolved := ResolveOptions(o);
    if resolved.Err? {
      return Done(resolved), m;
    }
    var locked := Lock(m, caller);
    if locked.effects == [] {
      return Blocked, locked.state;
    }
    if queryError.Some? {
      return Done(Err(queryError.value)), locked.state;
    }
    m' := Unlock(locked.state).state;
    if !tabFound {
      return Done(Err(TabMissing)), m';
    }
    if server.None? {
      return Done(Err(NoServer)), m';
    }
    var loaded, _ := AssertExtensionLoaded(probe, resolved.value.retry);
    if loaded.Err? {
      return Done(Err(loaded.msg)), m';
    }
    r := Done(resolved);
  }

  /** A mutex left held with nobody to release it grants no later `lock`:
      every later caller waits in the queue, in arrival order. */
  lemma {:induction false} LeakedLockStarves(m: Mutex, es: seq<MutexEvent>)
    requires m.held
    requires forall i :: 0 <= i < |es| ==> es[i].LockBy?
    ensures Fold(MutexStep, m, es).effects == []
    ensures Fold(MutexStep, m, es).state == Mutex(true, m.queue + Requests(es))
    decreases |es|
  {
    if es != [] {
      var c := es[0].caller;
      var o := MutexStep(m, es[0]);
      assert o == Out(Mutex(true, m.queue + [c]), []);
      var tail := es[1..];
      assert forall i :: 0 <= i < |tail| ==> tail[i].LockBy? by {
        forall i | 0 <= i < |tail| ensures tail[i].LockBy? {
          assert tail[i] == es[i + 1];
        }
      }
      LeakedLockStarves(o.state, tail);
      var rest := Fold(MutexStep, o.state, tail);
      assert Fold(MutexStep, m, es) == Out(rest.state, o.effects + rest.effects);
      assert Requests(es) == [c] + Requests(tail);
      assert (m.queue + [c]) + Requests(tail) == m.queue + ([c] + Requests(tail));
    }
  }

  // ---------------------------------------------------------------------------
  // The WebSocket port scan

  const FirstPort: int := 55200
  const LastPort: int := 65535

  /** How a server on one port came up: listening, or an error event with
      its message. */
  datatype PortOutcome = Listening | Failed(message: string)

  /** The race resolves to true on `listening` and on any error that is not
      `EADDRINUSE`. */
  predicate Usable(o: PortOutcome)
  {
    o.Listening? || !Includes(o.message, "EADDRINUSE")
  }

  /** The least usable port in `[from, LastPort]`. */
  function FirstUsable(outcome: int -> PortOutcome, from: int): (r: Option<int>)
    ensures r.Some? ==> from <= r.value <= LastPort && Usable(outcome(r.value))
                        && forall p :: from <= p < r.value ==> !Usable(outcome(p))
    ensures r.None? ==> forall p :: from <= p <= LastPort ==> !Usable(outcome(p))
    decreases LastPort + 1 - from
  {
    if from > LastPort then None
    else if Usable(outcome(from)) then Some(from)
    else FirstUsable(outcome, from + 1)
  }

  /** The `wss` loop: try each port upward from 55200 and keep the first
      usable one; `None` when the range is exhausted. */
  method ScanPorts(outcome: int -> PortOutcome) returns (port: Option<int>)
    ensures port == FirstUsable(outcome, FirstPort)
    ensures port.Some? ==> FirstPort <= port.value <= LastPort && Usable(outcome(port.value))
    ensures port.Some? ==> forall p :: FirstPort <= p < port.value ==> !Usable(outcome(p))
    ensures port.None? ==> forall p :: FirstPort <= p <= LastPort ==> !Usable(outcome(p))
  {
    var i := FirstPort;
    while i <= LastPort
      invariant FirstPort <= i <= LastPort + 1
      invariant FirstUsable(outcome, FirstPort) == FirstUsable(outcome, i)
    {
      if Usable(outcome(i)) {
        return Some(i);
      }
      i := i + 1;
    }
    port := None;
  }
}
