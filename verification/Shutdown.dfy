/**
  The graceful-shutdown controller (packages/shared-config/src/graceful-shutdown.ts) and the worker
  that runs under it (packages/worker-kit/src/run-worker.ts).  Signals, requests, readiness, the
  cleanup's microtasks and the worker's own continuation come in any order.
 */
module Shutdown {

  import opened Wrappers

  datatype Signal = Sigint | Sigterm

  /** Where `cleanupPromise` stands; `Broken` is a cleanup that failed and whose error handler threw. */
  datatype Phase = Idle | Scheduled(signal: Signal) | Running(signal: Signal) | Done(code: int) | Broken

  /** What a caller was handed: the shared `pending` promise, the cleanup's own, or a resolved null. */
  datatype Promise = Pending | Cleanup | Nothing

  /** The worker: still starting, waiting for `markReady`, running its intervals, or returned without them. */
  datatype Worker = Starting | AwaitingReady(on: Promise) | Armed | Returned

  datatype State = State(
    ready: bool,
    requested: Option<Signal>,
    phase: Phase,
    pendingValue: Option<int>,       // what `pending` resolved to
    cleanupValue: Option<int>,       // what the cleanup promise resolved to
    promises: map<nat, Promise>,     // by request
    listening: bool,
    cleanups: nat,                   // how often the cleanup was called
    exits: seq<int>,
    worker: Worker,
    timers: nat)                     // intervals that are armed

  datatype Event =
    | Request(id: nat, signal: Signal)
    | ProcessSignal(id: nat, signal: Signal)
    | MarkReady
    | Dispose
    | BeginCleanup
    | EndCleanup(ok: bool, onErrorThrows: bool)
    | Continue(jobs: nat)            // the worker goes on after `await markReady()`

  const START := State(false, None, Idle, None, None, map[], true, 0, [], Starting, 0)

  function Resolved(s: State, p: Promise): bool {
    match p
    case Pending => s.pendingValue.Some?
    case Cleanup => s.cleanupValue.Some?
    case Nothing => true
  }

  predicate Enabled(s: State, e: Event) {
    match e
    case Request(id, _) => id !in s.promises
    case ProcessSignal(id, _) => id !in s.promises
    case BeginCleanup => s.phase.Scheduled?
    case EndCleanup(_, _) => s.phase.Running?
    case Continue(_) => s.worker.AwaitingReady? && Resolved(s, s.worker.on)
    case _ => true
  }

  /** `runCleanup`: start the cleanup once both a signal and readiness are there. */
  function RunCleanup(s: State): (State, Promise) {
    if !s.phase.Idle? then (s, Cleanup)
    else if !s.ready || s.requested.None? then (s, Pending)
    else (s.(phase := Scheduled(s.requested.value)), Cleanup)
  }

  function Requested(s: State, id: nat, signal: Signal): State {
    var (t, p) := RunCleanup(s.(requested := if s.requested.Some? then s.requested else Some(signal)));
    t.(promises := t.promises[id := p])
  }

  function Step(s: State, e: Event): State {
    match e
    case Request(id, signal) => Requested(s, id, signal)
    case ProcessSignal(id, signal) => if s.listening then Requested(s, id, signal) else s
    case MarkReady =>
      var r := s.(ready := true);
      var (t, p) := if r.requested.Some? then RunCleanup(r) else (r, Nothing);
      t.(worker := if s.worker.Starting? then AwaitingReady(p) else s.worker)
    case Dispose => s.(listening := false)
    case BeginCleanup =>
      if s.phase.Scheduled? then s.(phase := Running(s.phase.signal), cleanups := s.cleanups + 1, timers := 0) else s
    case EndCleanup(ok, onErrorThrows) =>
      if !ok && onErrorThrows then s.(phase := Broken)
      else
        var code := if ok then 0 else 1;
        s.(phase := Done(code), pendingValue := Some(code), cleanupValue := Some(code), exits := s.exits + [code])
    case Continue(jobs) =>
      if s.requested.Some? then s.(worker := Returned) else s.(worker := Armed, timers := jobs)
  }

  // ----- what every run keeps

  /** The cleanup is under way exactly when there are both a signal and readiness, and it is for the first signal. */
  predicate CleanupWhenBoth(s: State) {
    && (s.phase.Idle? <==> !s.ready || s.requested.None?)
    && (s.phase.Scheduled? || s.phase.Running? ==> s.requested == Some(s.phase.signal))
  }

  predicate CleanupOnce(s: State) { s.cleanups == if s.phase.Idle? || s.phase.Scheduled? then 0 else 1 }

  predicate ExitOnce(s: State) {
    && s.exits == (if s.phase.Done? then [s.phase.code] else [])
    && s.pendingValue == s.cleanupValue == (if s.phase.Done? then Some(s.phase.code) else None)
  }

  /** A request was handed `pending` only because no cleanup had been started. */
  predicate PromisesLive(s: State) { forall id :: id in s.promises ==> s.promises[id] != Nothing }

  predicate WorkerInOrder(s: State) {
    && (s.worker.Starting? || s.ready)
    && (s.timers > 0 ==> s.worker.Armed? && (s.phase.Idle? || s.phase.Scheduled?))
  }

  predicate Inv(s: State) { CleanupWhenBoth(s) && CleanupOnce(s) && ExitOnce(s) && PromisesLive(s) && WorkerInOrder(s) }

  lemma InvKept(s: State, e: Event)
    requires Inv(s) && Enabled(s, e)
    ensures Inv(Step(s, e))
  {}

  ghost predicate Runs(s: State, events: seq<Event>, t: State)
    decreases |events|
  {
    if events == [] then s == t else Enabled(s, events[0]) && Runs(Step(s, events[0]), events[1..], t)
  }

  lemma {:induction false} InvAlong(s: State, events: seq<Event>, t: State)
    requires Inv(s) && Runs(s, events, t)
    ensures Inv(t)
    decreases |events|
  {
    hide Inv, Step, Enabled;
    if events != [] {
      InvKept(s, events[0]);
      InvAlong(Step(s, events[0]), events[1..], t);
    }
  }

  /**
    In every run: the cleanup is called at most once, only after both a signal and readiness, and
    for the first signal; exit is called at most once; a request resolves to nothing but that exit
    code, and every request has resolved by then; and once the cleanup has begun no interval is armed.
   */
  lemma ShutdownIsOrderly(events: seq<Event>, s: State, id: nat)
    requires Runs(START, events, s)
    ensures s.cleanups <= 1 && (s.cleanups == 1 ==> s.ready && s.requested.Some?)
    ensures s.phase.Running? ==> s.requested == Some(s.phase.signal)
    ensures |s.exits| <= 1
    ensures id in s.promises ==> (Outcome(s, id) == if s.exits == [] then None else Some(s.exits[0]))
    ensures s.cleanups == 1 ==> s.timers == 0
    ensures s.ready && s.requested.Some? ==> !s.phase.Idle?
  {
    InvAlong(START, events, s);
  }

  /** What the promise of a request resolved to. */
  function Outcome(s: State, id: nat): Option<int>
    requires id in s.promises
  {
    match s.promises[id]
    case Pending => s.pendingValue
    case Cleanup => s.cleanupValue
    case Nothing => None
  }

  /** The first signal stays, and so does a promise once handed out; after the cleanup began nothing arms an interval. */
  lemma {:induction false} NothingIsTakenBack(s: State, events: seq<Event>, t: State)
    requires Inv(s) && Runs(s, events, t)
    ensures s.requested.Some? ==> t.requested == s.requested
    ensures forall id :: id in s.promises ==> id in t.promises && t.promises[id] == s.promises[id]
    ensures s.exits != [] ==> t.exits == s.exits
    ensures s.phase.Broken? ==> t.phase.Broken? && t.exits == []
    decreases |events|
  {
    if events != [] {
      InvKept(s, events[0]);
      KeptStep(s, events[0]);
      hide Step, Enabled, Inv;
      NothingIsTakenBack(Step(s, events[0]), events[1..], t);
    } else {
      assert s.phase.Broken? ==> s.exits == [];
    }
  }

  lemma KeptStep(s: State, e: Event)
    requires Inv(s) && Enabled(s, e)
    ensures var t := Step(s, e);
            && (s.requested.Some? ==> t.requested == s.requested)
            && (forall id :: id in s.promises ==> id in t.promises && t.promises[id] == s.promises[id])
            && (s.exits != [] ==> t.exits == s.exits)
            && (s.phase.Broken? ==> t.phase.Broken?)
  {}

  /** A cleanup that ends leads to exit, unless it failed and the error handler threw: then exit never comes. */
  lemma ExitIffHandlerReturns(s: State, ok: bool, onErrorThrows: bool, events: seq<Event>, t: State)
    requires Inv(s) && Enabled(s, EndCleanup(ok, onErrorThrows)) && Runs(Step(s, EndCleanup(ok, onErrorThrows)), events, t)
    ensures t.exits != [] <==> ok || !onErrorThrows
    ensures t.exits != [] ==> t.exits == [if ok then 0 else 1]
  {
    var e := EndCleanup(ok, onErrorThrows);
    InvKept(s, e);
    assert Step(s, e).exits != [] <==> ok || !onErrorThrows;
    NothingIsTakenBack(Step(s, e), events, t);
  }

  // ----- what was asked for happens

  /** The first request of a run: a call, or a signal while the listeners are installed. */
  ghost function Asked(listening: bool, events: seq<Event>): Option<Signal> {
    if events == [] then None
    else if events[0].Request? || (events[0].ProcessSignal? && listening) then Some(events[0].signal)
    else Asked(listening && !events[0].Dispose?, events[1..])
  }

  /** In every run the signal that the cleanup is for is the first one asked for. */
  lemma {:induction false} FirstRequestCounts(s: State, events: seq<Event>, t: State)
    requires Runs(s, events, t)
    ensures t.requested == if s.requested.Some? then s.requested else Asked(s.listening, events)
    ensures t.listening <==> s.listening && Dispose !in events
    decreases |events|
  {
    if events != [] {
      FirstRequestCounts(Step(s, events[0]), events[1..], t);
      assert events == [events[0]] + events[1..];
    }
  }

  /** A request, or a signal that counts as one, is answered with a promise; any other signal changes nothing. */
  lemma EveryRequestIsAnswered(s: State, id: nat, signal: Signal)
    requires Inv(s) && id !in s.promises
    ensures Enabled(s, Request(id, signal)) && Enabled(s, ProcessSignal(id, signal))
    ensures var t := Step(s, Request(id, signal));
            && t.promises == s.promises[id := if s.ready then Cleanup else Pending]
            && (s.ready ==> !t.phase.Idle?) && t.ready == s.ready
    ensures Step(s, ProcessSignal(id, signal)) == if s.listening then Step(s, Request(id, signal)) else s
  {}

  /** Once the cleanup is due it can be called and end: every request is resolved with the exit code. */
  lemma CleanupLeadsToExit(s: State, ok: bool, id: nat)
    requires Inv(s) && s.phase.Scheduled? && id in s.promises
    ensures Enabled(s, BeginCleanup)
    ensures var running := Step(s, BeginCleanup);
            && running.phase == Running(s.phase.signal) && running.timers == 0
            && Enabled(running, EndCleanup(ok, false))
            && var done := Step(running, EndCleanup(ok, false));
               done.exits == [if ok then 0 else 1] && Outcome(done, id) == Some(if ok then 0 else 1)
  {}

  /** The worker waits until it is ready, and then arms one interval per job, unless a shutdown was requested. */
  lemma WorkerArmsExactly(s: State, jobs: nat)
    requires Inv(s)
    ensures Enabled(s, MarkReady) && Enabled(s, Dispose) && Step(s, Dispose) == s.(listening := false)
    ensures s.worker.AwaitingReady? && s.worker.on.Nothing? ==> Enabled(s, Continue(jobs))
    ensures s.worker.Starting? ==>
              Step(s, MarkReady).worker == AwaitingReady(if s.requested.Some? then Cleanup else Nothing)
    ensures !s.worker.Starting? ==> Step(s, MarkReady).worker == s.worker
    ensures Step(s, MarkReady).ready && (s.requested.Some? ==> !Step(s, MarkReady).phase.Idle?)
    ensures Enabled(s, Continue(jobs)) ==>
              var t := Step(s, Continue(jobs));
              if s.requested.None? then t.worker == Armed && t.timers == jobs else t.worker == Returned && t.timers == s.timers
  {}

  // ----- the controller as the code has it

  class Controller {
    var ready: bool
    var requested: Option<Signal>
    var phase: Phase
    var pendingValue: Option<int>
    var cleanupValue: Option<int>
    var promises: map<nat, Promise>
    var listening: bool
    var cleanups: nat
    var exits: seq<int>
    var worker: Worker
    var timers: nat

    ghost function View(): State
      reads this
    {
      State(ready, requested, phase, pendingValue, cleanupValue, promises, listening, cleanups, exits, worker, timers)
    }

    constructor ()
      ensures View() == START && Inv(View())
    {
      ready, requested, phase := false, None, Idle;
      pendingValue, cleanupValue, promises := None, None, map[];
      listening, cleanups, exits := true, 0, [];
      worker, timers := Starting, 0;
    }

    method Run() returns (p: Promise)
      modifies this`phase
      ensures (View(), p) == RunCleanup(old(View()))
    {
      if !phase.Idle? {
        return Cleanup;
      }
      if !ready || requested.None? {
        return Pending;
      }
      phase := Scheduled(requested.value);
      return Cleanup;
    }

    method HandleRequest(id: nat, signal: Signal)
      requires Inv(View()) && Enabled(View(), Event.Request(id, signal))
      modifies this
      ensures View() == Step(old(View()), Event.Request(id, signal)) && Inv(View())
    {
      if requested.None? {
        requested := Some(signal);
      }
      var p := Run();
      promises := promises[id := p];
      InvKept(old(View()), Event.Request(id, signal));
    }

    method OnSignal(id: nat, signal: Signal)
      requires Inv(View()) && Enabled(View(), ProcessSignal(id, signal))
      modifies this
      ensures View() == Step(old(View()), ProcessSignal(id, signal)) && Inv(View())
    {
      if listening {
        HandleRequest(id, signal);
      }
    }

    method BecomeReady()
      requires Inv(View())
      modifies this
      ensures View() == Step(old(View()), MarkReady) && Inv(View())
    {
      ready := true;
      var p := Nothing;
      if requested.Some? {
        p := Run();
      }
      if worker.Starting? {
        worker := AwaitingReady(p);
      }
      InvKept(old(View()), MarkReady);
    }

    /** The microtask that calls the cleanup; the worker's cleanup clears its intervals first. */
    method CallCleanup()
      requires Inv(View()) && Enabled(View(), BeginCleanup)
      modifies this
      ensures View() == Step(old(View()), BeginCleanup) && Inv(View())
    {
      phase, cleanups, timers := Running(phase.signal), cleanups + 1, 0;
      InvKept(old(View()), BeginCleanup);
    }

    method SettleCleanup(ok: bool, onErrorThrows: bool)
      requires Inv(View()) && Enabled(View(), EndCleanup(ok, onErrorThrows))
      modifies this
      ensures View() == Step(old(View()), EndCleanup(ok, onErrorThrows)) && Inv(View())
    {
      if !ok && onErrorThrows {
        phase := Broken;
      } else {
        var code := if ok then 0 else 1;
        pendingValue := Some(code);
        exits := exits + [code];
        cleanupValue := Some(code);
        phase := Done(code);
      }
      InvKept(old(View()), EndCleanup(ok, onErrorThrows));
    }

    /** The end of `startWorker`: one interval per job, unless a shutdown was requested meanwhile. */
    method ArmIntervals(jobs: nat)
      requires Inv(View()) && Enabled(View(), Continue(jobs))
      modifies this
      ensures View() == Step(old(View()), Continue(jobs)) && Inv(View())
    {
      if requested.Some? {
        worker := Returned;
      } else {
        timers := 0;
        for i := 0 to jobs
          invariant timers == i && View() == old(View()).(timers := i)
        {
          timers := timers + 1;
        }
        worker := Armed;
      }
      InvKept(old(View()), Continue(jobs));
    }
  }
}
