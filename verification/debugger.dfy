/** The run loop of the Pep/10 debugger (Pep_ISA in lib/project/pep10.cpp): execution proceeds in batches of
    at most 1000 ticks, each of which is delivered from a queue and may queue the next one. */
module Debuggers {

  datatype RunState = Halted | NormalExec | DebugPaused | DebugExec

  /** What one tick of the simulated machine does: it takes `extra` + 1 ticks of time, may hit a
      breakpoint, satisfy the step condition, or write to the power-off port, or it may fail. */
  datatype Tick = Tick(extra: nat, hit: bool, stop: bool, wrote: bool, error: bool)

  /** The machine and the program it runs: the outcome of every tick to come. */
  type Machine = nat -> Tick

  const BATCH_TICKS := 1000
  const MAX_CHAINED := 10

  datatype Debugger = Debugger(
    state: RunState,
    pendingPause: bool,
    stepsSinceLastInteraction: nat,
    /** Deferred executions that are queued. */
    pending: nat,
    /** Ticks executed. */
    ticks: nat)

  datatype Batch = Batch(pause: bool, finished: bool, ticks: nat)

  /** The do-while loop of one batch, after `elapsed` ticks of it. */
  function RunBatch(m: Machine, ticks: nat, elapsed: nat, pause: bool): (b: Batch)
    ensures b.ticks > ticks
    decreases BATCH_TICKS - elapsed
  {
    var t := m(ticks);
    if t.error then Batch(pause, true, ticks + 1)
    else
      var pause' := pause || t.hit || t.stop;
      if elapsed + t.extra + 1 < BATCH_TICKS && !t.wrote && !pause'
      then RunBatch(m, ticks + 1, elapsed + t.extra + 1, pause')
      else Batch(pause', t.wrote, ticks + 1)
  }

  /** How much time the first `k` ticks from `from` on take. */
  function TimeOf(m: Machine, from: nat, k: nat): nat {
    if k == 0 then 0 else TimeOf(m, from, k - 1) + m(from + k - 1).extra + 1
  }

  /** A batch that starts at `from` ends with its tick `k` if not before: the tick fails, hits a breakpoint,
      satisfies the step condition, writes, or uses up the time of the batch; or a pause was pending. */
  predicate Ends(m: Machine, from: nat, pause: bool, k: nat) {
    var t := m(from + k);
    t.error || t.hit || t.stop || t.wrote || pause || TimeOf(m, from, k + 1) >= 1000
  }

  /** The batch `b` has executed the ticks from `from` on up to the first that ends it. */
  ghost predicate Executed(m: Machine, from: nat, pause: bool, b: Batch) {
    && b.ticks > from
    && var last := b.ticks - from - 1;
    && Ends(m, from, pause, last)
    && (forall j :: 0 <= j < last ==> !Ends(m, from, pause, j))
    && (b.finished <==> m(from + last).error || m(from + last).wrote)
    && (b.pause <==> pause || (!m(from + last).error && (m(from + last).hit || m(from + last).stop)))
  }

  lemma {:induction false} BatchGoesOn(m: Machine, from: nat, pause: bool, done: nat)
    requires forall j :: 0 <= j < done ==> !Ends(m, from, pause, j)
    requires done > 0 ==> TimeOf(m, from, done) < 1000
    ensures Executed(m, from, pause, RunBatch(m, from + done, TimeOf(m, from, done), pause))
    decreases BATCH_TICKS - TimeOf(m, from, done)
  {
    if Ends(m, from, pause, done) {
    } else {
      BatchGoesOn(m, from, pause, done + 1);
    }
  }

  /** A batch executes the ticks up to the first that ends it; it is finished if that tick fails or writes, and
      asks for a pause if one was pending or that tick, not failing, hits or stops. */
  lemma {:induction false} BatchEndsAtFirst(m: Machine, from: nat, pause: bool)
    ensures Executed(m, from, pause, RunBatch(m, from, 0, pause))
  {
    BatchGoesOn(m, from, pause, 0);
  }

  /** What the user does. */
  datatype Interaction = Execute | Start(skipOS: bool) | Continue | Step | Pause | Stop

  /** The event loop either handles an interaction or delivers a queued execution. */
  datatype Op = Interact(i: Interaction) | Deliver

  function Interacted(d: Debugger, i: Interaction): Debugger {
    match i
    case Execute =>
      d.(state := NormalExec, pendingPause := false, stepsSinceLastInteraction := 0, pending := d.pending + 1)
    case Start(skipOS) =>
      d.(state := DebugPaused, pendingPause := false, stepsSinceLastInteraction := 0,
         pending := if skipOS then d.pending + 1 else d.pending)
    case Continue =>
      d.(state := DebugExec, pendingPause := false, stepsSinceLastInteraction := 0, pending := d.pending + 1)
    case Step =>
      d.(state := DebugExec, pendingPause := false, stepsSinceLastInteraction := 0, pending := d.pending + 1)
    case Pause => d.(pendingPause := true)
    case Stop => d.(state := Halted)
  }

  /** onDeferredExecution */
  function Delivered(d: Debugger, m: Machine): Debugger {
    var running := match d.state
      case Halted => NormalExec
      case NormalExec => NormalExec
      case DebugPaused => DebugExec
      case DebugExec => DebugExec;
    var b := RunBatch(m, d.ticks, 0, d.pendingPause);
    var d' := d.(state := running, pendingPause := b.pause, pending := if d.pending > 0 then d.pending - 1 else 0,
                 ticks := b.ticks);
    if b.finished then d'.(state := Halted)
    else
      var counted := d'.(stepsSinceLastInteraction := d.stepsSinceLastInteraction + 1);
      if d.stepsSinceLastInteraction > MAX_CHAINED then counted.(state := DebugPaused)
      else if !b.pause then counted.(pending := counted.pending + 1)
      else counted.(pendingPause := false, state := DebugPaused)
  }

  function Apply(d: Debugger, op: Op, m: Machine): Debugger {
    match op
    case Interact(i) => Interacted(d, i)
    case Deliver => if d.pending > 0 then Delivered(d, m) else d
  }

  class PepIsa {
    var state: RunState
    var pendingPause: bool
    var stepsSinceLastInteraction: nat
    var pending: nat
    var ticks: nat

    constructor ()
      ensures View() == Debugger(Halted, false, 0, 0, 0)
    {
      state, pendingPause, stepsSinceLastInteraction, pending, ticks := Halted, false, 0, 0, 0;
    }

    function View(): Debugger
      reads this
    {
      Debugger(state, pendingPause, stepsSinceLastInteraction, pending, ticks)
    }

    method OnExecute()
      modifies this
      ensures View() == Interacted(old(View()), Execute)
      ensures state == NormalExec && !pendingPause && stepsSinceLastInteraction == 0 && pending == old(pending) + 1
      ensures ticks == old(ticks)
    {
      pendingPause := false;
      state := NormalExec;
      stepsSinceLastInteraction := 0;
      pending := pending + 1;
    }

    method OnDebuggingStart(pcInOS: bool, ignoreOS: bool)
      modifies this
      ensures View() == Interacted(old(View()), Start(pcInOS && ignoreOS))
      ensures state == DebugPaused && !pendingPause && stepsSinceLastInteraction == 0 && ticks == old(ticks)
      ensures pending == if pcInOS && ignoreOS then old(pending) + 1 else old(pending)
    {
      pendingPause := false;
      state := DebugPaused;
      stepsSinceLastInteraction := 0;
      if pcInOS && ignoreOS {
        pending := pending + 1;
      }
    }

    method OnDebuggingContinue()
      modifies this
      ensures View() == Interacted(old(View()), Continue)
      ensures state == DebugExec && !pendingPause && stepsSinceLastInteraction == 0 && pending == old(pending) + 1
      ensures ticks == old(ticks)
    {
      state := DebugExec;
      pendingPause := false;
      stepsSinceLastInteraction := 0;
      pending := pending + 1;
    }

    method StepDepthHelper()
      modifies this
      ensures View() == Interacted(old(View()), Step)
      ensures state == DebugExec && !pendingPause && stepsSinceLastInteraction == 0 && pending == old(pending) + 1
      ensures ticks == old(ticks)
    {
      state := DebugExec;
      stepsSinceLastInteraction := 0;
      pendingPause := false;
      pending := pending + 1;
    }

    method OnDebuggingPause()
      modifies this`pendingPause
      ensures View() == Interacted(old(View()), Pause)
      ensures pendingPause
    {
      pendingPause := true;
    }

    method OnDebuggingStop()
      modifies this`state
      ensures View() == Interacted(old(View()), Stop)
      ensures state == Halted
    {
      state := Halted;
    }

    /** The body of the batch; ticks run until time is up, something is written, or a pause is asked for. */
    method Run(m: Machine) returns (finished: bool)
      modifies this`ticks, this`pendingPause
      ensures Batch(pendingPause, finished, ticks) == RunBatch(m, old(ticks), 0, old(pendingPause))
      ensures Executed(m, old(ticks), old(pendingPause), Batch(pendingPause, finished, ticks))
    {
      BatchEndsAtFirst(m, ticks, pendingPause);
      var elapsed := 0;
      finished := false;
      while true
        invariant elapsed == 0 || elapsed < BATCH_TICKS
        invariant RunBatch(m, old(ticks), 0, old(pendingPause)) == RunBatch(m, ticks, elapsed, pendingPause)
        decreases BATCH_TICKS - elapsed
      {
        var t := m(ticks);
        ticks := ticks + 1;
        if t.error {
          finished := true;
          return;
        }
        pendingPause := pendingPause || t.hit || t.stop;
        elapsed := elapsed + t.extra + 1;
        if !(elapsed < BATCH_TICKS && !t.wrote && !pendingPause) {
          finished := t.wrote;
          return;
        }
      }
    }

    method OnDeferredExecution(m: Machine)
      requires pending > 0
      modifies this
      ensures View() == Apply(old(View()), Deliver, m)
    {
      pending := pending - 1;
      match state {
        case Halted => state := NormalExec;
        case NormalExec =>
        case DebugPaused => state := DebugExec;
        case DebugExec => state := DebugExec;
      }
      var finished := Run(m);
      if finished {
        if state == NormalExec {
          state := Halted;
        } else if state != Halted {
          OnDebuggingStop();
        }
        return;
      }
      var chained := stepsSinceLastInteraction;
      stepsSinceLastInteraction := stepsSinceLastInteraction + 1;
      if chained > MAX_CHAINED {
        state := DebugPaused;
      } else if !pendingPause {
        pending := pending + 1;
      } else {
        pendingPause := false;
        state := DebugPaused;
      }
    }
  }

  /* Runs. */

  function ApplyAll(d: Debugger, ops: seq<Op>, m: Machine): Debugger {
    if ops == [] then d else Apply(ApplyAll(d, ops[..|ops| - 1], m), ops[|ops| - 1], m)
  }

  /** If nothing is queued, the debugger is halted or paused. */
  predicate Settled(d: Debugger) {
    d.pending == 0 ==> d.state == Halted || d.state == DebugPaused
  }

  lemma {:induction false} AlwaysSettled(d: Debugger, ops: seq<Op>, m: Machine)
    requires Settled(d)
    ensures Settled(ApplyAll(d, ops, m))
  {
    hide RunBatch;
    if ops == [] {
    } else {
      AlwaysSettled(d, ops[..|ops| - 1], m);
    }
  }

  /** The mode in which a delivery runs: a stopped debugger executes normally, a paused one debugs. */
  predicate Debugging(state: RunState) {
    state == DebugPaused || state == DebugExec
  }

  /** What a delivery leaves, from the last tick it executed: after a failure or a write the debugger is halted;
      else, after more than 10 batches without interaction, or if a pause was asked for, it is paused; else the
      next batch is queued. */
  lemma {:induction false} DeliveryOutcome(d: Debugger, m: Machine)
    requires d.pending > 0
    ensures var e := Apply(d, Deliver, m);
      && e.ticks > d.ticks
      && var last := m(e.ticks - 1);
      && var paused := d.pendingPause || (!last.error && (last.hit || last.stop));
      if last.error || last.wrote
      then e == Debugger(Halted, paused, d.stepsSinceLastInteraction, d.pending - 1, e.ticks)
      else if d.stepsSinceLastInteraction > 10
      then e == Debugger(DebugPaused, paused, d.stepsSinceLastInteraction + 1, d.pending - 1, e.ticks)
      else if paused
      then e == Debugger(DebugPaused, false, d.stepsSinceLastInteraction + 1, d.pending - 1, e.ticks)
      else e == Debugger(if Debugging(d.state) then DebugExec else NormalExec, false,
                         d.stepsSinceLastInteraction + 1, d.pending, e.ticks)
    ensures var n := Apply(d, Deliver, m).ticks - d.ticks - 1;
      Ends(m, d.ticks, d.pendingPause, n) && forall j :: 0 <= j < n ==> !Ends(m, d.ticks, d.pendingPause, j)
  {
    hide RunBatch;
    BatchEndsAtFirst(m, d.ticks, d.pendingPause);
  }

  /** A breakpoint that neither fails nor writes pauses the debugger at once, with nothing new queued. */
  lemma {:induction false} BreakpointPauses(d: Debugger, m: Machine, k: nat)
    requires d.pending > 0 && m(d.ticks + k).hit && !m(d.ticks + k).error && !m(d.ticks + k).wrote
    requires forall j :: 0 <= j < k ==> !Ends(m, d.ticks, d.pendingPause, j)
    ensures var e := Apply(d, Deliver, m);
      e.ticks == d.ticks + k + 1 && e.state == DebugPaused && e.pending == d.pending - 1
  {
    hide Apply, RunBatch;
    DeliveryOutcome(d, m);
    var n := Apply(d, Deliver, m).ticks - d.ticks - 1;
    assert Ends(m, d.ticks, d.pendingPause, k);
    if n < k {
      assert false;
    } else if k < n {
      assert false;
    }
  }

  /** The batches that can still run without another interaction. */
  function BatchesLeft(d: Debugger): nat {
    d.pending + if d.stepsSinceLastInteraction <= MAX_CHAINED then MAX_CHAINED + 1 - d.stepsSinceLastInteraction else 0
  }

  /** The interactions that reset the counter. */
  predicate Resets(op: Op) {
    op.Interact? && !op.i.Pause? && !op.i.Stop?
  }

  /** How many of the operations are batches that run. */
  function Batches(d: Debugger, ops: seq<Op>, m: Machine): nat {
    if ops == [] then 0
    else
      var front := ops[..|ops| - 1];
      Batches(d, front, m) + if ops[|ops| - 1].Deliver? && ApplyAll(d, front, m).pending > 0 then 1 else 0
  }

  /** However stops, pauses and deliveries are interleaved, every batch uses up one of those left. */
  lemma {:induction false} BatchesAreUsedUp(d: Debugger, ops: seq<Op>, m: Machine)
    requires forall k :: 0 <= k < |ops| ==> !Resets(ops[k])
    ensures Batches(d, ops, m) + BatchesLeft(ApplyAll(d, ops, m)) <= BatchesLeft(d)
  {
    hide RunBatch;
    if ops == [] {
    } else {
      BatchesAreUsedUp(d, ops[..|ops| - 1], m);
    }
  }

  /** After the last interaction that resets the counter, at most 11 more batches than are queued then
      can run. */
  lemma {:induction false} RunsEnd(d: Debugger, op: Op, ops: seq<Op>, m: Machine)
    requires Resets(op) && forall k :: 0 <= k < |ops| ==> !Resets(ops[k])
    ensures var e := Apply(d, op, m); Batches(e, ops, m) <= e.pending + 11
  {
    BatchesAreUsedUp(Apply(d, op, m), ops, m);
  }

  /** A program that never stops. */
  ghost predicate Endless(m: Machine) {
    forall t :: !m(t).hit && !m(t).stop && !m(t).wrote && !m(t).error
  }

  lemma {:induction false} EndlessBatch(m: Machine, ticks: nat, elapsed: nat)
    requires Endless(m)
    ensures var b := RunBatch(m, ticks, elapsed, false); !b.pause && !b.finished
    decreases BATCH_TICKS - elapsed
  {
    var t := m(ticks);
    if elapsed + t.extra + 1 >= BATCH_TICKS {
    } else {
      EndlessBatch(m, ticks + 1, elapsed + t.extra + 1);
    }
  }

  /** execute runs normally, continue and step debug: what they queue stays in that mode from batch to batch. */
  lemma {:induction false} StartedInMode(d: Debugger, i: Interaction, m: Machine)
    requires (i.Execute? || i.Continue? || i.Step?) && Endless(m)
    ensures var e := Apply(Interacted(d, i), Deliver, m);
      && e.state == (if i.Execute? then NormalExec else DebugExec)
      && e.pending == d.pending + 1 && e.stepsSinceLastInteraction == 1 && !e.pendingPause
  {
    hide RunBatch;
    EndlessBatch(m, d.ticks, 0);
  }

  function Deliveries(k: nat): seq<Op> {
    seq(k, i => Deliver)
  }

  /** On an endless program the bound is reached: from an interaction that queues the only execution, 12
      batches run, and then the debugger is paused with nothing queued. */
  lemma {:induction false} EndlessRunIsCutShort(d: Debugger, m: Machine, k: nat)
    requires Endless(m) && !d.pendingPause && d.stepsSinceLastInteraction == 0 && d.pending == 1 && k <= 12
    ensures var e := ApplyAll(d, Deliveries(k), m);
      && Batches(d, Deliveries(k), m) == k && e.stepsSinceLastInteraction == k && !e.pendingPause
      && e.pending == (if k < 12 then 1 else 0) && (k == 12 ==> e.state == DebugPaused)
  {
    hide RunBatch;
    if k == 0 {
    } else {
      EndlessRunIsCutShort(d, m, k - 1);
      assert Deliveries(k)[..k - 1] == Deliveries(k - 1);
      EndlessBatch(m, ApplyAll(d, Deliveries(k - 1), m).ticks, 0);
    }
  }

  /** After a pause is asked for, the next batch executes a single tick, and leaves the debugger halted or
      paused. */
  lemma {:induction false} PauseTakesOneTick(d: Debugger, m: Machine)
    requires d.pending > 0
    ensures var e := Apply(Interacted(d, Pause), Deliver, m);
      && e.ticks == d.ticks + 1 && e.pending == d.pending - 1
      && (e.state == Halted || e.state == DebugPaused)
  {
  }

  /** Stopping does not take back what is queued: after a stop the next delivery executes nothing exactly
      when nothing was queued. */
  lemma {:induction false} StopHaltsExactlyWhenIdle(d: Debugger, m: Machine)
    ensures var e := Interacted(d, Stop); Apply(e, Deliver, m).ticks == e.ticks <==> d.pending == 0
  {
  }

  /** A queued execution that finds the debugger stopped goes on, as a normal execution. */
  lemma {:induction false} StoppedRunGoesOn(d: Debugger, m: Machine)
    requires Endless(m) && d.pending > 0 && !d.pendingPause && d.stepsSinceLastInteraction <= MAX_CHAINED
    ensures var e := Apply(Interacted(d, Stop), Deliver, m); e.state == NormalExec && e.pending == d.pending
  {
    EndlessBatch(m, d.ticks, 0);
  }
}
