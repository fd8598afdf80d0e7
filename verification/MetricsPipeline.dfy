/**
 * The background batch writer. Producers, the worker and the stopper share one lock; each locked
 * section, and the storage call between two of them, is one step, so a run is any interleaving.
 */
module MetricsPipelines {
  import opened Sequences

  /** Where the worker stands: blocked in its wait, about to write, about to relock, or gone. */
  datatype Phase = Waiting | Writing | Relocking | Finished

  datatype StopPhase = NotStopping | Joining | Stopped

  datatype State<T> = State(
    running: bool,
    queue: seq<T>,
    storageSet: bool,
    batchSize: nat,
    // the worker's locals
    phase: Phase,
    batch: seq<T>,
    storageSeen: bool,
    stopping: StopPhase,
    // history: what was accepted, and every batch handed to storage
    accepted: seq<T>,
    handed: seq<seq<T>>)

  datatype Step<T> = Enqueue(snapshot: T) | Wake | Write | Relock | SignalStop | Join

  function Started<T>(batchSize: nat): State<T> {
    State(true, [], true, if batchSize < 1 then 1 else batchSize, Relocking, [], false, NotStopping, [], [])
  }

  predicate IsWorkerStep<T>(step: Step<T>) {
    step.Wake? || step.Write? || step.Relock?
  }

  predicate Enabled<T>(s: State<T>, step: Step<T>) {
    match step
    case Enqueue(_) => true
    case Wake => s.phase == Waiting
    case Write => s.phase == Writing
    case Relock => s.phase == Relocking
    case SignalStop => s.stopping == NotStopping
    case Join => s.stopping == Joining && s.phase == Finished
  }

  /** The loop condition, evaluated while holding the lock. */
  function LoopAgain<T>(s: State<T>): State<T> {
    s.(phase := if s.running || s.queue != [] then Waiting else Finished)
  }

  function Next<T>(s: State<T>, step: Step<T>): State<T> {
    match step
    case Enqueue(snapshot) =>
      if !s.running then s else s.(queue := s.queue + [snapshot], accepted := s.accepted + [snapshot])
    case Wake =>
      if s.queue == [] then LoopAgain(s)
      else
        var size := if |s.queue| < s.batchSize then |s.queue| else s.batchSize;
        s.(batch := s.queue[..size], queue := s.queue[size..], storageSeen := s.storageSet, phase := Writing)
    case Write =>
      s.(handed := if s.storageSeen && s.batch != [] then s.handed + [s.batch] else s.handed, phase := Relocking)
    case Relock => LoopAgain(s.(batch := []))
    case SignalStop => s.(running := false, stopping := Joining)
    case Join => s.(queue := [], storageSet := false, stopping := Stopped)
  }

  // ----- what every step keeps -----

  function InHand<T>(s: State<T>): seq<T> {
    if s.phase == Writing then s.batch else []
  }

  /** Handed over, in hand and queued, in this order, are exactly the accepted snapshots. */
  ghost predicate Inv<T(!new)>(s: State<T>) {
    && s.batchSize >= 1
    && Concat(s.handed) + InHand(s) + s.queue == s.accepted
    && (forall i | 0 <= i < |s.handed| :: 1 <= |s.handed[i]| <= s.batchSize)
    && (s.phase == Writing ==> 1 <= |s.batch| <= s.batchSize && s.storageSeen)
    && (s.phase == Waiting ==> s.batch == [])
    && (s.phase == Finished ==> !s.running && s.queue == [])
    && (s.running <==> s.stopping == NotStopping)
    && (s.storageSet <==> s.stopping != Stopped)
    && (s.stopping == Stopped ==> s.phase == Finished)
  }

  lemma {:induction false} StepKeepsInv<T(!new)>(s: State<T>, step: Step<T>)
    requires Inv(s) && Enabled(s, step)
    ensures Inv(Next(s, step))
  {
    hide Concat;
    match step
    case Enqueue(snapshot) => EnqueueKeepsInv(s, snapshot);
    case Wake => WakeKeepsInv(s);
    case Write =>
      ConcatAppends(s.handed, s.batch);
    case Relock =>
    case SignalStop =>
    case Join =>
  }

  lemma {:induction false} EnqueueKeepsInv<T(!new)>(s: State<T>, snapshot: T)
    requires Inv(s)
    ensures Inv(Next(s, Enqueue(snapshot)))
  {
    hide Concat;
    var delivered := Concat(s.handed) + InHand(s);
    assert delivered + (s.queue + [snapshot]) == (delivered + s.queue) + [snapshot];
  }

  lemma {:induction false} WakeKeepsInv<T(!new)>(s: State<T>)
    requires Inv(s) && s.phase == Waiting
    ensures Inv(Next(s, Wake))
  {
    hide Concat;
    var size := if |s.queue| < s.batchSize then |s.queue| else s.batchSize;
    assert s.queue == s.queue[..size] + s.queue[size..];
  }

  /** `states` and `steps` alternate: an interleaved run from a fresh start. */
  ghost predicate Run<T(!new)>(states: seq<State<T>>, steps: seq<Step<T>>) {
    && |states| == |steps| + 1
    && (exists batchSize :: states[0] == Started(batchSize))
    && forall i | 0 <= i < |steps| :: Enabled(states[i], steps[i]) && states[i + 1] == Next(states[i], steps[i])
  }

  lemma {:induction false} RunKeepsInv<T(!new)>(states: seq<State<T>>, steps: seq<Step<T>>, i: nat)
    requires Run(states, steps) && i < |states|
    ensures Inv(states[i])
  {
    if i > 0 {
      RunKeepsInv(states, steps, i - 1);
      StepKeepsInv(states[i - 1], steps[i - 1]);
    }
  }

  /** Once the stop has completed, every accepted snapshot was handed over exactly once, in order. */
  lemma {:induction false} StoppedMeansDelivered<T(!new)>(states: seq<State<T>>, steps: seq<Step<T>>, i: nat)
    requires Run(states, steps) && i < |states| && states[i].phase == Finished
    ensures Concat(states[i].handed) == states[i].accepted
    ensures forall k | 0 <= k < |states[i].handed| :: 1 <= |states[i].handed[k]| <= states[i].batchSize
  {
    RunKeepsInv(states, steps, i);
  }

  /** The snapshots enqueued before the stop signal. */
  function AcceptedBy<T>(steps: seq<Step<T>>): seq<T> {
    if |steps| == 0 || steps[0].SignalStop? then []
    else (if steps[0].Enqueue? then [steps[0].snapshot] else []) + AcceptedBy(steps[1..])
  }

  lemma {:induction false} StepAccepts<T(!new)>(s: State<T>, step: Step<T>)
    ensures Next(s, step).accepted == s.accepted + if s.running && step.Enqueue? then [step.snapshot] else []
    ensures Next(s, step).running <==> s.running && !step.SignalStop?
  {
  }

  /** Neither the worker nor a race with the stop makes an enqueue before the signal go missing. */
  lemma {:induction false} RunAccepts<T(!new)>(states: seq<State<T>>, steps: seq<Step<T>>, i: nat)
    requires Run(states, steps) && i <= |steps|
    ensures states[|steps|].accepted ==
            states[i].accepted + if states[i].running then AcceptedBy(steps[i..]) else []
    decreases |steps| - i
  {
    hide Next, Enabled, AcceptedBy;
    AcceptedFrom(steps, i);
    if i < |steps| {
      RunAccepts(states, steps, i + 1);
      StepAccepts(states[i], steps[i]);
      var now := if steps[i].Enqueue? then [steps[i].snapshot] else [];
      var rest := AcceptedBy(steps[i + 1..]);
      assert states[i].accepted + (now + rest) == (states[i].accepted + now) + rest;
    }
  }

  lemma {:induction false} AcceptedFrom<T>(steps: seq<Step<T>>, i: nat)
    requires i <= |steps|
    ensures AcceptedBy(steps[i..]) ==
            if i == |steps| || steps[i].SignalStop? then []
            else (if steps[i].Enqueue? then [steps[i].snapshot] else []) + AcceptedBy(steps[i + 1..])
  {
    if i < |steps| {
      assert steps[i..][0] == steps[i] && steps[i..][1..] == steps[i + 1..];
    }
  }

  // ----- termination -----

  /** How much work the worker has left once no more snapshots are accepted. */
  function Remaining<T>(s: State<T>): nat {
    4 * |s.queue| + match s.phase case Finished => 0 case Waiting => 1 case Relocking => 2 case Writing => 3
  }

  lemma {:induction false} WorkerProgress<T(!new)>(s: State<T>, step: Step<T>)
    requires Inv(s) && Enabled(s, step) && !s.running
    ensures !Next(s, step).running
    ensures IsWorkerStep(step) ==> Remaining(Next(s, step)) < Remaining(s)
    ensures !IsWorkerStep(step) ==> Remaining(Next(s, step)) == Remaining(s)
  {
  }

  /** The worker is never stuck: until it has finished, it has a step to take. */
  lemma {:induction false} WorkerNeverStuck<T>(s: State<T>)
    ensures s.phase != Finished <==> exists step: Step<T> :: IsWorkerStep(step) && Enabled(s, step)
  {
    var step: Step<T> := match s.phase case Waiting => Wake case Writing => Write case _ => Relock;
    assert s.phase != Finished ==> IsWorkerStep(step) && Enabled(s, step);
  }

  function WorkerSteps<T>(steps: seq<Step<T>>): nat {
    if |steps| == 0 then 0
    else WorkerSteps(steps[..|steps| - 1]) + if IsWorkerStep(steps[|steps| - 1]) then 1 else 0
  }

  /** After the stop signal the worker takes at most `Remaining` more steps, however it is interleaved. */
  lemma {:induction false} StopTerminates<T(!new)>(states: seq<State<T>>, steps: seq<Step<T>>, first: nat, last: nat)
    requires Run(states, steps) && first <= last < |states| && !states[first].running
    ensures !states[last].running
    ensures WorkerSteps(steps[first..last]) + Remaining(states[last]) <= Remaining(states[first])
    decreases last
  {
    hide Next, Enabled, Inv, Remaining;
    if first < last {
      StopTerminates(states, steps, first, last - 1);
      RunKeepsInv(states, steps, last - 1);
      WorkerProgress(states[last - 1], steps[last - 1]);
      assert steps[first..last][..last - 1 - first] == steps[first..last - 1];
    }
  }

  lemma {:induction false} NothingInHand<T(!new)>(s: State<T>)
    requires Inv(s) && s.phase == Waiting
    ensures s.batch == []
  {
  }

  // ----- the pipeline itself: its locked sections -----

  class MetricsPipeline<T(!new)> {
    var running: bool
    var queue: seq<T>
    var storageSet: bool
    var batchSize: nat
    var batch: seq<T>
    var storageSeen: bool
    ghost var phase: Phase
    ghost var stopping: StopPhase
    ghost var accepted: seq<T>
    ghost var handed: seq<seq<T>>

    ghost function Snapshot(): State<T>
      reads this
    {
      State(running, queue, storageSet, batchSize, phase, batch, storageSeen, stopping, accepted, handed)
    }

    constructor (batchSize: nat)
      ensures Snapshot() == Started(batchSize) && Inv(Snapshot())
      ensures running && queue == [] && accepted == [] && handed == []
      ensures this.batchSize == if batchSize == 0 then 1 else batchSize
    {
      running, queue, storageSet := true, [], true;
      this.batchSize := if batchSize < 1 then 1 else batchSize;
      batch, storageSeen := [], false;
      phase, stopping, accepted, handed := Relocking, NotStopping, [], [];
    }

    method EnqueueSnapshot(snapshot: T)
      modifies this
      ensures Enabled(old(Snapshot()), Enqueue(snapshot))
      ensures Snapshot() == Next(old(Snapshot()), Enqueue(snapshot))
      ensures running == old(running)
      ensures queue == old(queue) + (if running then [snapshot] else [])
      ensures accepted == old(accepted) + (if running then [snapshot] else [])
    {
      if !running {
        return;
      }
      queue := queue + [snapshot];
      accepted := accepted + [snapshot];
    }

    /** The worker holds the lock at the end of its wait: move up to `batchSize` snapshots out. */
    method WorkerWake() returns (again: bool)
      requires Inv(Snapshot()) && Enabled(Snapshot(), Wake)
      modifies this
      ensures Snapshot() == Next(old(Snapshot()), Wake) && Inv(Snapshot())
      ensures again <==> phase != Finished
      ensures old(queue) == [] ==> queue == [] && (again <==> running)
      ensures old(queue) != [] ==>
          && phase == Writing && batch + queue == old(queue)
          && |batch| == (if |old(queue)| < batchSize then |old(queue)| else batchSize)
    {
      hide Inv;
      StepKeepsInv(Snapshot(), Wake);
      NothingInHand(Snapshot());
      if queue == [] {
        again := running || queue != [];
        phase := if again then Waiting else Finished;
        return;
      }
      Drain();
      storageSeen := storageSet;
      phase := Writing;
      again := true;
    }

    method Drain()
      requires batch == []
      modifies this`queue, this`batch
      ensures var size := if |old(queue)| < batchSize then |old(queue)| else batchSize;
              batch == old(queue)[..size] && queue == old(queue)[size..]
    {
      ghost var before := queue;
      while queue != [] && |batch| < batchSize
        invariant batch + queue == before && |batch| <= batchSize
        decreases |queue|
      {
        batch := batch + [queue[0]];
        queue := queue[1..];
      }
      assert batch == before[..|batch|] && queue == before[|batch|..];
    }

    /** Outside the lock: one storage call for the whole batch. */
    method WorkerWrite()
      requires Inv(Snapshot()) && Enabled(Snapshot(), Write)
      modifies this
      ensures Snapshot() == Next(old(Snapshot()), Write) && Inv(Snapshot())
      ensures handed == old(handed) + [old(batch)]
    {
      StepKeepsInv(Snapshot(), Write);
      if storageSeen && batch != [] {
        handed := handed + [batch];
      }
      phase := Relocking;
    }

    method WorkerRelock() returns (again: bool)
      requires Inv(Snapshot()) && Enabled(Snapshot(), Relock)
      modifies this
      ensures Snapshot() == Next(old(Snapshot()), Relock) && Inv(Snapshot())
      ensures again <==> phase != Finished
      ensures batch == [] && queue == old(queue) && handed == old(handed) && (again <==> running || queue != [])
    {
      StepKeepsInv(Snapshot(), Relock);
      batch := [];
      again := running || queue != [];
      phase := if again then Waiting else Finished;
    }

    method SignalStopped()
      requires Inv(Snapshot()) && Enabled(Snapshot(), SignalStop)
      modifies this
      ensures Snapshot() == Next(old(Snapshot()), SignalStop) && Inv(Snapshot())
      ensures !running && queue == old(queue) && batch == old(batch) && handed == old(handed)
    {
      StepKeepsInv(Snapshot(), SignalStop);
      running := false;
      stopping := Joining;
    }

    /** After the join nothing is left in the queue that clearing it could lose. */
    method JoinWorker()
      requires Inv(Snapshot()) && Enabled(Snapshot(), Join)
      modifies this
      ensures Snapshot() == Next(old(Snapshot()), Join) && Inv(Snapshot())
      ensures queue == old(queue) && Concat(handed) == accepted
    {
      StepKeepsInv(Snapshot(), Join);
      queue := [];
      storageSet := false;
      stopping := Stopped;
    }
  }
}
