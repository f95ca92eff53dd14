/** Maintenance scheduling: the pure selection policy and the credit-bounded dispatch to two worker lanes. */
module Maintenance {
  import opened Common

  const BASELINE_BUDGET: U64 := 8 * 1024 * 1024
  const NORMAL_FLUSH_BYTES: U64 := 1024 * 1024
  const EMERGENCY_FLUSH_BYTES: U64 := 64 * 1024 * 1024
  const SOFT_WAL_BYTES: U64 := 768 * 1024 * 1024
  const NORMAL_L0_FILES: U64 := 4
  const EMERGENCY_L0_FILES: U64 := 24
  const NORMAL_WBM_PERCENT := 70
  const EMERGENCY_WBM_PERCENT := 85

  datatype Priority = Normal | Emergency
  datatype Yield = NoYield | NoDebt | StaleGeneration | InputBudget | OutputBudget | Deadline | WalSync
                 | ManualConflict | Recovery | Shutdown | InvariantViolation
  datatype Lane = Flush | Compaction

  datatype ColumnFamily = ColumnFamily(active: U64, immutable: U64, flushPending: bool)

  datatype Metrics = Metrics(
    families: seq<ColumnFamily>, totalActive: U64, totalImmutable: U64,
    flushQueueDepth: U64, unscheduledFlushes: U64, scheduledFlushes: U64, runningFlushes: U64,
    writeStopped: U64, wbmLimit: U64, wbmBytes: U64, retainedWal: U64, l0Files: U64, pendingCompaction: U64,
    unsafe: bool)  // a background error, a manual conflict, recovery in progress or shutdown

  datatype Snapshot = Snapshot(
    generation: U64, metrics: Metrics, flushCredits: nat, emergencyFlushCredits: nat, compactionCredits: nat)

  datatype Completion = Completion(lane: Lane, yield_: Yield, remainingUnit: U64, ok: bool)

  datatype History = History(lastFlush: Option<Completion>, lastCompaction: Option<Completion>)

  datatype Decision = Decision(lane: Lane, priority: Priority, budget: U64, generation: U64, yieldForWalSync: bool)

  datatype Plan = Plan(flush: Option<Decision>, flushCredits: nat, compaction: Option<Decision>, compactionCredits: nat)

  // ---- policy arithmetic ------------------------------------------------------------------

  function Max(a: U64, b: U64): U64 { if a < b then b else a }

  /** The exact ceiling of `value * percent / 100`; no intermediate product leaves 64 bits. */
  function PercentCeiling(value: U64, percent: nat): (r: U64)
    requires percent <= 100
    ensures 100 * (r - 1) < value * percent <= 100 * r
  {
    PercentSplit(value, percent);
    SaturatingAdd(value / 100 * percent, (value % 100 * percent + 99) / 100)
  }

  lemma PercentSplit(value: U64, percent: nat)
    requires percent <= 100
    ensures value * percent == 100 * (value / 100 * percent) + value % 100 * percent
    ensures 0 <= value / 100 * percent <= value / 100 * 100
    ensures 0 <= value % 100 * percent <= value % 100 * 100
  {
    var q, r := value / 100, value % 100;
    assert value == 100 * q + r;
    SplitProduct(q, r, percent);
    CappedProduct(q, percent);
    CappedProduct(r, percent);
  }

  lemma SplitProduct(q: nat, r: nat, percent: nat)
    ensures (100 * q + r) * percent == 100 * (q * percent) + r * percent
  {
  }

  lemma CappedProduct(n: nat, percent: nat)
    requires percent <= 100
    ensures 0 <= n * percent <= n * 100
  {
  }

  /** The write buffer manager is at least `percent` full. */
  predicate WbmAtLeast(m: Metrics, percent: nat)
    requires percent <= 100
  {
    m.wbmLimit != 0 && m.wbmBytes >= PercentCeiling(m.wbmLimit, percent)
  }

  lemma WbmThresholdExact(m: Metrics, percent: nat)
    requires percent <= 100
    ensures WbmAtLeast(m, percent) <==> m.wbmLimit != 0 && 100 * m.wbmBytes >= m.wbmLimit * percent
  {
    var c := PercentCeiling(m.wbmLimit, percent);
    if m.wbmBytes < c { assert m.wbmBytes <= c - 1; }
  }

  function UnitOf(f: ColumnFamily): U64 { SaturatingAdd(f.active, f.immutable) }

  function LargestUnit(families: seq<ColumnFamily>): U64 {
    if families == [] then 0 else Max(LargestUnit(families[..|families| - 1]), UnitOf(families[|families| - 1]))
  }

  function FlushUnit(m: Metrics): U64 {
    Max(LargestUnit(m.families), SaturatingAdd(m.totalActive, m.totalImmutable))
  }

  method FlushUnitBytes(m: Metrics) returns (largest: U64)
    ensures largest == FlushUnit(m)
    ensures forall i :: 0 <= i < |m.families| ==> UnitOf(m.families[i]) <= largest
    ensures largest == SaturatingAdd(m.totalActive, m.totalImmutable) ||
            exists i :: 0 <= i < |m.families| && UnitOf(m.families[i]) == largest
  {
    largest := 0;
    var i := 0;
    while i < |m.families|
      invariant 0 <= i <= |m.families| && largest == LargestUnit(m.families[..i])
      invariant forall k :: 0 <= k < i ==> UnitOf(m.families[k]) <= largest
      invariant largest == 0 || exists k :: 0 <= k < i && UnitOf(m.families[k]) == largest
    {
      assert m.families[..i + 1][..i] == m.families[..i];
      largest := Max(largest, UnitOf(m.families[i]));
      i := i + 1;
    }
    assert m.families[..i] == m.families;
    largest := Max(largest, SaturatingAdd(m.totalActive, m.totalImmutable));
  }

  function NextBudget(prior: Option<Completion>): U64 {
    if prior.Some? && (prior.value.yield_ == InputBudget || prior.value.yield_ == OutputBudget)
    then Max(BASELINE_BUDGET, prior.value.remainingUnit)
    else BASELINE_BUDGET
  }

  // ---- selection --------------------------------------------------------------------------

  predicate NativeFlushCandidate(m: Metrics) {
    || m.flushQueueDepth != 0 || m.unscheduledFlushes != 0 || m.scheduledFlushes != 0 || m.runningFlushes != 0
    || exists i :: 0 <= i < |m.families| && m.families[i].flushPending
  }

  predicate EmergencyFlush(m: Metrics) {
    NativeFlushCandidate(m) &&
    (m.writeStopped != 0 || WbmAtLeast(m, EMERGENCY_WBM_PERCENT) || m.totalImmutable >= EMERGENCY_FLUSH_BYTES)
  }

  predicate NormalFlush(m: Metrics) {
    NativeFlushCandidate(m) &&
    (WbmAtLeast(m, NORMAL_WBM_PERCENT) || m.totalImmutable >= NORMAL_FLUSH_BYTES || m.retainedWal >= SOFT_WAL_BYTES
     || m.flushQueueDepth != 0 || m.unscheduledFlushes != 0)
  }

  predicate EmergencyCompaction(m: Metrics) {
    m.l0Files >= EMERGENCY_L0_FILES || (m.writeStopped != 0 && m.pendingCompaction != 0)
  }

  predicate NormalCompaction(m: Metrics) { m.l0Files >= NORMAL_L0_FILES || m.pendingCompaction != 0 }

  function OrDefault(credits: nat, default_: nat): nat { if credits == 0 then default_ else credits }

  function Select(s: Snapshot, h: History, walSyncCritical: bool): Plan {
    var m := s.metrics;
    if m.unsafe then Plan(None, 0, None, 0) else
      var flushBudget := Max(NextBudget(h.lastFlush), FlushUnit(m));
      var compactionBudget := NextBudget(h.lastCompaction);
      var flush :=
        if EmergencyFlush(m) then Some(Decision(Flush, Emergency, flushBudget, s.generation, false))
        else if NormalFlush(m) then Some(Decision(Flush, Normal, flushBudget, s.generation, true)) else None;
      var compaction :=
        if EmergencyCompaction(m) then Some(Decision(Compaction, Emergency, compactionBudget, s.generation, true))
        else if !walSyncCritical && NormalCompaction(m)
        then Some(Decision(Compaction, Normal, compactionBudget, s.generation, true)) else None;
      Plan(flush,
           if flush.None? then 0
           else if flush.value.priority == Emergency then OrDefault(s.emergencyFlushCredits, 2)
           else OrDefault(s.flushCredits, 1),
           compaction, if compaction.None? then 0 else OrDefault(s.compactionCredits, 1))
  }

  /** The most a snapshot can authorise in a lane, whatever the history and the WAL state. */
  function Credits(s: Snapshot, lane: Lane): nat {
    match lane
    case Flush =>
      if EmergencyFlush(s.metrics) then OrDefault(s.emergencyFlushCredits, 2) else OrDefault(s.flushCredits, 1)
    case Compaction => OrDefault(s.compactionCredits, 1)
  }

  function PlanFor(p: Plan, lane: Lane): (Option<Decision>, nat) {
    if lane == Flush then (p.flush, p.flushCredits) else (p.compaction, p.compactionCredits)
  }

  /** Credits come from the snapshot alone, and a budget yield is followed by a budget that fits the unit. */
  lemma SelectionSound(s: Snapshot, h: History, critical: bool, lane: Lane)
    ensures PlanFor(Select(s, h, critical), lane).0.Some? ==>
              var (d, credits) := PlanFor(Select(s, h, critical), lane);
              && !s.metrics.unsafe && credits == Credits(s, lane) >= 1 && d.value.lane == lane
              && d.value.budget >= BASELINE_BUDGET
              && (lane == Flush ==> d.value.budget >= FlushUnit(s.metrics))
              && (lane == Compaction && critical ==> d.value.priority == Emergency)
    ensures var d, last := PlanFor(Select(s, h, critical), lane).0, LastOf(h, lane);
            d.Some? && last.Some? && last.value.yield_ in {InputBudget, OutputBudget} ==>
              d.value.budget >= last.value.remainingUnit
  {
  }

  function LastOf(h: History, lane: Lane): Option<Completion> {
    if lane == Flush then h.lastFlush else h.lastCompaction
  }

  // ---- the controller -----------------------------------------------------------------------

  /** One lane: how many grants the current snapshot has used, and how many are running. */
  datatype LaneState = LaneState(sequence: nat, credits: nat, outstanding: int, requested: nat, accepted: nat)

  datatype Control = Control(
    snapshot: Option<Snapshot>, published: nat, flush: LaneState, compaction: LaneState, completed: nat,
    history: History, firstError: bool, started: bool, stopping: bool, critical: bool)

  function LaneOf(c: Control, lane: Lane): LaneState { if lane == Flush then c.flush else c.compaction }

  function Used(c: Control, lane: Lane): nat {
    if LaneOf(c, lane).sequence == c.published then LaneOf(c, lane).credits else 0
  }

  /** The decision a lane may dispatch now. */
  function NextDecision(c: Control, lane: Lane): Option<Decision> {
    if c.snapshot.None? || c.stopping || c.firstError then None else
      var (decision, credits) := PlanFor(Select(c.snapshot.value, c.history, c.critical), lane);
      if decision.None? || Used(c, lane) >= credits then None
      else if lane == Compaction && decision.value.priority == Normal && c.critical then None
      else decision
  }

  predicate HasWork(c: Control, workers: nat, lane: Lane) {
    LaneOf(c, lane).outstanding < workers && NextDecision(c, lane).Some?
  }

  function Published(c: Control, s: Snapshot): Control {
    if c.stopping then c else c.(snapshot := Some(s), published := c.published + 1)
  }

  function DispatchLane(l: LaneState, published: nat): LaneState {
    var used := if l.sequence == published then l.credits else 0;
    LaneState(published, used + 1, l.outstanding + 1, l.requested + 1, l.accepted)
  }

  function Dispatched(c: Control, lane: Lane): Control {
    if lane == Flush then c.(flush := DispatchLane(c.flush, c.published))
    else c.(compaction := DispatchLane(c.compaction, c.published))
  }

  function CompleteLane(l: LaneState, ran: bool): LaneState {
    l.(outstanding := l.outstanding - 1, accepted := l.accepted + if ran then 1 else 0)
  }

  predicate Retryable(y: Yield) { y != NoYield && y != InvariantViolation }

  /** `ran` says that the adapter returned a completion at all. */
  function Completed(c: Control, lane: Lane, ran: bool, completion: Completion): Control {
    var c1 := if lane == Flush then c.(flush := CompleteLane(c.flush, ran))
              else c.(compaction := CompleteLane(c.compaction, ran));
    c1.(completed := c.completed + 1,
        history := if completion.lane == Flush then c.history.(lastFlush := Some(completion))
                   else c.history.(lastCompaction := Some(completion)),
        firstError := c.firstError || (!completion.ok && !Retryable(completion.yield_)))
  }

  class MaintenanceController {
    const flushWorkers: nat
    const compactionWorkers: nat
    var snapshot: Option<Snapshot>
    var history: History
    var publishedSequence: nat
    var flush: LaneState
    var compaction: LaneState
    var completedGrants: nat
    var firstError: bool
    var started: bool
    var stopping: bool
    var walSyncCritical: bool

    constructor (flushWorkers: nat, compactionWorkers: nat)
      ensures View() == Control(None, 0, LaneState(0, 0, 0, 0, 0), LaneState(0, 0, 0, 0, 0), 0, History(None, None),
                                false, false, false, false)
      ensures this.flushWorkers == flushWorkers && this.compactionWorkers == compactionWorkers
    {
      this.flushWorkers, this.compactionWorkers := flushWorkers, compactionWorkers;
      snapshot, history, publishedSequence := None, History(None, None), 0;
      flush, compaction, completedGrants := LaneState(0, 0, 0, 0, 0), LaneState(0, 0, 0, 0, 0), 0;
      firstError, started, stopping, walSyncCritical := false, false, false, false;
    }

    function View(): Control
      reads this
    {
      Control(snapshot, publishedSequence, flush, compaction, completedGrants, history,
              firstError, started, stopping, walSyncCritical)
    }

    method PublishSnapshot(s: Snapshot)
      modifies this
      ensures View() == Published(old(View()), s)
    {
      if stopping { return; }
      snapshot := Some(s);
      publishedSequence := publishedSequence + 1;
    }

    /** The critical section of a lane worker that decides whether to take a grant. */
    method TakeGrant(lane: Lane) returns (decision: Option<Decision>)
      modifies this
      ensures var workers := if lane == Flush then flushWorkers else compactionWorkers;
              var work := !old(stopping) && HasWork(old(View()), workers, lane);
              && decision == (if work then NextDecision(old(View()), lane) else None)
              && View() == if work then Dispatched(old(View()), lane) else old(View())
    {
      var workers := if lane == Flush then flushWorkers else compactionWorkers;
      if stopping || !HasWork(View(), workers, lane) { return None; }
      decision := NextDecision(View(), lane);
      if lane == Flush {
        if flush.sequence != publishedSequence { flush := flush.(sequence := publishedSequence, credits := 0); }
        flush := flush.(outstanding := flush.outstanding + 1, credits := flush.credits + 1,
                        requested := flush.requested + 1);
      } else {
        if compaction.sequence != publishedSequence {
          compaction := compaction.(sequence := publishedSequence, credits := 0);
        }
        compaction := compaction.(outstanding := compaction.outstanding + 1, credits := compaction.credits + 1,
                                  requested := compaction.requested + 1);
      }
    }

    /** The critical section of a lane worker that returns a grant. */
    method FinishGrant(lane: Lane, ran: bool, completion: Completion)
      modifies this
      ensures View() == Completed(old(View()), lane, ran, completion)
    {
      if lane == Flush {
        flush := flush.(outstanding := flush.outstanding - 1);
        if ran { flush := flush.(accepted := flush.accepted + 1); }
      } else {
        compaction := compaction.(outstanding := compaction.outstanding - 1);
        if ran { compaction := compaction.(accepted := compaction.accepted + 1); }
      }
      completedGrants := completedGrants + 1;
      if completion.lane == Flush {
        history := history.(lastFlush := Some(completion));
      } else {
        history := history.(lastCompaction := Some(completion));
      }
      if !completion.ok && !Retryable(completion.yield_) { firstError := true; }
    }
  }

  // ---- all interleavings ------------------------------------------------------------------

  /** `grants` logs each dispatch as its published sequence and lane; `snapshots[n - 1]` has sequence n. */
  datatype State = State(c: Control, running: multiset<Lane>, grants: seq<(nat, Lane)>, snapshots: seq<Snapshot>)

  datatype Limits = Limits(flush: nat, compaction: nat)

  function Workers(l: Limits, lane: Lane): nat { if lane == Flush then l.flush else l.compaction }

  datatype Step =
    | Start
    | Publish(snapshot: Snapshot)
    | SetCritical(critical: bool)
    | Take(lane: Lane)
    | Finish(lane: Lane, ran: bool, completion: Completion)
    | BeginStop
    | EndStop

  ghost predicate Init(s: State) {
    s == State(Control(None, 0, LaneState(0, 0, 0, 0, 0), LaneState(0, 0, 0, 0, 0), 0, History(None, None),
                       false, false, false, false), multiset{}, [], [])
  }

  ghost predicate Enabled(l: Limits, s: State, step: Step) {
    match step
    case Start => !s.c.started
    case Publish(_) => true
    case SetCritical(_) => true
    case Take(lane) => s.c.started && !s.c.stopping && HasWork(s.c, Workers(l, lane), lane)
    case Finish(lane, _, _) => lane in s.running
    case BeginStop => s.c.started
    case EndStop => s.c.started && s.c.stopping && s.running == multiset{}
  }

  ghost function Apply(s: State, step: Step): State {
    match step
    case Start => s.(c := s.c.(started := true, stopping := false))
    case Publish(snapshot) =>
      s.(c := Published(s.c, snapshot), snapshots := s.snapshots + (if s.c.stopping then [] else [snapshot]))
    case SetCritical(critical) => s.(c := s.c.(critical := critical))
    case Take(lane) =>
      s.(c := Dispatched(s.c, lane), running := s.running + multiset{lane},
         grants := s.grants + [(s.c.published, lane)])
    case Finish(lane, ran, completion) =>
      s.(c := Completed(s.c, lane, ran, completion), running := s.running - multiset{lane})
    case BeginStop => s.(c := s.c.(stopping := true))
    case EndStop => s.(c := s.c.(started := false))
  }

  ghost predicate Run(l: Limits, trace: seq<State>, steps: seq<Step>) {
    && |trace| == |steps| + 1 && Init(trace[0])
    && forall i :: 0 <= i < |steps| ==> Enabled(l, trace[i], steps[i]) && trace[i + 1] == Apply(trace[i], steps[i])
  }

  ghost function Count(grants: seq<(nat, Lane)>, sequence: nat, lane: Lane): nat {
    if grants == [] then 0 else
      Count(grants[..|grants| - 1], sequence, lane) + if grants[|grants| - 1] == (sequence, lane) then 1 else 0
  }

  lemma CountPush(grants: seq<(nat, Lane)>, g: (nat, Lane), sequence: nat, lane: Lane)
    ensures Count(grants + [g], sequence, lane) ==
            Count(grants, sequence, lane) + if g == (sequence, lane) then 1 else 0
  {
    assert (grants + [g])[..|grants|] == grants;
  }

  /** Grants of the current sequence are counted exactly; later sequences have none. */
  ghost predicate LaneCounted(c: Control, grants: seq<(nat, Lane)>, lane: Lane) {
    && LaneOf(c, lane).sequence <= c.published
    && Count(grants, c.published, lane) == Used(c, lane)
    && forall n: nat :: n > c.published ==> Count(grants, n, lane) == 0
  }

  /** No published snapshot has been granted more than its credits. */
  ghost predicate WithinCredits(grants: seq<(nat, Lane)>, snapshots: seq<Snapshot>, lane: Lane) {
    forall n: nat :: n <= |snapshots| ==>
      Count(grants, n, lane) <= if n == 0 then 0 else Credits(snapshots[n - 1], lane)
  }

  ghost predicate LaneInv(l: Limits, s: State, lane: Lane) {
    && LaneCounted(s.c, s.grants, lane) && WithinCredits(s.grants, s.snapshots, lane)
    && LaneOf(s.c, lane).outstanding == s.running[lane] <= Workers(l, lane)
  }

  /** The current snapshot is the last published one; requested grants are completed or outstanding. */
  ghost predicate Ledger(c: Control, snapshots: seq<Snapshot>) {
    && c.published == |snapshots|
    && c.snapshot == (if snapshots == [] then None else Some(snapshots[|snapshots| - 1]))
    && c.flush.requested + c.compaction.requested == c.completed + c.flush.outstanding + c.compaction.outstanding
  }

  ghost predicate Inv(l: Limits, s: State) {
    Ledger(s.c, s.snapshots) && LaneInv(l, s, Flush) && LaneInv(l, s, Compaction)
  }

  /** A grant of the current sequence is within credits and is counted. */
  lemma {:induction false} TakeCounts(c: Control, grants: seq<(nat, Lane)>, snapshots: seq<Snapshot>,
                                      taken: Lane, lane: Lane)
    requires Ledger(c, snapshots) && LaneCounted(c, grants, lane) && WithinCredits(grants, snapshots, lane)
    requires NextDecision(c, taken).Some?
    ensures LaneCounted(Dispatched(c, taken), grants + [(c.published, taken)], lane)
    ensures WithinCredits(grants + [(c.published, taken)], snapshots, lane)
  {
    var after := grants + [(c.published, taken)];
    forall n: nat
      ensures Count(after, n, lane) == Count(grants, n, lane) + if (c.published, taken) == (n, lane) then 1 else 0
    {
      CountPush(grants, (c.published, taken), n, lane);
    }
    SelectionSound(c.snapshot.value, c.history, c.critical, taken);
  }

  lemma {:induction false} TakeKeepsLane(l: Limits, s: State, taken: Lane, lane: Lane)
    requires Inv(l, s) && Enabled(l, s, Take(taken))
    ensures LaneInv(l, Apply(s, Take(taken)), lane)
  {
    TakeCounts(s.c, s.grants, s.snapshots, taken, lane);
  }

  lemma {:induction false} PublishKeepsLane(l: Limits, s: State, snapshot: Snapshot, lane: Lane)
    requires Inv(l, s)
    ensures LaneInv(l, Apply(s, Publish(snapshot)), lane)
  {
    assert Count(s.grants, s.c.published + 1, lane) == 0;
  }

  lemma {:induction false} FinishKeepsLane(l: Limits, s: State, done: Lane, ran: bool, completion: Completion,
                                           lane: Lane)
    requires Inv(l, s) && done in s.running
    ensures LaneInv(l, Apply(s, Finish(done, ran, completion)), lane)
  {
  }

  lemma {:induction false} StepKeepsLane(l: Limits, s: State, step: Step, lane: Lane)
    requires Inv(l, s) && Enabled(l, s, step)
    ensures LaneInv(l, Apply(s, step), lane)
  {
    match step
    case Publish(snapshot) => PublishKeepsLane(l, s, snapshot, lane);
    case Take(taken) => TakeKeepsLane(l, s, taken, lane);
    case Finish(done, ran, completion) => FinishKeepsLane(l, s, done, ran, completion, lane);
    case _ =>
  }

  lemma {:induction false} StepKeepsLedger(s: State, step: Step)
    requires Ledger(s.c, s.snapshots)
    ensures Ledger(Apply(s, step).c, Apply(s, step).snapshots)
  {
    match step
    case Take(lane) => TakeKeepsLedger(s.c, s.snapshots, lane);
    case Finish(lane, ran, completion) => FinishKeepsLedger(s.c, s.snapshots, lane, ran, completion);
    case _ =>
  }

  lemma TakeKeepsLedger(c: Control, snapshots: seq<Snapshot>, lane: Lane)
    requires Ledger(c, snapshots)
    ensures Ledger(Dispatched(c, lane), snapshots)
  {
  }

  lemma FinishKeepsLedger(c: Control, snapshots: seq<Snapshot>, lane: Lane, ran: bool, completion: Completion)
    requires Ledger(c, snapshots)
    ensures Ledger(Completed(c, lane, ran, completion), snapshots)
  {
  }

  lemma {:induction false} StepKeepsInv(l: Limits, s: State, step: Step)
    requires Inv(l, s) && Enabled(l, s, step)
    ensures Inv(l, Apply(s, step))
  {
    StepKeepsLedger(s, step);
    StepKeepsLane(l, s, step, Flush);
    StepKeepsLane(l, s, step, Compaction);
  }

  lemma {:induction false} RunInv(l: Limits, trace: seq<State>, steps: seq<Step>, i: nat)
    requires Run(l, trace, steps) && i < |trace|
    ensures Inv(l, trace[i])
  {
    if i > 0 {
      RunInv(l, trace, steps, i - 1);
      StepKeepsInv(l, trace[i - 1], steps[i - 1]);
    }
  }

  /** Each published snapshot authorises at most its credits per lane, for any number of workers. */
  lemma GrantsWithinCredits(l: Limits, trace: seq<State>, steps: seq<Step>, i: nat, n: nat, lane: Lane)
    requires Run(l, trace, steps) && i < |trace| && 1 <= n <= |trace[i].snapshots|
    ensures Count(trace[i].grants, n, lane) <= Credits(trace[i].snapshots[n - 1], lane)
    ensures LaneOf(trace[i].c, lane).outstanding <= Workers(l, lane)
  {
    RunInv(l, trace, steps, i);
  }

  /** Requested grants are completed or outstanding. */
  lemma GrantsConserved(l: Limits, trace: seq<State>, steps: seq<Step>, i: nat)
    requires Run(l, trace, steps) && i < |trace|
    ensures var c := trace[i].c;
            && c.flush.requested + c.compaction.requested ==
               c.completed + c.flush.outstanding + c.compaction.outstanding
            && c.flush.outstanding >= 0 && c.compaction.outstanding >= 0
  {
    RunInv(l, trace, steps, i);
  }

  /** After the first error nothing is dispatched again, even across a restart. */
  lemma {:induction false} NothingAfterError(l: Limits, trace: seq<State>, steps: seq<Step>, i: nat, j: nat)
    requires Run(l, trace, steps) && i <= j < |trace| && trace[i].c.firstError
    ensures trace[j].c.firstError && trace[j].grants == trace[i].grants
    decreases j - i
  {
    if i < j {
      assert Enabled(l, trace[i], steps[i]) && trace[i + 1] == Apply(trace[i], steps[i]);
      ErrorStays(l, trace[i], steps[i]);
      NothingAfterError(l, trace, steps, i + 1, j);
    }
  }

  lemma {:induction false} ErrorStays(l: Limits, s: State, step: Step)
    requires Enabled(l, s, step) && s.c.firstError
    ensures Apply(s, step).c.firstError && Apply(s, step).grants == s.grants
  {
  }

  /** Once stopping, nothing is dispatched until the controller is started again. */
  lemma {:induction false} NothingWhileStopping(l: Limits, trace: seq<State>, steps: seq<Step>, i: nat, j: nat)
    requires Run(l, trace, steps) && i <= j < |trace| && trace[i].c.stopping
    requires forall k :: i <= k < j ==> steps[k] != Start
    ensures trace[j].c.stopping && trace[j].grants == trace[i].grants
    decreases j - i
  {
    if i < j {
      assert Enabled(l, trace[i], steps[i]) && trace[i + 1] == Apply(trace[i], steps[i]);
      StoppingStays(l, trace[i], steps[i]);
      NothingWhileStopping(l, trace, steps, i + 1, j);
    }
  }

  lemma {:induction false} StoppingStays(l: Limits, s: State, step: Step)
    requires Enabled(l, s, step) && s.c.stopping && step != Start
    ensures Apply(s, step).c.stopping && Apply(s, step).grants == s.grants
  {
  }
}
