/** The write-pressure controller: integer moving averages, three states with hysteresis, and batch targets. */
module PressureControl {
  import opened Common

  const TWO_32 := 0x1_0000_0000

  type U32 = x: int | 0 <= x < TWO_32

  const MIB: U64 := 1024 * 1024
  const GIB: U64 := 1024 * 1024 * 1024
  const SOFT_PENDING: U64 := 8 * 1024 * 1024 * 1024
  const HARD_PENDING: U64 := 32 * 1024 * 1024 * 1024
  const SOFT_WAL: U64 := 768 * 1024 * 1024
  const HARD_WAL: U64 := 1024 * 1024 * 1024
  const HORIZON_SECONDS: U64 := 5

  datatype PressureState = Normal | Soft | Hard

  datatype Sample = Sample(
    arrivalRate: U64, l0Files: U64, pendingCompaction: U64, immutablePercent: U64, writeStopped: U64,
    backgroundError: U64, queueDepth: U64, bytesPerTxn: U64, walSync: U64, memtable: U64, queueAge: U64,
    freeDiskBytes: U64, freeDiskPercent: U64, interval: U64, admittedRate: U64, completedRate: U64,
    storageDebt: U64, immutableCount: U64, columnarBacklog: U64, columnarFlushPending: U64, retainedWal: U64)

  datatype Rates = Rates(
    arrival: U64, bytesPerTxn: U64, walSync: U64, memtable: U64, queueAge: U64, admitted: U64, background: U64,
    projectedDebt: U64, deficitObservations: U32, deficitDuration: U64)

  datatype Mode = Mode(state: PressureState, recovery: nat)
  datatype Target = Target(count: nat, bytes: nat, window: nat, busy: nat)
  datatype Controller = Controller(rates: Rates, mode: Mode, target: Target)

  const INITIAL := Controller(Rates(0, 0, 0, 0, 0, 0, 0, 0, 0, 0), Mode(Normal, 0), Target(128, 2 * MIB, 200, 0))

  // ---- arithmetic -----------------------------------------------------------------------

  /** Moving average with weight 1/8: it never leaves the interval between the old value and the sample. */
  function Ewma(old_: U64, sample: U64): (r: U64)
    ensures old_ != 0 ==> (old_ <= r <= sample || sample <= r <= old_) && r != 0
    ensures old_ == 0 ==> r == sample
  {
    if old_ == 0 then sample else old_ - old_ / 8 + sample / 8
  }

  /** Debt after five more seconds at the current rates, saturating. */
  function ProjectedDebt(base: U64, admitted: U64, completed: U64): (r: U64)
    ensures var exact := base + if admitted > completed then (admitted - completed) * 5 else 0;
            r == if exact < TWO_64 then exact else U64_MAX
  {
    if admitted <= completed then base else
      var deficit := admitted - completed;
      SaturatingAdd(base, if deficit > U64_MAX / HORIZON_SECONDS then U64_MAX else deficit * HORIZON_SECONDS)
  }

  // ---- signals --------------------------------------------------------------------------

  predicate DiskSignal(s: Sample) { s.freeDiskBytes != U64_MAX }

  predicate LowDiskSoft(s: Sample) { DiskSignal(s) && (s.freeDiskBytes < 10 * GIB || s.freeDiskPercent < 10) }

  predicate LowDiskHard(s: Sample) { DiskSignal(s) && (s.freeDiskBytes < 4 * GIB || s.freeDiskPercent < 5) }

  function ObservedDebt(s: Sample): U64 {
    if s.storageDebt < s.columnarFlushPending then s.columnarFlushPending else s.storageDebt
  }

  function NextRates(r: Rates, s: Sample): Rates {
    var admitted := if s.interval != 0 then Ewma(r.admitted, s.admittedRate) else r.admitted;
    var background := if s.interval != 0 then Ewma(r.background, s.completedRate) else r.background;
    var deficit := s.interval != 0 && admitted > background;
    Rates(Ewma(r.arrival, s.arrivalRate), Ewma(r.bytesPerTxn, s.bytesPerTxn), Ewma(r.walSync, s.walSync),
          Ewma(r.memtable, s.memtable), Ewma(r.queueAge, s.queueAge), admitted, background,
          ProjectedDebt(ObservedDebt(s), admitted, background),
          if deficit then (r.deficitObservations + 1) % TWO_32 else 0,
          if deficit then SaturatingAdd(r.deficitDuration, s.interval) else 0)
  }

  predicate RatesHealthy(r: Rates, s: Sample) { s.interval == 0 || r.background >= r.admitted }

  /** Signals are read with the averages already updated by the same sample. */
  predicate HardSignal(r: Rates, s: Sample) {
    || s.writeStopped != 0 || s.backgroundError != 0 || LowDiskHard(s) || s.l0Files >= 24
    || s.pendingCompaction >= HARD_PENDING || s.retainedWal >= HARD_WAL || s.immutableCount >= 4
    || s.columnarBacklog >= 2 || s.immutablePercent >= 90
    || (r.deficitDuration >= HORIZON_SECONDS * 1000000 && ObservedDebt(s) >= SOFT_PENDING
        && r.projectedDebt >= HARD_PENDING)
  }

  predicate SoftSignal(r: Rates, s: Sample) {
    || LowDiskSoft(s) || s.l0Files >= 16 || s.pendingCompaction >= SOFT_PENDING || s.retainedWal >= SOFT_WAL
    || s.immutableCount >= 2 || s.columnarBacklog >= 1 || s.immutablePercent >= 75
    || (r.deficitObservations >= 3 && r.projectedDebt >= SOFT_PENDING)
  }

  /** A sample that counts towards leaving Hard. */
  predicate PassesHard(r: Rates, s: Sample) {
    && !HardSignal(r, s) && RatesHealthy(r, s) && !LowDiskHard(s) && s.l0Files < 16
    && s.pendingCompaction < SOFT_PENDING && s.retainedWal < SOFT_WAL && s.immutableCount < 2
    && s.columnarBacklog < 1 && s.immutablePercent < 70
  }

  /** A sample that counts towards leaving Soft. */
  predicate PassesSoft(r: Rates, s: Sample) {
    && !HardSignal(r, s) && !SoftSignal(r, s) && RatesHealthy(r, s) && !LowDiskSoft(s) && s.l0Files <= 12
    && s.pendingCompaction < SOFT_PENDING / 2 && s.retainedWal < SOFT_WAL
    && s.immutableCount == 0 && s.columnarBacklog == 0 && s.immutablePercent == 0
  }

  // ---- one observation --------------------------------------------------------------------

  function NextMode(m: Mode, r: Rates, s: Sample): Mode {
    match m.state
    case Hard =>
      if !PassesHard(r, s) then Mode(Hard, 0)
      else if m.recovery + 1 >= 3 then Mode(if SoftSignal(r, s) then Soft else Normal, 0)
      else Mode(Hard, m.recovery + 1)
    case Soft =>
      if HardSignal(r, s) then Mode(Hard, 0)
      else if !PassesSoft(r, s) then Mode(Soft, 0)
      else if m.recovery + 1 >= 3 then Mode(Normal, 0)
      else Mode(Soft, m.recovery + 1)
    case Normal =>
      Mode(if HardSignal(r, s) then Hard else if SoftSignal(r, s) then Soft else Normal, 0)
  }

  predicate Busy(s: Sample) { s.arrivalRate >= 256 || s.queueDepth >= 64 }

  function Min(a: int, b: int): int { if a < b then a else b }

  function NextTarget(t: Target, state: PressureState, busy: bool): Target {
    match state
    case Soft => Target(64, MIB, 200, 0)
    case Hard => Target(64, 512 * 1024, 0, 0)
    case Normal =>
      if !busy then Target(128, 2 * MIB, 200, 0)
      else if t.busy + 1 >= 4 then Target(Min(256, t.count + 64), 2 * MIB, 200, 0)
      else Target(t.count, 2 * MIB, 200, t.busy + 1)
  }

  function Observed(c: Controller, s: Sample): Controller {
    var rates := NextRates(c.rates, s);
    var mode := NextMode(c.mode, rates, s);
    Controller(rates, mode, NextTarget(c.target, mode.state, Busy(s)))
  }

  class PressureController {
    var state: PressureState
    var targetCount: nat
    var targetBytes: nat
    var collectionWindow: nat
    var busyObservations: nat
    var rates: Rates
    var recoveryObservations: nat

    constructor ()
      ensures View() == INITIAL
    {
      state, targetCount, targetBytes, collectionWindow, busyObservations := Normal, 128, 2 * MIB, 200, 0;
      rates, recoveryObservations := Rates(0, 0, 0, 0, 0, 0, 0, 0, 0, 0), 0;
    }

    function View(): Controller
      reads this
    {
      Controller(rates, Mode(state, recoveryObservations),
                 Target(targetCount, targetBytes, collectionWindow, busyObservations))
    }

    method UpdateState(sample: Sample)
      modifies `state, `recoveryObservations
      ensures Mode(state, recoveryObservations) == NextMode(old(Mode(state, recoveryObservations)), rates, sample)
    {
      var hard, soft := HardSignal(rates, sample), SoftSignal(rates, sample);
      if state == Hard {
        if !PassesHard(rates, sample) {
          recoveryObservations := 0;
        } else {
          recoveryObservations := recoveryObservations + 1;
          if recoveryObservations >= 3 {
            state := if soft then Soft else Normal;
            recoveryObservations := 0;
          }
        }
      } else if state == Soft {
        if hard {
          state := Hard;
          recoveryObservations := 0;
        } else if !PassesSoft(rates, sample) {
          recoveryObservations := 0;
        } else {
          recoveryObservations := recoveryObservations + 1;
          if recoveryObservations >= 3 {
            state := Normal;
            recoveryObservations := 0;
          }
        }
      } else {
        state := if hard then Hard else if soft then Soft else Normal;
        recoveryObservations := 0;
      }
    }

    method UpdateTargets(busy: bool)
      modifies `targetCount, `targetBytes, `collectionWindow, `busyObservations
      ensures Target(targetCount, targetBytes, collectionWindow, busyObservations)
           == NextTarget(old(Target(targetCount, targetBytes, collectionWindow, busyObservations)), state, busy)
    {
      if state == Normal && busy {
        busyObservations := busyObservations + 1;
        if busyObservations >= 4 {
          targetCount := Min(256, targetCount + 64);
          busyObservations := 0;
        }
      } else {
        busyObservations := 0;
        if state == Normal { targetCount := 128; }
      }
      if state == Soft {
        targetCount, targetBytes, collectionWindow := 64, MIB, 200;
      } else if state == Hard {
        targetCount, targetBytes, collectionWindow := 64, 512 * 1024, 0;
      } else {
        targetBytes, collectionWindow := 2 * MIB, 200;
      }
    }

    method Observe(sample: Sample)
      modifies this
      ensures View() == Observed(old(View()), sample)
    {
      rates := NextRates(rates, sample);
      UpdateState(sample);
      UpdateTargets(Busy(sample));
    }

    /** Nothing is admitted in Hard, nor a request without a deadline behind others in Soft. */
    method DecideAdmission(count: U64, bytes: U64, deadline: U64) returns (admit: bool)
      ensures admit <==> state != Hard && !(state == Soft && deadline == 0 && count != 0)
                         && count < targetCount && bytes < targetBytes
    {
      admit := state != Hard;
      if state == Soft && deadline == 0 && count != 0 { admit := false; }
      if count >= targetCount || bytes >= targetBytes { admit := false; }
    }
  }

  // ---- every sequence of samples ------------------------------------------------------------

  /** `trace[i]` is the controller after the first `i` samples. */
  ghost predicate Run(trace: seq<Controller>, samples: seq<Sample>) {
    && |trace| == |samples| + 1 && trace[0] == INITIAL
    && forall i :: 0 <= i < |samples| ==> trace[i + 1] == Observed(trace[i], samples[i])
  }

  /** A hard signal forces Hard at once, and Hard is entered in no other way. */
  lemma HardAtOnce(trace: seq<Controller>, samples: seq<Sample>, i: nat)
    requires Run(trace, samples) && i < |samples|
    ensures HardSignal(trace[i + 1].rates, samples[i]) ==> trace[i + 1].mode.state == Hard
    ensures trace[i].mode.state != Hard && trace[i + 1].mode.state == Hard ==>
              HardSignal(trace[i + 1].rates, samples[i])
  {
    assert trace[i + 1] == Observed(trace[i], samples[i]);
  }

  /** Whether sample `i` counts towards leaving the state it was observed in. */
  ghost predicate Passing(trace: seq<Controller>, samples: seq<Sample>, i: nat)
    requires Run(trace, samples) && i < |samples|
  {
    || (trace[i].mode.state == Hard && PassesHard(trace[i + 1].rates, samples[i]))
    || (trace[i].mode.state == Soft && PassesSoft(trace[i + 1].rates, samples[i]))
  }

  /** The recovery counter is the length of the current streak of passing samples, below three. */
  lemma {:induction false} RecoveryCountsStreak(trace: seq<Controller>, samples: seq<Sample>, i: nat)
    requires Run(trace, samples) && i < |trace|
    ensures trace[i].mode.recovery <= 2 && trace[i].mode.recovery <= i
    ensures forall k: nat :: i - trace[i].mode.recovery <= k < i ==>
              Passing(trace, samples, k) && trace[k].mode.state == trace[i].mode.state
  {
    if i > 0 {
      RecoveryCountsStreak(trace, samples, i - 1);
      assert trace[i] == Observed(trace[i - 1], samples[i - 1]);
      RecoveryStep(trace[i - 1], samples[i - 1]);
    }
  }

  /** One sample ends the streak or, passing in an unchanged state, makes it one longer. */
  lemma RecoveryStep(c: Controller, s: Sample)
    requires c.mode.recovery <= 2
    ensures var c' := Observed(c, s);
            || c'.mode.recovery == 0
            || (&& c'.mode.recovery == c.mode.recovery + 1 <= 2 && c'.mode.state == c.mode.state
                && (if c.mode.state == Hard then PassesHard(c'.rates, s)
                    else c.mode.state == Soft && PassesSoft(c'.rates, s)))
  {
  }

  predicate Lower(a: PressureState, b: PressureState) {
    (a == Normal && b != Normal) || (a == Soft && b == Hard)
  }

  /** Leaving Hard or Soft downward takes three consecutive passing samples in that state. */
  lemma LeavingTakesThree(trace: seq<Controller>, samples: seq<Sample>, i: nat)
    requires Run(trace, samples) && i < |samples| && Lower(trace[i + 1].mode.state, trace[i].mode.state)
    ensures i >= 2
    ensures forall k: nat :: i - 2 <= k <= i ==>
              Passing(trace, samples, k) && trace[k].mode.state == trace[i].mode.state
  {
    RecoveryCountsStreak(trace, samples, i);
    assert trace[i + 1] == Observed(trace[i], samples[i]);
  }

  /** A sample passing the stricter Soft test is clean: it passes everywhere and carries no signal. */
  lemma CleanSteps(c: Controller, s: Sample)
    requires PassesSoft(NextRates(c.rates, s), s) && c.mode.recovery <= 2
    ensures Observed(c, s).mode ==
              if c.mode.state == Normal || c.mode.recovery == 2 then Mode(Normal, 0)
              else Mode(c.mode.state, c.mode.recovery + 1)
  {
  }

  /** Three consecutive clean samples return any state to Normal. */
  lemma ThreeCleanReturnToNormal(trace: seq<Controller>, samples: seq<Sample>, i: nat)
    requires Run(trace, samples) && i + 3 <= |samples|
    requires forall k :: i <= k < i + 3 ==> PassesSoft(trace[k + 1].rates, samples[k])
    ensures trace[i + 3].mode.state == Normal
  {
    RecoveryCountsStreak(trace, samples, i);
    forall k | i <= k < i + 3 ensures trace[k + 1] == Observed(trace[k], samples[k]) {}
    CleanSteps(trace[i], samples[i]);
    CleanSteps(trace[i + 1], samples[i + 1]);
    CleanSteps(trace[i + 2], samples[i + 2]);
  }

  /** The target count only ever takes four values, and the byte target follows the state. */
  lemma {:induction false} TargetsInRange(trace: seq<Controller>, samples: seq<Sample>, i: nat)
    requires Run(trace, samples) && i < |trace|
    ensures trace[i].target.count in {64, 128, 192, 256} && trace[i].target.busy <= 3
    ensures trace[i].target.bytes ==
              (match trace[i].mode.state case Normal => 2 * MIB case Soft => MIB case Hard => 512 * 1024)
    ensures trace[i].mode.state != Normal ==> trace[i].target.count == 64
  {
    if i > 0 {
      TargetsInRange(trace, samples, i - 1);
      assert trace[i] == Observed(trace[i - 1], samples[i - 1]);
    }
  }

  /** Averages never leave the range of the rates that were sampled. */
  lemma {:induction false} AveragesWithinSamples(trace: seq<Controller>, samples: seq<Sample>,
                                                 low: U64, high: U64, i: nat)
    requires Run(trace, samples) && i < |trace| && low <= high
    requires forall k :: 0 <= k < |samples| && samples[k].interval != 0 ==>
               low <= samples[k].admittedRate <= high && low <= samples[k].completedRate <= high
    ensures trace[i].rates.admitted == 0 || low <= trace[i].rates.admitted <= high
    ensures trace[i].rates.background == 0 || low <= trace[i].rates.background <= high
  {
    if i > 0 {
      AveragesWithinSamples(trace, samples, low, high, i - 1);
      assert trace[i] == Observed(trace[i - 1], samples[i - 1]);
    }
  }
}
