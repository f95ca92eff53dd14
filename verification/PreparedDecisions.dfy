/**
 Prepared commits under the policy that awaits an external decision: a durable prepared record,
 a durable terminal decision and the final write, with a crash possible after every write. The
 final write may be buffered, and then a later crash can lose it.
 */
module PreparedDecisions {

  type Txn = nat
  type Batch = nat

  datatype Outcome = Commit | Abort
  datatype Decision = Decision(outcome: Outcome, certificate: string)
  datatype Durability = Buffered | WalSync

  datatype Store = Store(
    prepared: map<Txn, Batch>, decisions: map<Txn, Decision>, committed: map<Txn, Batch>, aborted: set<Txn>)

  /** The store, and its buffered final writes since the log was last synchronized, oldest first. */
  datatype Disk = Disk(s: Store, unsynced: seq<Txn>)

  datatype Status = Ok | InvalidArgument | ShutdownInProgress | Conflict | NotFound | StoreFailed | Crashed

  /** How many of the call's writes are issued before a crash; `Runs` when none interrupts it. */
  datatype Fate = Runs | CrashAfter(writes: nat)

  predicate Survives(fate: Fate, write: nat) { fate.Runs? || write <= fate.writes }

  function Ended(fate: Fate): Status { if fate.Runs? then Ok else Crashed }

  predicate WellFormed(txn: Txn, certificate: string) { txn != 0 && certificate != "" }

  // ---- the calls as functions of the disk ------------------------------------------------

  /** A synchronized write also settles every buffered write before it. */
  function Synced(s: Store): Disk { Disk(s, []) }

  function PersistCall(d: Disk, txn: Txn, batch: Batch, fate: Fate): (Disk, Status) {
    if txn in d.s.decisions then (d, Conflict)
    else if txn in d.s.prepared then (d, if d.s.prepared[txn] == batch then Ok else Conflict)
    else if txn in d.s.committed then (d, Conflict)
    else if Survives(fate, 1) then (Synced(d.s.(prepared := d.s.prepared[txn := batch])), Ended(fate))
    else (d, Crashed)
  }

  /** Records a decision unless one is recorded; only a prepared transaction can be decided. */
  function DecideCall(d: Disk, txn: Txn, decision: Decision, fate: Fate): (Disk, Status) {
    if txn in d.s.decisions then (d, if d.s.decisions[txn] == decision then Ok else Conflict)
    else if txn !in d.s.prepared then (d, NotFound)
    else if Survives(fate, 1) then (Synced(d.s.(decisions := d.s.decisions[txn := decision])), Ok)
    else (d, Crashed)
  }

  function Finalized(s: Store, txn: Txn): Store
    requires txn in s.prepared
  {
    s.(prepared := s.prepared - {txn}, committed := s.committed[txn := s.prepared[txn]])
  }

  function Settled(d: Disk, durability: Durability): Disk {
    if durability == WalSync then Synced(d.s) else d
  }

  /** `admitted` says whether the store's validation lets the batch in. */
  function FinalizeCall(d: Disk, txn: Txn, certificate: string, durability: Durability, admitted: bool, fate: Fate)
    : (Disk, Status)
  {
    if !WellFormed(txn, certificate) then (d, InvalidArgument) else
      var (d1, decided) := DecideCall(d, txn, Decision(Commit, certificate), fate);
      if decided != Ok then (d1, decided)
      else if txn !in d1.s.prepared then
        if txn in d1.s.committed then (Settled(d1, durability), Ok) else (d1, NotFound)
      else if !admitted then (d1, StoreFailed)
      else if Survives(fate, 2) then
        (Settled(Disk(Finalized(d1.s, txn), d1.unsynced + [txn]), durability), Ended(fate))
      else (d1, Crashed)
  }

  function AbortCall(d: Disk, txn: Txn, certificate: string, fate: Fate): (Disk, Status) {
    if !WellFormed(txn, certificate) then (d, InvalidArgument) else
      var (d1, decided) := DecideCall(d, txn, Decision(Abort, certificate), fate);
      if decided != Ok then (d1, decided)
      else if Survives(fate, 2) then
        (Synced(d1.s.(prepared := d1.s.prepared - {txn}, aborted := d1.s.aborted + {txn})), Ended(fate))
      else (d1, Crashed)
  }

  /** Taking back final writes: their batches are prepared again. */
  function Undone(s: Store, lost: set<Txn>): Store {
    s.(prepared := s.prepared + (map t | t in s.committed && t in lost :: s.committed[t]),
       committed := s.committed - lost)
  }

  /** A crash keeps some of the buffered writes, in order, and loses the rest. */
  function Crash(d: Disk, kept: nat): Disk
    requires kept <= |d.unsynced|
  {
    Synced(Undone(d.s, set t | t in d.unsynced[kept..]))
  }

  // ---- the database object ----------------------------------------------------------------

  class Database {
    var prepared: map<Txn, Batch>
    var decisions: map<Txn, Decision>
    var committed: map<Txn, Batch>
    var aborted: set<Txn>
    var unsynced: seq<Txn>
    var closing: bool

    constructor (disk: Disk)
      ensures View() == disk && !closing
    {
      prepared, decisions, committed, aborted := disk.s.prepared, disk.s.decisions, disk.s.committed, disk.s.aborted;
      unsynced, closing := disk.unsynced, false;
    }

    function View(): Disk
      reads this
    {
      Disk(Store(prepared, decisions, committed, aborted), unsynced)
    }

    method PersistPreparedCommit(txn: Txn, batch: Batch, fate: Fate) returns (status: Status)
      modifies this
      ensures closing == old(closing)
      ensures (View(), status) ==
                if closing then (old(View()), ShutdownInProgress) else PersistCall(old(View()), txn, batch, fate)
    {
      if closing { return ShutdownInProgress; }
      if txn in decisions { return Conflict; }
      if txn in prepared { return if prepared[txn] == batch then Ok else Conflict; }
      if txn in committed { return Conflict; }
      if !Survives(fate, 1) { return Crashed; }
      prepared, unsynced := prepared[txn := batch], [];
      status := Ended(fate);
    }

    method PersistPreparedDecision(txn: Txn, decision: Decision, fate: Fate) returns (status: Status)
      modifies `decisions, `unsynced
      ensures (View(), status) == DecideCall(old(View()), txn, decision, fate)
    {
      if txn in decisions { return if decisions[txn] == decision then Ok else Conflict; }
      if txn !in prepared { return NotFound; }
      if !Survives(fate, 1) { return Crashed; }
      decisions, unsynced := decisions[txn := decision], [];
      status := Ok;
    }

    method FinalizePreparedCommit(txn: Txn, certificate: string, durability: Durability, admitted: bool, fate: Fate)
      returns (status: Status)
      modifies this
      ensures closing == old(closing)
      ensures (View(), status) ==
                if WellFormed(txn, certificate) && closing then (old(View()), ShutdownInProgress)
                else FinalizeCall(old(View()), txn, certificate, durability, admitted, fate)
    {
      if !WellFormed(txn, certificate) { return InvalidArgument; }
      if closing { return ShutdownInProgress; }
      var desired := Decision(Commit, certificate);
      if txn in decisions && decisions[txn] != desired { return Conflict; }
      if txn !in decisions {
        status := PersistPreparedDecision(txn, desired, fate);
        if status != Ok { return; }
      }
      if txn in prepared {
        if !admitted { return StoreFailed; }
        if !Survives(fate, 2) { return Crashed; }
        committed := committed[txn := prepared[txn]];
        prepared := prepared - {txn};
        unsynced := if durability == WalSync then [] else unsynced + [txn];
        return Ended(fate);
      }
      if txn !in committed { return NotFound; }
      if durability == WalSync { unsynced := []; }
      status := Ok;
    }

    method AbortPreparedCommit(txn: Txn, certificate: string, fate: Fate) returns (status: Status)
      modifies this
      ensures closing == old(closing)
      ensures (View(), status) ==
                if WellFormed(txn, certificate) && closing then (old(View()), ShutdownInProgress)
                else AbortCall(old(View()), txn, certificate, fate)
    {
      if !WellFormed(txn, certificate) { return InvalidArgument; }
      if closing { return ShutdownInProgress; }
      var desired := Decision(Abort, certificate);
      if txn in decisions {
        if decisions[txn] != desired { return Conflict; }
      } else {
        status := PersistPreparedDecision(txn, desired, fate);
        if status != Ok { return; }
      }
      if !Survives(fate, 2) { return Crashed; }
      aborted, prepared, unsynced := aborted + {txn}, prepared - {txn}, [];
      status := Ended(fate);
    }
  }

  // ---- every sequence of calls and crashes --------------------------------------------------

  datatype Step =
    | Persist(txn: Txn, batch: Batch, fate: Fate)
    | Finalize(txn: Txn, certificate: string, durability: Durability, admitted: bool, fate: Fate)
    | AbortTxn(txn: Txn, certificate: string, fate: Fate)
    | LoseBuffered(kept: nat)

  predicate Enabled(d: Disk, step: Step) { step.LoseBuffered? ==> step.kept <= |d.unsynced| }

  function Apply(d: Disk, step: Step): Disk
    requires Enabled(d, step)
  {
    match step
    case Persist(txn, batch, fate) => PersistCall(d, txn, batch, fate).0
    case Finalize(txn, certificate, durability, admitted, fate) =>
      FinalizeCall(d, txn, certificate, durability, admitted, fate).0
    case AbortTxn(txn, certificate, fate) => AbortCall(d, txn, certificate, fate).0
    case LoseBuffered(kept) => Crash(d, kept)
  }

  /** `trace[i]` is the disk before step `i`; a crash may follow any call, interrupted or not. */
  ghost predicate Run(trace: seq<Disk>, steps: seq<Step>) {
    && |trace| == |steps| + 1 && trace[0] == Synced(Store(map[], map[], map[], {}))
    && forall i :: 0 <= i < |steps| ==> Enabled(trace[i], steps[i]) && trace[i + 1] == Apply(trace[i], steps[i])
  }

  ghost predicate Decided(s: Store, txn: Txn, outcome: Outcome) {
    txn in s.decisions && s.decisions[txn].outcome == outcome
  }

  /** What was finalized was decided so, and never both ways. */
  ghost predicate StoreInv(s: Store) {
    && (forall t :: t in s.committed ==> Decided(s, t, Commit) && t !in s.prepared)
    && (forall t :: t in s.aborted ==> Decided(s, t, Abort) && t !in s.prepared)
    && (forall t :: t in s.decisions ==> t in s.prepared || t in s.committed || t in s.aborted)
  }

  ghost predicate Inv(d: Disk) { StoreInv(d.s) && forall t :: t in d.unsynced ==> t in d.s.committed }

  /** Decisions and aborts stay, and a batch stays with its transaction until an abort. */
  ghost predicate Extends(s: Store, s': Store) {
    && (forall t :: t in s.decisions ==> t in s'.decisions && s'.decisions[t] == s.decisions[t])
    && s.aborted <= s'.aborted
    && (forall t :: t in s.committed ==> Carries(s', t, s.committed[t]))
    && (forall t :: t in s.prepared ==> Carries(s', t, s.prepared[t]) || t in s'.aborted)
  }

  ghost predicate Carries(s: Store, t: Txn, batch: Batch) {
    (t in s.prepared && s.prepared[t] == batch) || (t in s.committed && s.committed[t] == batch)
  }

  /** Commits that no crash can take back. */
  ghost predicate Stable(d: Disk, t: Txn) { t in d.s.committed && t !in d.unsynced }

  ghost predicate Grows(d: Disk, d': Disk) {
    Inv(d') && Extends(d.s, d'.s) && forall t :: Stable(d, t) ==> Stable(d', t)
  }

  lemma GrowsTransitive(a: Disk, b: Disk, c: Disk)
    requires Inv(a) && Grows(a, b) && Grows(b, c)
    ensures Grows(a, c)
  {
  }

  lemma PersistGrows(d: Disk, txn: Txn, batch: Batch, fate: Fate)
    requires Inv(d)
    ensures Grows(d, PersistCall(d, txn, batch, fate).0)
  {
  }

  lemma DecideGrows(d: Disk, txn: Txn, decision: Decision, fate: Fate)
    requires Inv(d)
    ensures var (d', status) := DecideCall(d, txn, decision, fate);
            Grows(d, d') && (status == Ok ==> txn in d'.s.decisions && d'.s.decisions[txn] == decision)
  {
  }

  lemma FinalWriteGrows(d: Disk, txn: Txn, durability: Durability)
    requires Inv(d) && Decided(d.s, txn, Commit) && txn in d.s.prepared
    ensures Grows(d, Settled(Disk(Finalized(d.s, txn), d.unsynced + [txn]), durability))
  {
  }

  lemma AbortWriteGrows(d: Disk, txn: Txn)
    requires Inv(d) && Decided(d.s, txn, Abort)
    ensures Grows(d, Synced(d.s.(prepared := d.s.prepared - {txn}, aborted := d.s.aborted + {txn})))
  {
  }

  lemma FinalizeGrows(d: Disk, txn: Txn, certificate: string, durability: Durability, admitted: bool, fate: Fate)
    requires Inv(d)
    ensures Grows(d, FinalizeCall(d, txn, certificate, durability, admitted, fate).0)
  {
    var (d1, decided) := DecideCall(d, txn, Decision(Commit, certificate), fate);
    DecideGrows(d, txn, Decision(Commit, certificate), fate);
    if decided == Ok && txn in d1.s.prepared {
      FinalWriteGrows(d1, txn, durability);
      GrowsTransitive(d, d1, Settled(Disk(Finalized(d1.s, txn), d1.unsynced + [txn]), durability));
    }
  }

  lemma AbortGrows(d: Disk, txn: Txn, certificate: string, fate: Fate)
    requires Inv(d)
    ensures Grows(d, AbortCall(d, txn, certificate, fate).0)
  {
    var (d1, decided) := DecideCall(d, txn, Decision(Abort, certificate), fate);
    DecideGrows(d, txn, Decision(Abort, certificate), fate);
    if decided == Ok {
      AbortWriteGrows(d1, txn);
      GrowsTransitive(d, d1, Synced(d1.s.(prepared := d1.s.prepared - {txn}, aborted := d1.s.aborted + {txn})));
    }
  }

  lemma UndoneInv(s: Store, lost: set<Txn>)
    requires StoreInv(s)
    ensures StoreInv(Undone(s, lost))
  {
  }

  lemma UndoneExtends(s: Store, lost: set<Txn>)
    requires StoreInv(s)
    ensures Extends(s, Undone(s, lost))
  {
  }

  lemma CrashGrows(d: Disk, kept: nat)
    requires Inv(d) && kept <= |d.unsynced|
    ensures Grows(d, Crash(d, kept))
  {
    var lost := set t | t in d.unsynced[kept..];
    assert forall t :: t in lost ==> t in d.unsynced;
    UndoneInv(d.s, lost);
    UndoneExtends(d.s, lost);
  }

  lemma StepGrows(d: Disk, step: Step)
    requires Inv(d) && Enabled(d, step)
    ensures Grows(d, Apply(d, step))
  {
    match step
    case Persist(txn, batch, fate) => PersistGrows(d, txn, batch, fate);
    case Finalize(txn, certificate, durability, admitted, fate) =>
      FinalizeGrows(d, txn, certificate, durability, admitted, fate);
    case AbortTxn(txn, certificate, fate) => AbortGrows(d, txn, certificate, fate);
    case LoseBuffered(kept) => CrashGrows(d, kept);
  }

  lemma {:induction false} RunInv(trace: seq<Disk>, steps: seq<Step>, i: nat)
    requires Run(trace, steps) && i < |trace|
    ensures Inv(trace[i])
  {
    if i > 0 {
      RunInv(trace, steps, i - 1);
      StepGrows(trace[i - 1], steps[i - 1]);
    }
  }

  lemma {:induction false} RunGrows(trace: seq<Disk>, steps: seq<Step>, i: nat, j: nat)
    requires Run(trace, steps) && i <= j < |trace|
    ensures Inv(trace[i]) && Grows(trace[i], trace[j])
    decreases j
  {
    RunInv(trace, steps, i);
    if i < j {
      RunGrows(trace, steps, i, j - 1);
      RunInv(trace, steps, j - 1);
      StepGrows(trace[j - 1], steps[j - 1]);
      GrowsTransitive(trace[i], trace[j - 1], trace[j]);
    }
  }

  // ---- what it means ------------------------------------------------------------------------

  /** A recorded decision is permanent. */
  lemma DecisionNeverChanges(trace: seq<Disk>, steps: seq<Step>, i: nat, j: nat, txn: Txn)
    requires Run(trace, steps) && i <= j < |trace| && txn in trace[i].s.decisions
    ensures txn in trace[j].s.decisions && trace[j].s.decisions[txn] == trace[i].s.decisions[txn]
  {
    RunGrows(trace, steps, i, j);
  }

  /** Finalization follows a commit decision, and is never reached once an abort was decided. */
  lemma FinalizedOnlyOnCommit(trace: seq<Disk>, steps: seq<Step>, i: nat, j: nat, txn: Txn)
    requires Run(trace, steps) && i < |trace| && j < |trace| && txn in trace[i].s.committed
    ensures Decided(trace[i].s, txn, Commit) && !Decided(trace[j].s, txn, Abort) && txn !in trace[j].s.aborted
  {
    RunInv(trace, steps, i);
    RunInv(trace, steps, j);
    if i <= j { RunGrows(trace, steps, i, j); } else { RunGrows(trace, steps, j, i); }
  }

  /** Nothing but the batch that was prepared is ever finalized. */
  lemma FinalizesWhatWasPrepared(trace: seq<Disk>, steps: seq<Step>, i: nat, j: nat, txn: Txn)
    requires Run(trace, steps) && i <= j < |trace| && txn in trace[i].s.prepared && txn in trace[j].s.committed
    ensures trace[j].s.committed[txn] == trace[i].s.prepared[txn]
  {
    RunGrows(trace, steps, i, j);
    RunInv(trace, steps, j);
  }

  /** A synchronized finalize that returned Ok is never lost. */
  lemma SyncedFinalizeStays(trace: seq<Disk>, steps: seq<Step>, i: nat, j: nat, txn: Txn, certificate: string,
                            admitted: bool, fate: Fate)
    requires Run(trace, steps) && i < j < |trace| && steps[i] == Finalize(txn, certificate, WalSync, admitted, fate)
    requires FinalizeCall(trace[i], txn, certificate, WalSync, admitted, fate).1 == Ok
    ensures txn in trace[j].s.committed
  {
    RunInv(trace, steps, i);
    assert Stable(trace[i + 1], txn);
    RunGrows(trace, steps, i + 1, j);
  }

  /**
   A buffered finalize that a crash took back leaves the transaction prepared and decided: no
   abort is accepted, and the same call completes it with the same batch.
   */
  lemma LostFinalizeIsRetried(trace: seq<Disk>, steps: seq<Step>, i: nat, j: nat, txn: Txn, certificate: string)
    requires Run(trace, steps) && i <= j < |trace| && WellFormed(txn, certificate)
    requires txn in trace[i].s.committed && txn in trace[i].s.decisions
    requires trace[i].s.decisions[txn] == Decision(Commit, certificate)
    requires txn !in trace[j].s.committed
    ensures txn in trace[j].s.prepared && trace[j].s.prepared[txn] == trace[i].s.committed[txn]
    ensures forall other, fate :: other != "" ==> AbortCall(trace[j], txn, other, fate) == (trace[j], Conflict)
    ensures forall durability ::
              var (d, status) := FinalizeCall(trace[j], txn, certificate, durability, true, Runs);
              status == Ok && txn in d.s.committed && d.s.committed[txn] == trace[i].s.committed[txn]
  {
    RunGrows(trace, steps, i, j);
  }

  /** A call whose outcome or certificate differs from the recorded decision is refused and changes nothing. */
  lemma DifferentDecisionRefused(d: Disk, txn: Txn, certificate: string, durability: Durability, admitted: bool,
                                 fate: Fate)
    requires WellFormed(txn, certificate) && txn in d.s.decisions
    ensures d.s.decisions[txn] != Decision(Commit, certificate) <==>
            FinalizeCall(d, txn, certificate, durability, admitted, fate) == (d, Conflict)
    ensures d.s.decisions[txn] != Decision(Abort, certificate) <==>
            AbortCall(d, txn, certificate, fate) == (d, Conflict)
    ensures forall batch :: PersistCall(d, txn, batch, fate) == (d, Conflict)
  {
  }

  /** A commit interrupted after its decision is completed by repeating the call, and repeating it again is harmless. */
  lemma RetryCompletes(d: Disk, txn: Txn, certificate: string, durability: Durability, writes: nat)
    requires Inv(d) && WellFormed(txn, certificate) && txn in d.s.prepared && txn !in d.s.decisions && writes >= 1
    ensures var crashed := FinalizeCall(d, txn, certificate, durability, true, CrashAfter(writes)).0;
            var retried := FinalizeCall(crashed, txn, certificate, durability, true, Runs);
            && retried.1 == Ok && txn in retried.0.s.committed && retried.0.s.committed[txn] == d.s.prepared[txn]
            && FinalizeCall(retried.0, txn, certificate, durability, true, Runs) == retried
  {
  }
}
