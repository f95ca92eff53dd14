/**
 The lock-free registration of commit calls with `Database::Close`. Any number of commit
 calls and close calls run concurrently; one step is one sequentially consistent atomic
 operation or one critical section of the lifecycle mutex.
 */
module CloseProtocol {

  type Tid = nat

  /** Where a commit call is between the first load of `closed` and `EndCommit`. */
  datatype CommitPc =
    | PassedFirstCheck    // read closed == false, not registered yet
    | Registered          // counter incremented, closing not re-read yet
    | SawOpen             // re-read closing == false, closed not re-read yet
    | Withdrawing         // observed the close transition, must end
    | Admitted            // may use the store until it ends

  /** Where a close call is after it published `closing`. */
  datatype ClosePc =
    | Draining            // waits for the counter to reach zero
    | Drained             // passed the wait; the pipeline and the store are still up
    | TearingDown         // the store agreed to close; pipeline stopped
    | ClosedStored        // closed published, closing still up

  datatype State = State(
    closing: bool, closed: bool, active: int, commits: map<Tid, CommitPc>, closers: map<Tid, ClosePc>)

  ghost predicate Init(s: State) {
    s == State(false, false, 0, map[], map[])
  }

  datatype Step =
    | FirstCheck(t: Tid)         // load closed
    | Register(t: Tid)           // fetch_add
    | RecheckClosing(t: Tid)     // load closing
    | RecheckClosed(t: Tid)      // load closed
    | EndCommit(t: Tid)          // fetch_sub
    | BeginClose(t: Tid)         // publish closing under the mutex
    | PassDrain(t: Tid)          // load the counter as zero
    | RollBack(t: Tid)           // drain, prepare or finish failed: reopen
    | PrepareClose(t: Tid)       // the store can close
    | StoreClosed(t: Tid)        // store finished closing: publish closed
    | ClearClosing(t: Tid)       // last store of the successful tail

  predicate Counted(pc: CommitPc) {
    !pc.PassedFirstCheck?
  }

  ghost predicate At(s: State, t: Tid, pc: CommitPc) {
    t in s.commits && s.commits[t] == pc
  }

  ghost predicate ClosingAt(s: State, t: Tid, pc: ClosePc) {
    t in s.closers && s.closers[t] == pc
  }

  ghost predicate Enabled(s: State, step: Step) {
    match step
    case FirstCheck(t) => t !in s.commits
    case Register(t) => At(s, t, PassedFirstCheck)
    case RecheckClosing(t) => At(s, t, Registered)
    case RecheckClosed(t) => At(s, t, SawOpen)
    case EndCommit(t) => At(s, t, Withdrawing) || At(s, t, Admitted)
    case BeginClose(t) => t !in s.closers
    case PassDrain(t) => ClosingAt(s, t, Draining) && s.active == 0
    case RollBack(t) => ClosingAt(s, t, Drained) || ClosingAt(s, t, TearingDown)
    case PrepareClose(t) => ClosingAt(s, t, Drained)
    case StoreClosed(t) => ClosingAt(s, t, TearingDown)
    case ClearClosing(t) => ClosingAt(s, t, ClosedStored)
  }

  function Move(s: State, t: Tid, pc: CommitPc): State {
    s.(commits := s.commits[t := pc])
  }

  function MoveCloser(s: State, t: Tid, pc: ClosePc): State {
    s.(closers := s.closers[t := pc])
  }

  ghost function Apply(s: State, step: Step): State
    requires Enabled(s, step)
  {
    match step
    case FirstCheck(t) => if s.closed then s else Move(s, t, PassedFirstCheck)
    case Register(t) => Move(s, t, Registered).(active := s.active + 1)
    case RecheckClosing(t) => Move(s, t, if s.closing then Withdrawing else SawOpen)
    case RecheckClosed(t) => Move(s, t, if s.closed then Withdrawing else Admitted)
    case EndCommit(t) => s.(active := s.active - 1, commits := s.commits - {t})
    case BeginClose(t) => if s.closed || s.closing then s else MoveCloser(s, t, Draining).(closing := true)
    case PassDrain(t) => MoveCloser(s, t, Drained)
    case RollBack(t) => s.(closing := false, closers := s.closers - {t})
    case PrepareClose(t) => MoveCloser(s, t, TearingDown)
    case StoreClosed(t) => MoveCloser(s, t, ClosedStored).(closed := true)
    case ClearClosing(t) => s.(closing := false, closers := s.closers - {t})
  }

  ghost predicate Run(trace: seq<State>, steps: seq<Step>) {
    && |trace| == |steps| + 1 && Init(trace[0])
    && forall i :: 0 <= i < |steps| ==> Enabled(trace[i], steps[i]) && trace[i + 1] == Apply(trace[i], steps[i])
  }

  /** The commit calls registered with the drain that have not reached `EndCommit`. */
  ghost function RegisteredCalls(s: State): set<Tid> {
    set t | t in s.commits && Counted(s.commits[t])
  }

  /** The close call decided that no commit is registered and has not rolled back. */
  ghost predicate PastDrain(s: State) {
    exists t :: t in s.closers && !s.closers[t].Draining?
  }

  ghost predicate CounterExact(s: State) {
    s.active == |RegisteredCalls(s)|
  }

  /** One close call at a time; it holds `closing`, and it alone publishes `closed`. */
  ghost predicate CloserSound(s: State) {
    && (forall t, u :: t in s.closers && u in s.closers ==> t == u)
    && (s.closing <==> s.closers != map[])
    && (forall t :: t in s.closers ==> (s.closed <==> s.closers[t].ClosedStored?))
  }

  /**
   Past the drain, and after a successful close, no commit is admitted; a call that read
   `closing == false` can then only find `closed` set.
   */
  ghost predicate NoneAdmitted(s: State) {
    && (PastDrain(s) ==> forall t :: t in s.commits ==> !s.commits[t].Admitted? && (s.commits[t].SawOpen? ==> s.closed))
    && (s.closed ==> forall t :: t in s.commits ==> !s.commits[t].Admitted?)
  }

  ghost predicate Inv(s: State) {
    CounterExact(s) && CloserSound(s) && NoneAdmitted(s)
  }

  predicate IsCommitStep(step: Step) {
    step.FirstCheck? || step.Register? || step.RecheckClosing? || step.RecheckClosed? || step.EndCommit?
  }

  lemma RegisteredAfter(s: State, t: Tid, pc: CommitPc)
    ensures RegisteredCalls(Move(s, t, pc)) ==
            if Counted(pc) then RegisteredCalls(s) + {t} else RegisteredCalls(s) - {t}
    ensures RegisteredCalls(s.(commits := s.commits - {t})) == RegisteredCalls(s) - {t}
  {
  }

  lemma StaysRegistered(s: State, t: Tid, pc: CommitPc)
    requires CounterExact(s) && t in s.commits && Counted(s.commits[t]) && Counted(pc)
    ensures CounterExact(Move(s, t, pc))
  {
    assert RegisteredCalls(Move(s, t, pc)) == RegisteredCalls(s);
  }

  lemma RegisterCounts(s: State, t: Tid)
    requires CounterExact(s) && At(s, t, PassedFirstCheck)
    ensures CounterExact(Move(s, t, Registered).(active := s.active + 1))
  {
    RegisteredAfter(s, t, Registered);
    assert RegisteredCalls(Move(s, t, Registered).(active := s.active + 1)) == RegisteredCalls(s) + {t};
  }

  lemma EndCounts(s: State, t: Tid)
    requires CounterExact(s) && t in s.commits && Counted(s.commits[t])
    ensures CounterExact(s.(active := s.active - 1, commits := s.commits - {t}))
  {
    RegisteredAfter(s, t, PassedFirstCheck);
    assert t in RegisteredCalls(s);
    assert RegisteredCalls(s.(active := s.active - 1, commits := s.commits - {t})) == RegisteredCalls(s) - {t};
  }

  lemma UncountedKeeps(s: State, t: Tid)
    requires CounterExact(s) && t !in s.commits
    ensures CounterExact(Move(s, t, PassedFirstCheck))
  {
    assert RegisteredCalls(Move(s, t, PassedFirstCheck)) == RegisteredCalls(s);
  }

  lemma SameCalls(s: State, s': State)
    requires CounterExact(s) && s'.active == s.active && s'.commits == s.commits
    ensures CounterExact(s')
  {
    assert RegisteredCalls(s') == RegisteredCalls(s);
  }

  /** The counter is the number of registered, unfinished calls, whatever the interleaving. */
  lemma {:induction false} CounterStep(s: State, step: Step)
    requires CounterExact(s) && Enabled(s, step)
    ensures CounterExact(Apply(s, step))
  {
    var s' := Apply(s, step);
    match step
    case FirstCheck(t) => if !s.closed { UncountedKeeps(s, t); }
    case Register(t) => RegisterCounts(s, t);
    case RecheckClosing(t) => StaysRegistered(s, t, s'.commits[t]);
    case RecheckClosed(t) => StaysRegistered(s, t, s'.commits[t]);
    case EndCommit(t) => EndCounts(s, t);
    case _ => SameCalls(s, s');
  }

  lemma {:induction false} CloserStep(s: State, step: Step)
    requires CloserSound(s) && Enabled(s, step)
    ensures CloserSound(Apply(s, step))
  {
    var s' := Apply(s, step);
    match step
    case BeginClose(t) => assert s'.closers != map[] || s' == s;
    case PassDrain(t) => assert t in s'.closers;
    case PrepareClose(t) => assert t in s'.closers;
    case StoreClosed(t) => assert t in s'.closers;
    case RollBack(t) => assert s'.closers == map[];
    case ClearClosing(t) => assert s'.closers == map[];
    case _ =>
  }

  lemma {:induction false} CommitStepAdmitsNone(s: State, step: Step)
    requires Inv(s) && Enabled(s, step) && IsCommitStep(step)
    ensures NoneAdmitted(Apply(s, step))
  {
  }

  lemma {:induction false} CloseStepAdmitsNone(s: State, step: Step)
    requires Inv(s) && Enabled(s, step) && !IsCommitStep(step)
    ensures NoneAdmitted(Apply(s, step))
  {
    match step
    case PassDrain(t) =>
      assert RegisteredCalls(s) == {};
      assert forall u :: u in s.commits && Counted(s.commits[u]) ==> u in RegisteredCalls(s);
    case PrepareClose(t) => assert t in s.closers && PastDrain(s);
    case StoreClosed(t) => assert t in s.closers && PastDrain(s);
    case _ =>
  }

  lemma {:induction false} RunInv(trace: seq<State>, steps: seq<Step>, i: nat)
    requires Run(trace, steps) && i < |trace|
    ensures Inv(trace[i])
  {
    if i > 0 {
      RunInv(trace, steps, i - 1);
      var s, step := trace[i - 1], steps[i - 1];
      CounterStep(s, step);
      CloserStep(s, step);
      if IsCommitStep(step) { CommitStepAdmitsNone(s, step); } else { CloseStepAdmitsNone(s, step); }
    }
  }

  /**
   From the moment a close passes its drain wait until it rolls back, no commit is admitted
   and unfinished; the counter always equals the registered calls and never underflows.
   */
  lemma DrainExcludesCommits(trace: seq<State>, steps: seq<Step>, i: nat)
    requires Run(trace, steps) && i < |trace|
    ensures trace[i].active == |RegisteredCalls(trace[i])| >= 0
    ensures PastDrain(trace[i]) ==> forall t :: t in trace[i].commits ==> !trace[i].commits[t].Admitted?
    ensures forall t, u :: t in trace[i].closers && u in trace[i].closers ==> t == u
  {
    RunInv(trace, steps, i);
  }

  /** A successful close is permanent and no commit is ever admitted after it. */
  lemma {:induction false} ClosedForever(trace: seq<State>, steps: seq<Step>, i: nat, j: nat)
    requires Run(trace, steps) && i <= j < |trace| && trace[i].closed
    ensures trace[j].closed && forall t :: t in trace[j].commits ==> !trace[j].commits[t].Admitted?
    decreases j
  {
    RunInv(trace, steps, j);
    if i < j { ClosedForever(trace, steps, i, j - 1); }
  }
}
