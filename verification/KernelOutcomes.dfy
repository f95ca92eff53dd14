/**
 Terminal outcomes: every request and every handle gets exactly one, it never changes, and it
 is what the commit log says.
 */
module KernelOutcomes {
  import opened Common
  import opened Requests
  import opened AppendQueues
  import opened CommitKernel
  import opened KernelFrames
  import opened KernelOrder
  import opened KernelLog
  import opened KernelHandles
  import opened KernelTheorems

  // ---- results are written once -------------------------------------------------------

  lemma {:induction false} ResultsOnlyBooked(b: QueueBounds, s: State, step: Step)
    requires Enabled(b, s, step) && step != Write(BookStep)
    ensures Apply(b, s, step).clients.results == s.clients.results
  {
    match step
    case Client(c) => match c { case AdmitStep(_) => case MarkCancelledStep(_) => case CancelStep(_, _) => case _ => }
    case Select(w) => match w { case BeginCollectStep(_) => case CollectStep(_, _) => case BindStep => case _ => }
    case Write(x) =>
      match x { case WriteDecidedStep(_) => case WriteGeneralStep(_, _) => case PublishStep => case _ => }
    case Other(_) =>
  }

  lemma BookKeepsResults(s: State, id: nat)
    requires Ordered(s.flow, Group(s.worker)) && StateSeqInv(s) && WriteEnabled(s, BookStep) && id in s.clients.results
    ensures id in Book(s).clients.results && Book(s).clients.results[id] == s.clients.results[id]
  {
    OrderedApart(s);
    DistinctParts(s.flow.done + s.worker.group, s.flow.q.requests);
    DistinctParts(s.flow.done, s.worker.group);
    WithResultsAt(s.clients.results, s.worker.group, s.worker.result);
    assert s.flow.done + [] == s.flow.done;
  }

  /** A request's own result is written once. */
  lemma {:induction false} ResultsKept(b: QueueBounds, s: State, step: Step, id: nat)
    requires Inv(b, s) && Enabled(b, s, step) && id in s.clients.results
    ensures var c' := Apply(b, s, step).clients; id in c'.results && c'.results[id] == s.clients.results[id]
  {
    if step == Write(BookStep) {
      BookKeepsResults(s, id);
    } else {
      ResultsOnlyBooked(b, s, step);
    }
  }

  // ---- what an admitted request shows ---------------------------------------------------

  /** Until publication the group's handles show nothing. */
  lemma GroupUnseen(c: Clients, w: Worker, i: nat)
    requires GroupHandles(c, w) && !w.Published? && i < |Group(w)| && Group(w)[i].handled
    ensures WaitValue(c, Group(w)[i].id).None?
  {
    if w.InFlight? && i >= w.bound { assert w.group[w.bound..][i - w.bound] == w.group[i]; }
  }

  lemma TrackedWhere(s: State, r: Request)
    requires r in KernelTheorems.Tracked(s)
    ensures r in s.flow.done || r in Group(s.worker) || r in s.flow.q.requests
  {
  }

  /** Where an outcome can already be visible: cancelled, finished, published, or fixed for a sync caller. */
  lemma VisibleWhere(b: QueueBounds, s: State, r: Request)
    requires Inv(b, s) && r in s.flow.admitted && Terminal(s.clients, r).Some?
    ensures r.id in s.flow.removed || r in s.flow.done || (r in Group(s.worker) && s.worker.Published?)
            || (!r.handled && r.id in s.clients.results)
  {
    OrderedApart(s);
    if r.handled && r.id !in s.flow.removed {
      TrackedWhere(s, r);
      HandledWhere(s.flow, s.worker, s.clients, r);
    }
  }

  lemma HandledWhere(fl: Flow, w: Worker, c: Clients, r: Request)
    requires KernelHandles.Tracked(fl, w, c) && r.handled && WaitValue(c, r.id).Some?
    requires r in fl.done || r in Group(w) || r in fl.q.requests
    ensures r in fl.done || (r in Group(w) && w.Published?)
  {
    if r in Group(w) && !w.Published? {
      var i :| 0 <= i < |Group(w)| && Group(w)[i] == r;
      GroupUnseen(c, w, i);
    }
  }

  /** Admissions and cancellations only accumulate, and a published request stays published. */
  ghost predicate Grew(s: State, s': State) {
    && (forall r :: r in s.flow.admitted ==> r in s'.flow.admitted)
    && s.flow.removed <= s'.flow.removed
    && (forall r :: r in s.flow.done || (r in Group(s.worker) && s.worker.Published?) ==>
          r in s'.flow.done || (r in Group(s'.worker) && s'.worker.Published?))
  }

  lemma {:induction false} FlowGrows(b: QueueBounds, s: State, step: Step)
    requires Enabled(b, s, step)
    ensures Grew(s, Apply(b, s, step))
  {
    match step
    case Client(c) => match c { case AdmitStep(_) => case CancelStep(_, _) => case _ => }
    case Select(w) => match w { case BeginCollectStep(_) => case CollectStep(_, _) => case BindStep => case _ => }
    case Write(x) =>
      match x { case WriteDecidedStep(_) => case WriteGeneralStep(_, _) => case ReleaseStep => case _ => }
    case Other(_) =>
  }

  lemma {:induction false} ReportingOnlyRemoved(b: QueueBounds, s: State, step: Step, id: nat)
    requires Enabled(b, s, step) && Apart(s) && id in s.flow.removed && id !in s.clients.reporting
    ensures id !in Apply(b, s, step).clients.reporting
  {
    match step
    case Client(c) =>
      if c.CancelStep? && c.at.Some? { InQueue(s.flow, s.worker, c.at.value); }
    case Select(w) => match w { case BeginCollectStep(_) => case CollectStep(_, _) => case BindStep => case _ => }
    case Write(x) => match x { case WriteDecidedStep(_) => case WriteGeneralStep(_, _) => case _ => }
    case Other(_) =>
  }

  lemma ReportedShows(c: Clients, removed: set<nat>, id: nat)
    requires RemovedHandles(c, removed) && id in removed && id !in c.reporting
    ensures WaitValue(c, id) == Some(Aborted(Cancelled))
  {
  }

  /** A reported cancellation stays reported. */
  lemma {:induction false} ReportedStays(b: QueueBounds, s: State, step: Step, id: nat)
    requires Inv(b, s) && Enabled(b, s, step) && HandleInv(Apply(b, s, step))
    requires id in s.flow.removed && id !in s.clients.reporting
    ensures WaitValue(Apply(b, s, step).clients, id) == WaitValue(s.clients, id) == Some(Aborted(Cancelled))
  {
    OrderedApart(s);
    FlowGrows(b, s, step);
    ReportingOnlyRemoved(b, s, step, id);
    ReportedShows(s.clients, s.flow.removed, id);
    ReportedShows(Apply(b, s, step).clients, Apply(b, s, step).flow.removed, id);
  }

  lemma RemovedUnreported(c: Clients, removed: set<nat>, id: nat)
    requires RemovedHandles(c, removed) && id in removed && WaitValue(c, id).Some?
    ensures id !in c.reporting
  {
  }

  /** No step of any thread changes an outcome that some client could already observe. */
  lemma {:induction false} OutcomeKept(b: QueueBounds, s: State, step: Step, r: Request)
    requires Inv(b, s) && Enabled(b, s, step) && r in s.flow.admitted && Terminal(s.clients, r).Some?
    ensures r in Apply(b, s, step).flow.admitted && Terminal(Apply(b, s, step).clients, r) == Terminal(s.clients, r)
  {
    StepKeepsInv(b, s, step);
    VisibleWhere(b, s, r);
    FlowGrows(b, s, step);
    if !r.handled {
      ResultsKept(b, s, step, r.id);
    } else if r.id in s.flow.removed {
      RemovedUnreported(s.clients, s.flow.removed, r.id);
      ReportedStays(b, s, step, r.id);
    } else {
      SettledTerminal(b, s, r);
      SettledTerminal(b, Apply(b, s, step), r);
      ResultsKept(b, s, step, r.id);
    }
  }

  lemma RunStep(b: QueueBounds, trace: seq<State>, steps: seq<Step>, j: nat)
    requires Run(b, trace, steps) && j < |steps|
    ensures Enabled(b, trace[j], steps[j]) && trace[j + 1] == Apply(b, trace[j], steps[j])
  {
  }

  lemma OutcomeKeptInRun(b: QueueBounds, trace: seq<State>, steps: seq<Step>, j: nat, r: Request)
    requires Run(b, trace, steps) && j < |steps|
    requires r in trace[j].flow.admitted && Terminal(trace[j].clients, r).Some?
    ensures r in trace[j + 1].flow.admitted && Terminal(trace[j + 1].clients, r) == Terminal(trace[j].clients, r)
  {
    RunInv(b, trace, steps, j);
    RunStep(b, trace, steps, j);
    OutcomeKept(b, trace[j], steps[j], r);
  }

  /** An outcome of an admitted request observed anywhere in a run is its outcome from then on. */
  lemma {:induction false} OutcomeIsFinal(b: QueueBounds, trace: seq<State>, steps: seq<Step>,
                                          i: nat, j: nat, r: Request)
    requires Run(b, trace, steps) && i <= j < |trace|
    requires r in trace[i].flow.admitted && Terminal(trace[i].clients, r).Some?
    ensures r in trace[j].flow.admitted && Terminal(trace[j].clients, r) == Terminal(trace[i].clients, r)
    decreases j - i
  {
    if i < j {
      OutcomeKeptInRun(b, trace, steps, i, r);
      OutcomeIsFinal(b, trace, steps, i + 1, j, r);
    }
  }

  // ---- outcomes are true ------------------------------------------------------------------

  ghost predicate RemovedHandled(fl: Flow) {
    forall i :: 0 <= i < |fl.admitted| && fl.admitted[i].id in fl.removed ==> fl.admitted[i].handled
  }

  /** Only admission and cancellation touch the two lists. */
  lemma {:induction false} ListsFrame(b: QueueBounds, s: State, step: Step)
    requires Enabled(b, s, step) && !(step.Client? && (step.c.AdmitStep? || step.c.CancelStep?))
    ensures var fl := Apply(b, s, step).flow; fl.admitted == s.flow.admitted && fl.removed == s.flow.removed
  {
    match step
    case Client(_) =>
    case Select(w) => match w { case BeginCollectStep(_) => case CollectStep(_, _) => case BindStep => case _ => }
    case Write(x) =>
      match x { case WriteDecidedStep(_) => case WriteGeneralStep(_, _) => case ReleaseStep => case _ => }
    case Other(_) =>
  }

  lemma {:induction false} RemovedHandledClient(b: QueueBounds, s: State, c: ClientStep)
    requires Inv(b, s) && ClientEnabled(b, s, c) && RemovedHandled(s.flow)
    ensures RemovedHandled(ClientApply(b, s, c).flow)
  {
    match c
    case AdmitStep(r) =>
      assert r.id !in s.flow.removed;
    case CancelStep(_, _) =>
    case _ =>
  }

  lemma {:induction false} RemovedHandledStep(b: QueueBounds, s: State, step: Step)
    requires Inv(b, s) && Enabled(b, s, step) && RemovedHandled(s.flow)
    ensures RemovedHandled(Apply(b, s, step).flow)
  {
    if step.Client? { RemovedHandledClient(b, s, step.c); } else { ListsFrame(b, s, step); }
  }

  /** Only asynchronous requests are ever cancelled out of the queue. */
  lemma {:induction false} RemovedWasHandled(b: QueueBounds, trace: seq<State>, steps: seq<Step>, i: nat)
    requires Run(b, trace, steps) && i < |trace|
    ensures RemovedHandled(trace[i].flow)
  {
    if i > 0 {
      RemovedWasHandled(b, trace, steps, i - 1);
      RemovedHandledNext(b, trace, steps, i - 1);
    }
  }

  lemma RemovedHandledNext(b: QueueBounds, trace: seq<State>, steps: seq<Step>, j: nat)
    requires Run(b, trace, steps) && j < |steps| && RemovedHandled(trace[j].flow)
    ensures RemovedHandled(trace[j + 1].flow)
  {
    RunInv(b, trace, steps, j);
    RunStep(b, trace, steps, j);
    RemovedHandledStep(b, trace[j], steps[j]);
  }

  ghost predicate TrueOutcome(s: State, id: nat, o: Outcome) {
    && (o.Committed? <==> id in s.store.txns)
    && (o.Committed? ==> s.store.txns[id] == o.seqNo)
    && (o == Aborted(Cancelled) <==> id in s.flow.removed)
  }

  lemma RemovedOutcome(b: QueueBounds, s: State, r: Request)
    requires Inv(b, s) && r.id in s.flow.removed && r.handled && WaitValue(s.clients, r.id).Some?
    ensures TrueOutcome(s, r.id, WaitValue(s.clients, r.id).value)
    ensures WaitValue(s.clients, r.id).value == Aborted(Cancelled)
  {
    RemovedUnreported(s.clients, s.flow.removed, r.id);
    ReportedShows(s.clients, s.flow.removed, r.id);
    if r.id in s.store.txns { CommittedWereAdmitted(b, s, r.id); }
  }

  lemma SyncOutcome(b: QueueBounds, s: State, r: Request)
    requires Inv(b, s) && !r.handled && r.id in s.clients.results
    ensures Agrees(s.store, r.id, s.clients.results[r.id])
  {
    var settled := Settled(s.flow.done, s.worker);
    var k :| 0 <= k < |settled| && settled[k].id == r.id;
  }

  /**
   The outcome of an admitted request is the truth: `Committed(n)` exactly when the log holds
   the request at `n`, and the cancellation report exactly for requests removed from the queue.
   */
  lemma OutcomeIsTrue(b: QueueBounds, trace: seq<State>, steps: seq<Step>, i: nat, r: Request)
    requires Run(b, trace, steps) && i < |trace|
    requires r in trace[i].flow.admitted && Terminal(trace[i].clients, r).Some?
    ensures var o := Terminal(trace[i].clients, r).value;
            TrueOutcome(trace[i], r.id, o) && o != Aborted(ShuttingDown) && o != Aborted(NotAdmitted)
  {
    RunInv(b, trace, steps, i);
    RemovedWasHandled(b, trace, steps, i);
    var s := trace[i];
    VisibleWhere(b, s, r);
    if r.id in s.flow.removed {
      RemovedOutcome(b, s, r);
    } else if r.handled {
      SettledTerminal(b, s, r);
    } else {
      SyncOutcome(b, s, r);
    }
  }

  // ---- every handle -----------------------------------------------------------------------

  /** The outcomes of a request that never entered the pipeline. */
  predicate TurnedAway(o: Outcome) { o == Aborted(NotAdmitted) || o == Aborted(ShuttingDown) }

  /** What a handle of a request that was never admitted may hold. */
  predicate Outside(h: Handle) {
    h.bound.None? && (h.result.Some? ==> TurnedAway(h.result.value))
  }

  /** Synchronous requests have no handle, and only admitted requests are bound or cancelled. */
  ghost predicate Owned(fl: Flow, c: Clients) {
    && (forall r :: r in fl.admitted && !r.handled ==> HandleOf(c, r.id) == Fresh)
    && (forall id :: id !in Ids(fl.admitted) ==> Outside(HandleOf(c, id)))
  }

  /** The handle a step may write, if any. */
  function Touches(s: State, step: Step): Option<nat> {
    match step
    case Client(ReportCancelledStep(id)) => Some(id)
    case Client(RefuseStep(id)) => Some(id)
    case Select(BindStep) =>
      var w := s.worker;
      if w.InFlight? && w.bound < |w.group| && w.group[w.bound].handled then Some(w.group[w.bound].id) else None
    case Other(SweepStep(id)) => Some(id)
    case _ => None
  }

  lemma {:induction false} OnlyTouched(b: QueueBounds, s: State, step: Step, id: nat)
    requires Enabled(b, s, step) && Touches(s, step) != Some(id)
    ensures HandleOf(Apply(b, s, step).clients, id) == HandleOf(s.clients, id)
  {
    match step
    case Client(c) => match c { case AdmitStep(_) => case CancelStep(_, _) => case _ => }
    case Select(w) => match w { case BeginCollectStep(_) => case CollectStep(_, _) => case BindStep => case _ => }
    case Write(x) => match x { case WriteDecidedStep(_) => case WriteGeneralStep(_, _) => case BookStep => case _ => }
    case Other(_) =>
  }

  lemma AdmittedId(rs: seq<Request>, r: Request)
    requires r in rs
    ensures r.id in Ids(rs)
  {
    var i :| 0 <= i < |rs| && rs[i] == r;
  }

  /** Admitted requests are told apart by their ids. */
  lemma SameId(rs: seq<Request>, a: Request, b: Request)
    requires Distinct(rs) && a in rs && b in rs && a.id == b.id
    ensures a == b
  {
    var i :| 0 <= i < |rs| && rs[i] == a;
    var j :| 0 <= j < |rs| && rs[j] == b;
  }

  /** A step writes no sync request's handle, and leaves the handle of an unadmitted request outside. */
  lemma {:induction false} OwnedTouched(b: QueueBounds, s: State, step: Step, id: nat)
    requires Inv(b, s) && Enabled(b, s, step) && Owned(s.flow, s.clients) && RemovedHandled(s.flow)
    requires Touches(s, step) == Some(id)
    ensures forall r :: r in s.flow.admitted && r.id == id ==> r.handled
    ensures id !in Ids(s.flow.admitted) ==> Outside(HandleOf(Apply(b, s, step).clients, id))
  {
    match step
    case Client(ReportCancelledStep(_)) => assert id in s.flow.removed;
    case Client(RefuseStep(_)) =>
      forall r | r in s.flow.admitted ensures r.id in Ids(s.flow.admitted) { AdmittedId(s.flow.admitted, r); }
    case Select(BindStep) => BoundWasAdmitted(s, id);
    case Other(SweepStep(_)) =>
    case _ =>
  }

  lemma BoundWasAdmitted(s: State, id: nat)
    requires Ordered(s.flow, Group(s.worker)) && s.worker.InFlight? && s.worker.bound < |s.worker.group|
    requires s.worker.group[s.worker.bound].id == id
    ensures id in Ids(s.flow.admitted)
    ensures forall r :: r in s.flow.admitted && r.id == id ==> r == s.worker.group[s.worker.bound]
  {
    var bound := s.worker.group[s.worker.bound];
    OrderedApart(s);
    assert bound in KernelTheorems.Tracked(s);
    AdmittedId(s.flow.admitted, bound);
    forall r | r in s.flow.admitted && r.id == id ensures r == bound { SameId(s.flow.admitted, r, bound); }
  }

  lemma {:induction false} AdmitOwned(b: QueueBounds, s: State, r: Request)
    requires Inv(b, s) && CanAdmit(b, s, r) && Owned(s.flow, s.clients)
    ensures Owned(Admit(s, r).flow, s.clients)
  {
    IdsPush(s.flow.admitted, r);
    assert r.id !in s.clients.handles;
  }

  lemma {:induction false} OwnedStep(b: QueueBounds, s: State, step: Step)
    requires Inv(b, s) && Enabled(b, s, step) && Owned(s.flow, s.clients) && RemovedHandled(s.flow)
    ensures Owned(Apply(b, s, step).flow, Apply(b, s, step).clients)
  {
    if step.Client? && step.c.AdmitStep? {
      AdmitOwned(b, s, step.c.r);
    } else {
      OwnedKept(b, s, step);
    }
  }

  lemma {:induction false} OwnedKept(b: QueueBounds, s: State, step: Step)
    requires Inv(b, s) && Enabled(b, s, step) && Owned(s.flow, s.clients) && RemovedHandled(s.flow)
    requires !(step.Client? && step.c.AdmitStep?)
    ensures Owned(Apply(b, s, step).flow, Apply(b, s, step).clients)
  {
    var admitted, c, c' := s.flow.admitted, s.clients, Apply(b, s, step).clients;
    SameAdmitted(b, s, step);
    forall r | r in admitted && !r.handled ensures HandleOf(c', r.id) == Fresh {
      if Touches(s, step) == Some(r.id) { OwnedTouched(b, s, step, r.id); } else { OnlyTouched(b, s, step, r.id); }
    }
    forall id | id !in Ids(admitted) ensures Outside(HandleOf(c', id)) {
      if Touches(s, step) == Some(id) { OwnedTouched(b, s, step, id); } else { OnlyTouched(b, s, step, id); }
    }
  }

  lemma {:induction false} SameAdmitted(b: QueueBounds, s: State, step: Step)
    requires Enabled(b, s, step) && !(step.Client? && step.c.AdmitStep?)
    ensures Apply(b, s, step).flow.admitted == s.flow.admitted
  {
    if !step.Client? { ListsFrame(b, s, step); }
  }

  lemma {:induction false} OwnedInRun(b: QueueBounds, trace: seq<State>, steps: seq<Step>, i: nat)
    requires Run(b, trace, steps) && i < |trace|
    ensures Owned(trace[i].flow, trace[i].clients)
  {
    if i > 0 {
      OwnedInRun(b, trace, steps, i - 1);
      OwnedNext(b, trace, steps, i - 1);
    }
  }

  lemma OwnedNext(b: QueueBounds, trace: seq<State>, steps: seq<Step>, j: nat)
    requires Run(b, trace, steps) && j < |steps| && Owned(trace[j].flow, trace[j].clients)
    ensures Owned(trace[j + 1].flow, trace[j + 1].clients)
  {
    RunInv(b, trace, steps, j);
    RemovedWasHandled(b, trace, steps, j);
    RunStep(b, trace, steps, j);
    OwnedStep(b, trace[j], steps[j]);
  }

  /** Never admitted so far, and never to be. */
  ghost predicate Barred(s: State, id: nat) {
    id !in Ids(s.flow.admitted) && (id in s.clients.refused || s.modes.quiesced)
  }

  lemma {:induction false} BarredStays(b: QueueBounds, s: State, step: Step, id: nat)
    requires Enabled(b, s, step) && Barred(s, id)
    ensures Barred(Apply(b, s, step), id)
  {
    match step
    case Client(c) => match c { case AdmitStep(r) => IdsPush(s.flow.admitted, r); case CancelStep(_, _) => case _ => }
    case Select(w) => match w { case BeginCollectStep(_) => case CollectStep(_, _) => case BindStep => case _ => }
    case Write(x) =>
      match x { case WriteDecidedStep(_) => case WriteGeneralStep(_, _) => case ReleaseStep => case _ => }
    case Other(_) =>
  }

  /** A handle that was answered without admission belongs to a request that can no longer be admitted. */
  lemma AnsweredIsBarred(b: QueueBounds, s: State, id: nat)
    requires Inv(b, s) && id !in Ids(s.flow.admitted) && HandleOf(s.clients, id).result.Some?
    ensures Barred(s, id)
  {
  }

  /** First writer wins: an answered handle outside the pipeline keeps its answer. */
  lemma {:induction false} AnswerStays(b: QueueBounds, s: State, step: Step, id: nat)
    requires Inv(b, s) && Enabled(b, s, step) && id !in Ids(s.flow.admitted)
    requires Outside(HandleOf(s.clients, id)) && HandleOf(s.clients, id).result.Some?
    ensures HandleOf(Apply(b, s, step).clients, id) == HandleOf(s.clients, id)
  {
    if Touches(s, step) != Some(id) {
      OnlyTouched(b, s, step, id);
    } else if step == Select(BindStep) {
      BoundWasAdmitted(s, id);
    } else {
      match step case Client(ReportCancelledStep(_)) => case Client(RefuseStep(_)) => case Other(_) => case _ =>
    }
  }

  lemma AdmittedWith(rs: seq<Request>, id: nat) returns (r: Request)
    requires id in Ids(rs)
    ensures r in rs && r.id == id
  {
    var i :| 0 <= i < |rs| && rs[i].id == id;
    r := rs[i];
  }

  lemma HandleKept(b: QueueBounds, trace: seq<State>, steps: seq<Step>, j: nat, id: nat)
    requires Run(b, trace, steps) && j < |steps| && WaitValue(trace[j].clients, id).Some?
    ensures WaitValue(trace[j + 1].clients, id) == WaitValue(trace[j].clients, id)
  {
    OwnedInRun(b, trace, steps, j);
    if id in Ids(trace[j].flow.admitted) {
      var r := AdmittedWith(trace[j].flow.admitted, id);
      OutcomeKeptInRun(b, trace, steps, j, r);
    } else {
      RunInv(b, trace, steps, j);
      RunStep(b, trace, steps, j);
      AnswerStays(b, trace[j], steps[j], id);
    }
  }

  /** The first outcome any handle shows is the one it shows from then on. */
  lemma {:induction false} HandleOutcomeIsFinal(b: QueueBounds, trace: seq<State>, steps: seq<Step>,
                                                i: nat, j: nat, id: nat)
    requires Run(b, trace, steps) && i <= j < |trace| && WaitValue(trace[i].clients, id).Some?
    ensures WaitValue(trace[j].clients, id) == WaitValue(trace[i].clients, id)
    decreases j - i
  {
    if i < j {
      HandleKept(b, trace, steps, i, id);
      HandleOutcomeIsFinal(b, trace, steps, i + 1, j, id);
    }
  }

  /**
   Whatever a handle shows is the truth: `Committed(n)` exactly when the log holds the request
   at `n`, cancelled exactly when the request was removed from the queue, and turned away
   exactly when it was not admitted.
   */
  lemma HandleOutcomeIsTrue(b: QueueBounds, trace: seq<State>, steps: seq<Step>, i: nat, id: nat)
    requires Run(b, trace, steps) && i < |trace| && WaitValue(trace[i].clients, id).Some?
    ensures var s, o := trace[i], WaitValue(trace[i].clients, id).value;
            TrueOutcome(s, id, o) && (TurnedAway(o) <==> id !in Ids(s.flow.admitted))
  {
    OwnedInRun(b, trace, steps, i);
    var s := trace[i];
    if id in Ids(s.flow.admitted) {
      var r := AdmittedWith(s.flow.admitted, id);
      OutcomeIsTrue(b, trace, steps, i, r);
    } else {
      RunInv(b, trace, steps, i);
      if id in s.store.txns { CommittedWereAdmitted(b, s, id); }
    }
  }

  lemma BarredInRun(b: QueueBounds, trace: seq<State>, steps: seq<Step>, j: nat, id: nat)
    requires Run(b, trace, steps) && j < |steps| && Barred(trace[j], id)
    ensures Barred(trace[j + 1], id)
  {
    RunStep(b, trace, steps, j);
    BarredStays(b, trace[j], steps[j], id);
  }

  lemma {:induction false} BarredForever(b: QueueBounds, trace: seq<State>, steps: seq<Step>, i: nat, j: nat, id: nat)
    requires Run(b, trace, steps) && i <= j < |trace| && Barred(trace[i], id)
    ensures Barred(trace[j], id)
    decreases j - i
  {
    if i < j {
      BarredInRun(b, trace, steps, i, id);
      BarredForever(b, trace, steps, i + 1, j, id);
    }
  }

  lemma {:induction false} UnadmittedBefore(b: QueueBounds, trace: seq<State>, steps: seq<Step>,
                                            j: nat, i: nat, id: nat)
    requires Run(b, trace, steps) && j <= i < |trace| && id !in Ids(trace[i].flow.admitted)
    ensures id !in Ids(trace[j].flow.admitted)
    decreases i
  {
    if j < i {
      RunStep(b, trace, steps, i - 1);
      FlowGrows(b, trace[i - 1], steps[i - 1]);
      if id in Ids(trace[i - 1].flow.admitted) {
        var r := AdmittedWith(trace[i - 1].flow.admitted, id);
        AdmittedId(trace[i].flow.admitted, r);
      }
      UnadmittedBefore(b, trace, steps, j, i - 1, id);
    }
  }

  /** A request that was turned away is in the log at no moment of the run. */
  lemma TurnedAwayNeverCommits(b: QueueBounds, trace: seq<State>, steps: seq<Step>, i: nat, j: nat, id: nat)
    requires Run(b, trace, steps) && i < |trace| && j < |trace| && WaitValue(trace[i].clients, id).Some?
    requires TurnedAway(WaitValue(trace[i].clients, id).value)
    ensures id !in Ids(trace[j].flow.admitted) && id !in trace[j].store.txns
  {
    HandleOutcomeIsTrue(b, trace, steps, i, id);
    if j <= i {
      UnadmittedBefore(b, trace, steps, j, i, id);
    } else {
      RunInv(b, trace, steps, i);
      OwnedInRun(b, trace, steps, i);
      AnsweredIsBarred(b, trace[i], id);
      BarredForever(b, trace, steps, i, j, id);
    }
    RunInv(b, trace, steps, j);
    if id in trace[j].store.txns { CommittedWereAdmitted(b, trace[j], id); }
  }

  // ---- every handle is answered ---------------------------------------------------------------

  lemma {:induction false} DrainedStays(b: QueueBounds, s: State, step: Step)
    requires Conserved(b, s.flow, s.worker) && Drained(s) && Enabled(b, s, step)
    requires !(step.Client? && step.c.AdmitStep?)
    ensures Drained(Apply(b, s, step))
  {
    match step
    case Client(_) =>
    case Select(w) => match w { case BeginCollectStep(_) => case CollectStep(_, _) => case BindStep => case _ => }
    case Write(x) => match x { case WriteDecidedStep(_) => case WriteGeneralStep(_, _) => case BookStep => case _ => }
    case Other(_) =>
  }

  /** Once shutdown has closed admission the pipeline stays drained. */
  lemma {:induction false} QuiescedIsDrained(b: QueueBounds, trace: seq<State>, steps: seq<Step>, i: nat)
    requires Run(b, trace, steps) && i < |trace| && trace[i].modes.quiesced
    ensures Drained(trace[i])
  {
    if i > 0 {
      RunInv(b, trace, steps, i - 1);
      RunStep(b, trace, steps, i - 1);
      if trace[i - 1].modes.quiesced { QuiescedIsDrained(b, trace, steps, i - 1); }
      QuiescedStep(b, trace[i - 1], steps[i - 1]);
    }
  }

  lemma {:induction false} QuiescedStep(b: QueueBounds, s: State, step: Step)
    requires Inv(b, s) && Enabled(b, s, step) && Apply(b, s, step).modes.quiesced
    requires s.modes.quiesced ==> Drained(s)
    ensures Drained(Apply(b, s, step))
  {
    QuiescedBefore(b, s, step);
    DrainedStays(b, s, step);
  }

  lemma {:induction false} QuiescedBefore(b: QueueBounds, s: State, step: Step)
    requires Enabled(b, s, step) && Apply(b, s, step).modes.quiesced
    ensures !(step.Client? && step.c.AdmitStep?) && (s.modes.quiesced || step == Other(QuiesceStep))
  {
    match step
    case Client(c) => match c { case AdmitStep(_) => case CancelStep(_, _) => case _ => }
    case Select(w) => match w { case BeginCollectStep(_) => case CollectStep(_, _) => case BindStep => case _ => }
    case Write(x) => match x { case WriteDecidedStep(_) => case WriteGeneralStep(_, _) => case _ => }
    case Other(_) =>
  }

  /** When shutdown starts sweeping, every admitted request, cancelled or not, has its outcome. */
  lemma QuiescedDecidesAdmitted(b: QueueBounds, trace: seq<State>, steps: seq<Step>, i: nat, r: Request)
    requires Run(b, trace, steps) && i < |trace| && trace[i].modes.quiesced && r in trace[i].flow.admitted
    ensures Terminal(trace[i].clients, r).Some?
  {
    QuiescedIsDrained(b, trace, steps, i);
    if r.id in trace[i].flow.removed {
      RunInv(b, trace, steps, i);
      RemovedWasHandled(b, trace, steps, i);
      ReportedShows(trace[i].clients, trace[i].flow.removed, r.id);
    } else {
      DrainedMeansPublished(b, trace, steps, i, r);
    }
  }

  /** The sweep leaves no handle unanswered: the one it visits shows an outcome ever after. */
  lemma SweepAnswers(b: QueueBounds, trace: seq<State>, steps: seq<Step>, i: nat, j: nat, id: nat)
    requires Run(b, trace, steps) && i < j < |trace| && steps[i] == Other(SweepStep(id))
    ensures WaitValue(trace[j].clients, id).Some?
  {
    RunStep(b, trace, steps, i);
    OwnedInRun(b, trace, steps, i);
    if id in Ids(trace[i].flow.admitted) {
      var r := AdmittedWith(trace[i].flow.admitted, id);
      QuiescedDecidesAdmitted(b, trace, steps, i, r);
      HandleOutcomeIsFinal(b, trace, steps, i, j, id);
    } else {
      HandleOutcomeIsFinal(b, trace, steps, i + 1, j, id);
    }
  }
}
