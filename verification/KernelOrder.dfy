/**
 Order and conservation in the commit pipeline: FIFO partition of the admitted requests,
 and the queue, reservation and activity counters.
 */
module KernelOrder {
  import opened Common
  import opened Requests
  import opened AppendQueues
  import opened CommitKernel
  import opened KernelFrames

  /**
   The released requests, then the worker's group, then the queue are exactly the admitted
   requests that were not cancelled, in admission order.
   */
  ghost predicate Ordered(fl: Flow, group: seq<Request>) {
    && Distinct(fl.admitted)
    && fl.removed <= Ids(fl.admitted)
    && fl.done + group + fl.q.requests == Live(fl.admitted, fl.removed)
  }

  ghost predicate Conserved(b: QueueBounds, fl: Flow, w: Worker) {
    && Balanced(fl.q, b, Group(w))
    && fl.active == (if Busy(w) then |Group(w)| else 0)
    && fl.publications == (if Busy(w) then 0 else One(EpochOf(w)))
    && (EpochOf(w).Some? ==> Group(w) != [])
  }

  lemma {:induction false} AdmitOrdered(fl: Flow, group: seq<Request>, r: Request)
    requires Ordered(fl, group) && forall i :: 0 <= i < |fl.admitted| ==> fl.admitted[i].id != r.id
    ensures Ordered(fl.(admitted := fl.admitted + [r], q := Pushed(fl.q, r)), group)
  {
    var grown := fl.admitted + [r];
    assert grown[..|fl.admitted|] == fl.admitted;
    assert forall i :: 0 <= i < |fl.admitted| ==> grown[i] == fl.admitted[i];
    assert fl.done + group + (fl.q.requests + [r]) == (fl.done + group + fl.q.requests) + [r];
  }

  /** Withdrawing one live request erases it from the arrangement and nowhere else. */
  lemma {:induction false} LiveWithdraw(admitted: seq<Request>, removed: set<nat>,
                                        left: seq<Request>, r: Request, right: seq<Request>)
    requires Distinct(admitted) && left + [r] + right == Live(admitted, removed)
    ensures left + right == Live(admitted, removed + {r.id})
  {
    LiveDistinct(admitted, removed);
    LiveErase(left, r, right);
    LiveTwice(admitted, removed, r.id);
  }

  lemma {:induction false} CancelOrdered(fl: Flow, group: seq<Request>, at: nat)
    requires Ordered(fl, group) && at < |fl.q.requests|
    ensures Ordered(fl.(q := Erased(fl.q, at), removed := fl.removed + {fl.q.requests[at].id}), group)
  {
    var front, queue := fl.done + group, fl.q.requests;
    var left, r, right := front + queue[..at], queue[at], queue[at + 1..];
    assert left + [r] + right == front + queue;
    LiveWithdraw(fl.admitted, fl.removed, left, r, right);
    LiveMembers(fl.admitted, fl.removed);
    assert (front + queue)[|front| + at] == r && r in front + queue;
    assert left + right == front + (queue[..at] + queue[at + 1..]);
  }

  lemma {:induction false} TakeOrdered(fl: Flow, fl': Flow, group: seq<Request>)
    requires Ordered(fl, []) && Took(fl, fl', group)
    ensures Ordered(fl', group)
  {
    var queue := fl.q.requests;
    assert group == queue[..|group|];
    assert fl.done + [] + queue == fl.done + group + queue[|group|..];
  }

  lemma {:induction false} ReleaseOrdered(fl: Flow, group: seq<Request>)
    requires Ordered(fl, group)
    ensures Ordered(fl.(done := fl.done + group), [])
  {
    assert fl.done + group + [] + fl.q.requests == fl.done + group + fl.q.requests;
  }

  lemma {:induction false} OrderedClient(b: QueueBounds, s: State, step: ClientStep)
    requires Ordered(s.flow, Group(s.worker)) && ClientEnabled(b, s, step)
    ensures var s' := ClientApply(b, s, step); Ordered(s'.flow, Group(s'.worker))
  {
    match step
    case AdmitStep(r) => AdmitOrdered(s.flow, Group(s.worker), r);
    case CancelStep(id, at) => if at.Some? { CancelOrdered(s.flow, Group(s.worker), at.value); }
    case _ =>
  }

  lemma {:induction false} ChoseOrdered(s: State, s': State)
    requires Ordered(s.flow, Group(s.worker)) && Chose(s, s')
    ensures Ordered(s'.flow, Group(s'.worker))
  {
    if s'.worker.Selected? { TakeOrdered(s.flow, s'.flow, s'.worker.group); }
  }

  lemma {:induction false} OrderedSelect(s: State, step: WorkerStep)
    requires Ordered(s.flow, Group(s.worker)) && SelectEnabled(s, step)
    ensures var s' := SelectApply(s, step); Ordered(s'.flow, Group(s'.worker))
  {
    if step.BeginCollectStep? || step.CollectStep? {
      ChoiceFrame(s, step);
      ChoseOrdered(s, SelectApply(s, step));
    }
  }

  lemma {:induction false} OrderedWrite(s: State, step: WriteStep)
    requires Ordered(s.flow, Group(s.worker)) && WriteEnabled(s, step)
    ensures var s' := WriteApply(s, step); Ordered(s'.flow, Group(s'.worker))
  {
    match step
    case CheckStep(readable) => CheckFrame(s, readable);
    case WriteDecidedStep(_) => WriteFrame(s, step);
    case WriteGeneralStep(_, _) => WriteFrame(s, step);
    case BookStep =>
    case PublishStep =>
    case ReleaseStep => ReleaseOrdered(s.flow, Group(s.worker));
  }

  lemma {:induction false} ConservedClient(b: QueueBounds, s: State, step: ClientStep)
    requires Conserved(b, s.flow, s.worker) && ClientEnabled(b, s, step)
    ensures var s' := ClientApply(b, s, step); Conserved(b, s'.flow, s'.worker)
  {
    match step
    case AdmitStep(r) => PushedBalanced(s.flow.q, b, Group(s.worker), r);
    case CancelStep(id, at) => if at.Some? { ErasedBalanced(s.flow.q, b, Group(s.worker), at.value); }
    case _ =>
  }

  lemma {:induction false} TookBalanced(b: QueueBounds, fl: Flow, fl': Flow, group: seq<Request>)
    requires Balanced(fl.q, b, []) && Took(fl, fl', group)
    ensures Balanced(fl'.q, b, group)
  {
    assert group == fl.q.requests[..|group|];
    TakenBalanced(fl.q, b, |group|);
  }

  lemma {:induction false} TookConserved(b: QueueBounds, fl: Flow, fl': Flow, w': Worker)
    requires Balanced(fl.q, b, []) && fl.active == 0 && fl.publications == 0
    requires w'.Selected? && Took(fl, fl', w'.group)
    ensures Conserved(b, fl', w')
  {
    TookBalanced(b, fl, fl', w'.group);
    assert Group(w') == w'.group;
  }

  lemma {:induction false} ChoseConserved(b: QueueBounds, s: State, s': State)
    requires Conserved(b, s.flow, s.worker) && Chose(s, s')
    ensures Conserved(b, s'.flow, s'.worker)
  {
    assert Group(s.worker) == [];
    if s'.worker.Selected? { TookConserved(b, s.flow, s'.flow, s'.worker); }
  }

  lemma {:induction false} ConservedSelect(b: QueueBounds, s: State, step: WorkerStep)
    requires Conserved(b, s.flow, s.worker) && SelectEnabled(s, step)
    ensures var s' := SelectApply(s, step); Conserved(b, s'.flow, s'.worker)
  {
    match step
    case BeginCollectStep(_) =>
      ChoiceFrame(s, step);
      ChoseConserved(b, s, SelectApply(s, step));
    case CollectStep(_, _) =>
      ChoiceFrame(s, step);
      ChoseConserved(b, s, SelectApply(s, step));
    case _ =>
  }

  lemma {:induction false} WroteConserved(b: QueueBounds, s: State, s': State)
    requires Conserved(b, s.flow, s.worker) && Wrote(s, s')
    ensures Conserved(b, s'.flow, s'.worker)
  {
  }

  lemma {:induction false} BookConserved(b: QueueBounds, s: State)
    requires Conserved(b, s.flow, s.worker) && WriteEnabled(s, BookStep)
    ensures Conserved(b, Book(s).flow, Book(s).worker)
  {
  }

  lemma {:induction false} PublishConserved(b: QueueBounds, s: State)
    requires Conserved(b, s.flow, s.worker) && WriteEnabled(s, PublishStep)
    ensures Conserved(b, Publish(s).flow, Publish(s).worker)
  {
  }

  lemma {:induction false} ReleaseConserved(b: QueueBounds, s: State)
    requires Conserved(b, s.flow, s.worker) && WriteEnabled(s, ReleaseStep)
    ensures Conserved(b, ReleaseGroup(s).flow, ReleaseGroup(s).worker)
  {
    ReleasedBalanced(s.flow.q, b, s.worker.group);
  }

  lemma {:induction false} ConservedWrite(b: QueueBounds, s: State, step: WriteStep)
    requires Conserved(b, s.flow, s.worker) && WriteEnabled(s, step)
    ensures var s' := WriteApply(s, step); Conserved(b, s'.flow, s'.worker)
  {
    match step
    case CheckStep(readable) => CheckFrame(s, readable);
    case WriteDecidedStep(_) =>
      WriteFrame(s, step);
      WroteConserved(b, s, WriteApply(s, step));
    case WriteGeneralStep(_, _) =>
      WriteFrame(s, step);
      WroteConserved(b, s, WriteApply(s, step));
    case BookStep => BookConserved(b, s);
    case PublishStep => PublishConserved(b, s);
    case ReleaseStep => ReleaseConserved(b, s);
  }
}
