/**
 The whole-run theorems of the commit pipeline: one inductive invariant, and what it means
 for conservation, for the drain barrier, for commit sequences and for the speculative slot.
 */
module KernelTheorems {
  import opened Common
  import opened Requests
  import opened AppendQueues
  import opened CommitKernel
  import opened KernelFrames
  import opened KernelOrder
  import opened KernelSpeculation
  import opened KernelLog
  import opened KernelHandles

  ghost predicate Inv(b: QueueBounds, s: State) {
    && Ordered(s.flow, Group(s.worker))
    && Conserved(b, s.flow, s.worker)
    && SpecInv(s.spec, s.worker)
    && StateSeqInv(s)
    && HandleInv(s)
  }

  function Tracked(s: State): seq<Request> {
    s.flow.done + Group(s.worker) + s.flow.q.requests
  }

  /** FIFO order keeps the tracked requests apart from each other and from the cancelled ones. */
  lemma OrderedApart(s: State)
    requires Ordered(s.flow, Group(s.worker))
    ensures Apart(s) && DistinctFlow(s)
    ensures forall r :: r in Tracked(s) <==> r in s.flow.admitted && r.id !in s.flow.removed
  {
    LiveDistinct(s.flow.admitted, s.flow.removed);
    LiveMembers(s.flow.admitted, s.flow.removed);
    forall id | id in Ids(Tracked(s)) ensures id !in s.flow.removed {
      var i :| 0 <= i < |Tracked(s)| && Tracked(s)[i].id == id;
      assert Tracked(s)[i] in Tracked(s);
    }
  }

  lemma {:induction false} InitInv(b: QueueBounds, s: State)
    requires Init(s)
    ensures Inv(b, s)
  {
    assert Ordered(s.flow, []);
    assert SpecInv(s.spec, s.worker);
    assert Conserved(b, s.flow, s.worker);
    assert HandleInv(s);
  }

  lemma {:induction false} StepKeepsInv(b: QueueBounds, s: State, step: Step)
    requires Inv(b, s) && Enabled(b, s, step)
    ensures Inv(b, Apply(b, s, step))
  {
    OrderedApart(s);
    match step
    case Client(c) =>
      OrderedClient(b, s, c); ConservedClient(b, s, c); SpecClient(b, s, c); SeqClient(b, s, c); HandleClient(b, s, c);
    case Select(w) =>
      OrderedSelect(s, w); ConservedSelect(b, s, w); SpecSelect(s, w); SeqSelect(s, w); HandleSelect(s, w);
    case Write(x) =>
      OrderedWrite(s, x); ConservedWrite(b, s, x); SpecWrite(s, x); SeqWrite(s, x); HandleWrite(s, x);
    case Other(o) =>
      SpecOther(s, o); SeqOther(s, o); HandleOther(s, o);
  }

  /** Every state of every run satisfies the invariant. */
  lemma {:induction false} RunInv(b: QueueBounds, trace: seq<State>, steps: seq<Step>, i: nat)
    requires Run(b, trace, steps) && i < |trace|
    ensures Inv(b, trace[i])
  {
    if i == 0 {
      InitInv(b, trace[0]);
    } else {
      RunInv(b, trace, steps, i - 1);
      StepKeepsInv(b, trace[i - 1], steps[i - 1]);
    }
  }

  // ---- where a request is -------------------------------------------------------------

  function Truth(p: bool): nat { if p then 1 else 0 }

  /** In how many of the five places (cancelled, queued, selected, publishing, finished) `r` is. */
  function Places(s: State, r: Request): nat {
    Truth(r.id in s.flow.removed) + Truth(r in s.flow.q.requests)
    + Truth(Busy(s.worker) && r in Group(s.worker)) + Truth(!Busy(s.worker) && r in Group(s.worker))
    + Truth(r in s.flow.done)
  }

  /** In every reachable state each admitted request is in exactly one place. */
  lemma AdmittedInOnePlace(b: QueueBounds, trace: seq<State>, steps: seq<Step>, i: nat, r: Request)
    requires Run(b, trace, steps) && i < |trace| && r in trace[i].flow.admitted
    ensures Places(trace[i], r) == 1
  {
    RunInv(b, trace, steps, i);
    OrderedApart(trace[i]);
    InOnePart(trace[i].flow.done, Group(trace[i].worker), trace[i].flow.q.requests, r);
  }

  lemma InOnePart(done: seq<Request>, group: seq<Request>, queue: seq<Request>, r: Request)
    requires Distinct(done + group + queue)
    ensures Truth(r in done) + Truth(r in group) + Truth(r in queue) == Truth(r in done + group + queue)
  {
    DistinctParts(done + group, queue);
    DistinctParts(done, group);
    assert r in done ==> r.id in Ids(done);
    assert r in group ==> r.id in Ids(group);
    assert r in queue ==> r.id in Ids(queue);
  }

  // ---- conservation -------------------------------------------------------------------

  /** Counters mirror the queue and the reservations, none underflows, all stay within bounds. */
  lemma QueueConservation(b: QueueBounds, trace: seq<State>, steps: seq<Step>, i: nat)
    requires Run(b, trace, steps) && i < |trace|
    ensures var q, held := trace[i].flow.q, Group(trace[i].worker);
            && q.count == |q.requests| <= b.maxRequests
            && 0 <= q.queuedBytes == SumBytes(q.requests) <= b.maxBytes
            && 0 <= q.reservedBytes == SumBytes(q.requests) + SumBytes(held) <= b.maxBytes
            && 0 <= trace[i].flow.active && 0 <= trace[i].flow.publications <= 1
  {
    RunInv(b, trace, steps, i);
  }

  // ---- the drain barrier --------------------------------------------------------------

  /**
   Whenever the drained predicate holds, every uncancelled admitted request already has its
   terminal result visible, and that result is what the commit log says.
   */
  lemma DrainedMeansPublished(b: QueueBounds, trace: seq<State>, steps: seq<Step>, i: nat, r: Request)
    requires Run(b, trace, steps) && i < |trace| && Drained(trace[i])
    requires r in trace[i].flow.admitted && r.id !in trace[i].flow.removed
    ensures var s := trace[i];
            && r.id in s.clients.results
            && Terminal(s.clients, r) == Some(ToOutcome(s.clients.results[r.id]))
            && Agrees(s.store, r.id, s.clients.results[r.id])
  {
    RunInv(b, trace, steps, i);
    OrderedApart(trace[i]);
    SettledTerminal(b, trace[i], r);
  }

  /** Once a request left the active group and no publication is pending, its outcome is out. */
  lemma SettledTerminal(b: QueueBounds, s: State, r: Request)
    requires Inv(b, s) && r in s.flow.done + Group(s.worker)
    requires r in s.flow.done || s.worker.Published? || (s.worker.Booked? && (s.worker.epoch.None? || !r.handled))
    ensures r.id in s.clients.results && Agrees(s.store, r.id, s.clients.results[r.id])
    ensures Terminal(s.clients, r) == Some(ToOutcome(s.clients.results[r.id]))
  {
    var settled := Settled(s.flow.done, s.worker);
    if r in s.flow.done {
      var k :| 0 <= k < |s.flow.done| && s.flow.done[k] == r;
      assert settled[k] == r;
      assert r.handled ==> Delivered(s.clients, r.id);
    } else {
      var k :| 0 <= k < |s.worker.group| && s.worker.group[k] == r;
      assert settled[|s.flow.done| + k] == r;
      assert s.worker.Published? && r.handled ==> Delivered(s.clients, r.id);
    }
  }

  // ---- commit sequences ---------------------------------------------------------------

  /** Only admitted requests that were not cancelled ever reach the log. */
  lemma CommittedWereAdmitted(b: QueueBounds, s: State, id: nat)
    requires Inv(b, s) && id in s.store.txns
    ensures id in Ids(s.flow.admitted) && id !in s.flow.removed
  {
    OrderedApart(s);
    var line := s.flow.done + Group(s.worker);
    var k :| 0 <= k < |line| && line[k].id == id;
    assert Tracked(s)[k] == line[k] && line[k] in Tracked(s);
  }

  lemma CommitsInOrder(b: QueueBounds, s: State, x: nat, y: nat)
    requires Inv(b, s) && x < y < |s.flow.admitted|
    requires s.flow.admitted[x].id in s.store.txns && s.flow.admitted[y].id in s.store.txns
    ensures s.store.txns[s.flow.admitted[x].id] < s.store.txns[s.flow.admitted[y].id]
  {
    var admitted, line, queue := s.flow.admitted, s.flow.done + Group(s.worker), s.flow.q.requests;
    CommittedWereAdmitted(b, s, admitted[x].id);
    CommittedWereAdmitted(b, s, admitted[y].id);
    OrderedApart(s);
    DistinctParts(line, queue);
    UnloggedIds(s.store, queue);
    IncreasingUnlogged(s.store, line, queue);
    var p, q := LiveKeepsOrder(admitted, s.flow.removed, x, y);
    assert Tracked(s)[p] == admitted[x] && Tracked(s)[q] == admitted[y];
  }

  /**
   The log is gap-free and every sequence has one owner; of two committed requests the
   earlier admitted has the smaller sequence, whichever path wrote it.
   */
  lemma {:induction false} SequencesFollowAdmission(b: QueueBounds, trace: seq<State>, steps: seq<Step>, i: nat)
    requires Run(b, trace, steps) && i < |trace|
    ensures var st, admitted := trace[i].store, trace[i].flow.admitted;
            && (forall n :: n in st.owner <==> st.first < n <= st.visible)
            && (forall x, y :: 0 <= x < y < |admitted| && admitted[x].id in st.txns && admitted[y].id in st.txns ==>
                  st.txns[admitted[x].id] < st.txns[admitted[y].id])
            && (forall id :: id in st.txns ==> st.txns[id] in st.owner && st.owner[st.txns[id]] == Pipeline(id))
            && (forall id :: id in st.txns ==> id in Ids(admitted) && id !in trace[i].flow.removed)
  {
    RunInv(b, trace, steps, i);
    var s := trace[i];
    forall id | id in s.store.txns ensures id in Ids(s.flow.admitted) && id !in s.flow.removed {
      CommittedWereAdmitted(b, s, id);
    }
    var admitted := s.flow.admitted;
    forall x, y | 0 <= x < y < |admitted| && admitted[x].id in s.store.txns && admitted[y].id in s.store.txns
      ensures s.store.txns[admitted[x].id] < s.store.txns[admitted[y].id]
    {
      CommitsInOrder(b, s, x, y);
    }
  }

  /** Plans and slots hold only requests that may share one write. */
  ghost predicate PlansShare(sp: Speculation) {
    && (sp.preflight.Planned? ==> PairwiseShare(sp.preflight.plan))
    && (sp.slot.Some? ==> PairwiseShare(sp.slot.value.epoch.requests))
  }

  /** A step that plans nothing new: the plan is kept or put aside, the slot kept or dropped. */
  predicate PlansNothing(sp: Speculation, sp': Speculation) {
    && (sp'.preflight == sp.preflight || sp'.preflight == Resting) && (sp'.slot == sp.slot || sp'.slot == None)
  }

  lemma {:induction false} OnlyPreflightPlans(b: QueueBounds, s: State, step: Step)
    requires Enabled(b, s, step) && !(step.Other? && (step.o.SnapshotStep? || step.o.InstallStep?))
    ensures PlansNothing(s.spec, Apply(b, s, step).spec)
  {
    match step
    case Client(c) => match c { case AdmitStep(_) => case CancelStep(_, _) => case _ => }
    case Select(w) => match w { case BeginCollectStep(_) => case CollectStep(_, _) => case BindStep => case _ => }
    case Write(x) => match x { case WriteDecidedStep(_) => case WriteGeneralStep(_, _) => case BookStep => case _ => }
    case Other(_) =>
  }

  lemma {:induction false} PlansAlwaysShare(b: QueueBounds, trace: seq<State>, steps: seq<Step>, i: nat)
    requires Run(b, trace, steps) && i < |trace|
    ensures PlansShare(trace[i].spec)
  {
    if i > 0 {
      PlansAlwaysShare(b, trace, steps, i - 1);
      var s, step := trace[i - 1], steps[i - 1];
      assert Enabled(b, s, step) && trace[i] == Apply(b, s, step);
      if step.Other? && (step.o.SnapshotStep? || step.o.InstallStep?) {
        assert PlansShare(OtherApply(s, step.o).spec);
      } else {
        OnlyPreflightPlans(b, s, step);
      }
    }
  }

  /** Whichever way a group is chosen, it is a conflict-free prefix of the queue. */
  lemma GroupsArePrefixes(b: QueueBounds, trace: seq<State>, steps: seq<Step>, i: nat)
    requires Run(b, trace, steps) && i < |steps| && Group(trace[i].worker) == [] && Group(trace[i + 1].worker) != []
    ensures var queue, group := trace[i].flow.q.requests, Group(trace[i + 1].worker);
            group <= queue && trace[i + 1].flow.q.requests == queue[|group|..] && PairwiseShare(group)
  {
    PlansAlwaysShare(b, trace, steps, i);
    var s, step := trace[i], steps[i];
    assert Enabled(b, s, step) && trace[i + 1] == Apply(b, s, step);
    if step.Select? {
      ChosenIsPrefix(s, step.w);
    } else {
      match step case Client(_) => case Write(_) => case Other(_) =>
      assert false;
    }
  }

  lemma {:induction false} ChosenIsPrefix(s: State, w: WorkerStep)
    requires SelectEnabled(s, w) && PlansShare(s.spec) && Group(s.worker) == []
    ensures var group, queue := Group(SelectApply(s, w).worker), s.flow.q.requests;
            group <= queue && SelectApply(s, w).flow.q.requests == queue[|group|..] && PairwiseShare(group)
  {
    match w
    case BeginCollectStep(_) =>
    case CollectStep(_, _) =>
    case _ =>
  }

  /** Filtering keeps the relative order of the elements it keeps. */
  lemma {:induction false} LiveKeepsOrder(rs: seq<Request>, gone: set<nat>, x: nat, y: nat) returns (p: nat, q: nat)
    requires x < y < |rs| && rs[x].id !in gone && rs[y].id !in gone
    ensures p < q < |Live(rs, gone)| && Live(rs, gone)[p] == rs[x] && Live(rs, gone)[q] == rs[y]
  {
    var n := |rs| - 1;
    if y < n {
      p, q := LiveKeepsOrder(rs[..n], gone, x, y);
    } else {
      LiveMembers(rs[..n], gone);
      assert rs[..n][x] == rs[x] && rs[x] in rs[..n];
      p :| 0 <= p < |Live(rs[..n], gone)| && Live(rs[..n], gone)[p] == rs[x];
      q := |Live(rs[..n], gone)|;
    }
  }

  // ---- the speculative slot -----------------------------------------------------------

  /**
   A pending slot belongs to the epoch in flight or just finished and never meets a
   collection; every eligible slot was promoted, discarded or is pending, where a promoted
   group that proved stale is also counted as discarded; the reasons sum to the discards.
   */
  lemma SlotAccounting(b: QueueBounds, trace: seq<State>, steps: seq<Step>, i: nat)
    requires Run(b, trace, steps) && i < |trace|
    ensures var sp, m := trace[i].spec, trace[i].spec.m;
            && (sp.slot.Some? ==> sp.slot.value.generation == sp.generation)
            && (trace[i].worker.Collecting? || trace[i].worker.Selected? || trace[i].worker.Exited? ==> sp.slot.None?)
            && m.staleEpochs <= m.promotedEpochs && m.staleEpochs <= m.discardedEpochs
            && m.eligibleEpochs == m.promotedEpochs + (m.discardedEpochs - m.staleEpochs) + PendingSlots(sp)
            && m.eligible == m.promoted + (m.discards - m.staleRequests) + PendingRequests(sp)
            && AllReasons(m) && Total(m) == m.discards
  {
    RunInv(b, trace, steps, i);
  }
}
