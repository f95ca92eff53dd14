/**
 When a predicted write agrees with the general path. A prediction whose dependencies were all
 captured at the base of the epoch it was planned behind is written without validation. What
 may have happened since then is the epoch in flight, whose facts the plan avoids, and commits
 from outside the pipeline, which it does not.
 */
module KernelPrediction {
  import opened Common
  import opened Requests
  import opened AppendQueues
  import opened CommitKernel
  import opened KernelFrames
  import opened KernelOrder
  import opened KernelSpeculation
  import opened KernelLog
  import opened KernelTheorems

  // ---- what the log says about a plan -----------------------------------------------------

  ghost predicate FactsSound(st: Store) {
    (forall n :: n in st.written ==> n <= st.visible) && (forall n :: n in st.owner ==> n in st.written)
  }

  /** None of the facts is one the plan writes. */
  ghost predicate ApartFrom(facts: set<Boundary>, plan: seq<Request>) {
    forall f, i :: f in facts && 0 <= i < |plan| ==> f.0 !in plan[i].footprint.writes
  }

  ghost predicate GroupApart(group: seq<Request>, plan: seq<Request>) {
    forall i :: 0 <= i < |group| ==> ApartFrom(FactsOf(group[i]), plan)
  }

  predicate ByPipeline(owner: map<nat, Owner>, n: nat) {
    n in owner && owner[n].Pipeline?
  }

  ghost predicate WrittenBy(written: map<nat, set<Boundary>>, n: nat, group: seq<Request>) {
    n in written && exists i :: 0 <= i < |group| && written[n] == FactsOf(group[i])
  }

  /** What the pipeline committed above `after` came from this group. */
  ghost predicate FromGroup(st: Store, after: nat, group: seq<Request>) {
    forall n :: n > after && ByPipeline(st.owner, n) ==> WrittenBy(st.written, n, group)
  }

  ghost predicate Avoids(written: map<nat, set<Boundary>>, n: nat, plan: seq<Request>) {
    n in written && ApartFrom(written[n], plan)
  }

  /** What the pipeline committed above `after` avoids the plan. */
  ghost predicate Clear(st: Store, after: nat, plan: seq<Request>) {
    forall n :: n > after && ByPipeline(st.owner, n) ==> Avoids(st.written, n, plan)
  }

  ghost predicate LoggedAfter(st: Store, after: nat, group: seq<Request>) {
    forall i :: 0 <= i < |group| && group[i].id in st.txns ==> st.txns[group[i].id] > after
  }

  ghost predicate AllBuilt(rs: seq<Request>) { forall i :: 0 <= i < |rs| ==> Built(rs[i]) }

  ghost predicate AllWellFormed(rs: seq<Request>) { forall i :: 0 <= i < |rs| ==> WellFormed(rs[i]) }

  ghost predicate AllAtBase(rs: seq<Request>, base: nat) { forall i :: 0 <= i < |rs| ==> AtBase(rs[i], base) }

  /** A prediction stands: its predecessor avoided it, in order and above `after`. */
  ghost predicate Standing(st: Store, d: Decided) {
    && st.first <= d.after && d.base == d.after + |d.behind|
    && Clear(st, d.after, d.requests) && Increasing(st, d.behind) && LoggedAfter(st, d.after, d.behind)
    && AllBuilt(d.requests) && AllWellFormed(d.requests)
  }

  // ---- the invariant ------------------------------------------------------------------------

  ghost predicate InFlightSound(st: Store, sp: Speculation, group: seq<Request>) {
    sp.overlay ==>
      && st.first <= sp.epochBase <= st.visible
      && FromGroup(st, sp.epochBase, group) && LoggedAfter(st, sp.epochBase, group)
      && (sp.hint != 0 ==> sp.hint == |group| && forall i :: 0 <= i < |group| ==> group[i].predictable)
  }

  ghost predicate PlanSound(sp: Speculation, group: seq<Request>) {
    sp.preflight.Planned? && sp.overlay && sp.preflight.generation == sp.generation ==>
      && sp.preflight.behind == group && AllBuilt(sp.preflight.plan) && GroupApart(group, sp.preflight.plan)
      && (sp.preflight.decided ==> AllWellFormed(sp.preflight.plan))
  }

  ghost predicate SlotPredicted(st: Store, sp: Speculation, group: seq<Request>) {
    sp.slot.Some? ==>
      var d := sp.slot.value.epoch;
      && Standing(st, d) && d.after == sp.slot.value.predecessorBase
      && (!sp.slot.value.needsCheck ==> AllAtBase(d.requests, d.after))
      && (sp.overlay ==> d.behind == group && GroupApart(group, d.requests))
  }

  /** An unchecked prediction saw its base; a checked one holds as long as the base is still live. */
  ghost predicate WorkerPredicted(st: Store, w: Worker) {
    && ((w.Selected? || w.InFlight?) && w.pre.Some? ==>
          Standing(st, w.pre.value) && (!w.needsCheck ==> AllAtBase(w.pre.value.requests, w.pre.value.after)))
    && (w.Ready? && w.usePre && w.pre.Some? ==>
          && Standing(st, w.pre.value)
          && if w.checked then
               st.visible >= w.pre.value.base && (st.visible == w.pre.value.base ==> AllHolding(st, w.group))
             else AllAtBase(w.pre.value.requests, w.pre.value.after))
  }

  ghost predicate AllHolding(st: Store, rs: seq<Request>) { forall i :: 0 <= i < |rs| ==> AllHold(st, rs[i]) }

  ghost predicate Foreseen(s: State) {
    && FactsSound(s.store) && AllBuilt(s.flow.admitted)
    && InFlightSound(s.store, s.spec, Group(s.worker)) && PlanSound(s.spec, Group(s.worker))
    && SlotPredicted(s.store, s.spec, Group(s.worker)) && WorkerPredicted(s.store, s.worker)
  }

  // ---- a landing group ------------------------------------------------------------------------

  /** Everything up to the old base is as it was. */
  ghost predicate OlderKept(st: Store, st': Store) {
    && st'.first == st.first && st'.visible >= st.visible
    && (forall n :: n <= st.visible ==> (n in st'.owner <==> n in st.owner) && (n in st'.written <==> n in st.written))
    && (forall n :: n <= st.visible && n in st.owner ==> st'.owner[n] == st.owner[n])
    && (forall n :: n <= st.visible && n in st.written ==> st'.written[n] == st.written[n])
  }

  /** Every sequence above the old base is the group's. */
  ghost predicate NewerFrom(st: Store, st': Store, group: seq<Request>) {
    && (forall n :: n in st'.owner && n > st.visible ==> n <= st'.visible && WrittenBy(st'.written, n, group))
    && (forall n :: n in st'.written && n > st.visible ==> n in st'.owner)
  }

  ghost predicate Adds(st: Store, st': Store, group: seq<Request>) {
    OlderKept(st, st') && NewerFrom(st, st', group)
  }

  lemma WrittenPush(st: Store, mid: Store, n: nat, group: seq<Request>, r: Request)
    requires WrittenBy(mid.written, n, group) && n in st.written && st.written[n] == mid.written[n]
    ensures WrittenBy(st.written, n, group + [r])
  {
    var i :| 0 <= i < |group| && mid.written[n] == FactsOf(group[i]);
    assert (group + [r])[i] == group[i];
  }

  lemma AddsPush(st: Store, mid: Store, group: seq<Request>, r: Request, ok: bool)
    requires Adds(st, mid, group)
    ensures Adds(st, if ok then Append(mid, r) else mid, group + [r])
  {
    var st', longer := if ok then Append(mid, r) else mid, group + [r];
    forall n | n in st'.owner && n > st.visible ensures n <= st'.visible && WrittenBy(st'.written, n, longer) {
      if ok && n == mid.visible + 1 {
        assert longer[|group|] == r;
      } else {
        WrittenPush(st', mid, n, group, r);
      }
    }
  }

  lemma {:induction false} LandAdds(st: Store, group: seq<Request>, oks: seq<bool>)
    requires |oks| == |group| && FactsSound(st) && forall n :: n in st.owner ==> n <= st.visible
    ensures Adds(st, Land(st, group, oks, st.visible), group)
    decreases |group|
  {
    if group != [] {
      var n := |group| - 1;
      LandAdds(st, group[..n], oks[..n]);
      LandIsAppend(st, group, oks);
      AddsPush(st, Land(st, group[..n], oks[..n], st.visible), group[..n], group[n], oks[n]);
      assert group == group[..n] + [group[n]];
    }
  }

  lemma AddsFromGroup(st: Store, st': Store, after: nat, group: seq<Request>)
    requires Adds(st, st', group) && FromGroup(st, after, group)
    ensures FromGroup(st', after, group)
  {
    forall n | n > after && ByPipeline(st'.owner, n) ensures WrittenBy(st'.written, n, group) {
      if n <= st.visible {
        assert ByPipeline(st.owner, n);
        var i :| 0 <= i < |group| && st.written[n] == FactsOf(group[i]);
      }
    }
  }

  lemma FromGroupClear(st: Store, after: nat, group: seq<Request>, plan: seq<Request>)
    requires FromGroup(st, after, group) && GroupApart(group, plan)
    ensures Clear(st, after, plan)
  {
  }

  /** Two requests that may share a write touch different facts, if neither carries edge identities. */
  lemma SharedApart(g: Request, plan: seq<Request>)
    requires Built(g) && g.predictable && forall i :: 0 <= i < |plan| ==> CanShare(g.footprint, plan[i].footprint)
    ensures ApartFrom(FactsOf(g), plan)
  {
    assert FactsOf(g) == g.batch.mutations;
    forall f, i | f in FactsOf(g) && 0 <= i < |plan| ensures f.0 !in plan[i].footprint.writes {
      assert f.0 in g.footprint.writes;
    }
  }

  // ---- commits from elsewhere -----------------------------------------------------------------

  lemma ElsewhereStanding(st: Store, facts: set<Boundary>, d: Decided)
    requires LogSound(st) && Standing(st, d)
    ensures Standing(CommitElsewhere(st, facts), d)
  {
    var st' := CommitElsewhere(st, facts);
    forall n | n > d.after && ByPipeline(st'.owner, n) ensures Avoids(st'.written, n, d.requests) {
      assert ByPipeline(st.owner, n) && n != st.visible + 1;
    }
  }

  lemma ElsewhereInFlight(st: Store, facts: set<Boundary>, sp: Speculation, group: seq<Request>)
    requires LogSound(st) && InFlightSound(st, sp, group)
    ensures InFlightSound(CommitElsewhere(st, facts), sp, group)
  {
    var st' := CommitElsewhere(st, facts);
    if sp.overlay {
      forall n | n > sp.epochBase && ByPipeline(st'.owner, n) ensures WrittenBy(st'.written, n, group) {
        assert ByPipeline(st.owner, n) && n != st.visible + 1;
        var i :| 0 <= i < |group| && st.written[n] == FactsOf(group[i]);
      }
    }
  }

  lemma ElsewhereForeseen(s: State, facts: set<Boundary>)
    requires Foreseen(s) && LogSound(s.store)
    ensures Foreseen(s.(store := CommitElsewhere(s.store, facts)))
  {
    var st' := CommitElsewhere(s.store, facts);
    ElsewhereInFlight(s.store, facts, s.spec, Group(s.worker));
    if s.spec.slot.Some? { ElsewhereStanding(s.store, facts, s.spec.slot.value.epoch); }
    if Busy(s.worker) && s.worker.pre.Some? && !s.worker.Written? {
      if s.worker.Ready? && !s.worker.usePre {
      } else {
        ElsewhereStanding(s.store, facts, s.worker.pre.value);
      }
    }
    assert FactsSound(st');
  }

  // ---- writes ---------------------------------------------------------------------------------

  /** The predecessor lands: its facts avoid the pending plan, and its sequences follow the base. */
  lemma LandStanding(st: Store, st': Store, d: Decided, group: seq<Request>)
    requires Standing(st, d) && Adds(st, st', group) && d.behind == group && GroupApart(group, d.requests)
    requires Increasing(st', group) && LoggedAfter(st', d.after, group)
    ensures Standing(st', d)
  {
    forall n | n > d.after && ByPipeline(st'.owner, n) ensures Avoids(st'.written, n, d.requests) {
      if n <= st.visible {
        assert ByPipeline(st.owner, n);
      } else {
        var i :| 0 <= i < |group| && st'.written[n] == FactsOf(group[i]);
      }
    }
  }

  lemma LandLogged(st: Store, st': Store, after: nat, group: seq<Request>)
    requires Unlogged(st, group) && Extends(st, st', group) && after <= st.visible
    ensures LoggedAfter(st', after, group) && Increasing(st', group)
  {
  }

  lemma {:induction false} LandForeseen(s: State, s': State, oks: seq<bool>)
    requires Foreseen(s) && SlotSound(s.spec, s.worker) && StateSeqInv(s) && Distinct(Group(s.worker))
    requires Wrote(s, s') && |oks| == |s.worker.group| && s'.worker.Written?
    requires s'.store == Land(s.store, s.worker.group, oks, s.store.visible)
    ensures Foreseen(s')
  {
    var st, st', group := s.store, s'.store, s.worker.group;
    LandAdds(st, group, oks);
    Landed(st, group, oks);
    LandInFlight(st, st', s.spec, group);
    LandSlot(st, st', s.spec, group);
    AddsSound(st, st', group);
  }

  lemma AddsSound(st: Store, st': Store, group: seq<Request>)
    requires FactsSound(st) && Adds(st, st', group)
    ensures FactsSound(st')
  {
  }

  lemma LandInFlight(st: Store, st': Store, sp: Speculation, group: seq<Request>)
    requires InFlightSound(st, sp, group) && Adds(st, st', group) && Unlogged(st, group) && Extends(st, st', group)
    ensures InFlightSound(st', sp, group)
  {
    if sp.overlay {
      LandLogged(st, st', sp.epochBase, group);
      AddsFromGroup(st, st', sp.epochBase, group);
    }
  }

  lemma LandSlot(st: Store, st': Store, sp: Speculation, group: seq<Request>)
    requires SlotPredicted(st, sp, group) && Adds(st, st', group) && Unlogged(st, group) && Extends(st, st', group)
    requires sp.overlay && (sp.slot.Some? ==> sp.slot.value.epoch.after <= st.visible)
    ensures SlotPredicted(st', sp, group)
  {
    if sp.slot.Some? {
      LandLogged(st, st', sp.slot.value.epoch.after, group);
      LandStanding(st, st', sp.slot.value.epoch, group);
    }
  }

  lemma {:induction false} FailForeseen(s: State, s': State)
    requires Foreseen(s) && Wrote(s, s') && s'.store == s.store.(recovery := s'.store.recovery)
    requires s'.worker.Written? || !s'.worker.usePre
    ensures Foreseen(s')
  {
  }

  lemma {:induction false} WriteForeseen(s: State, step: WriteStep)
    requires Foreseen(s) && SlotSound(s.spec, s.worker) && StateSeqInv(s) && Distinct(Group(s.worker))
    requires WriteEnabled(s, step) && (step.WriteDecidedStep? || step.WriteGeneralStep?)
    ensures Foreseen(WriteApply(s, step))
  {
    var s' := WriteApply(s, step);
    WriteFrame(s, step);
    if s'.worker.Written? && s'.worker.result.GroupOk? {
      LandForeseen(s, s', OksOf(s, step));
    } else {
      FailForeseen(s, s');
    }
  }

  // ---- the worker ---------------------------------------------------------------------------------

  /** The checked bit says that validation passed on the live base. */
  lemma {:induction false} CheckForeseen(s: State, readable: bool)
    requires Foreseen(s) && WorkerSound(s.worker) && WriteEnabled(s, CheckStep(readable))
    ensures Foreseen(CheckPrediction(s, readable))
  {
  }

  /** Nothing about the predicted part changes but the slot may go. */
  predicate SpecKept(sp: Speculation, sp': Speculation) {
    && sp'.overlay == sp.overlay && sp'.generation == sp.generation && sp'.epochBase == sp.epochBase
    && sp'.hint == sp.hint && sp'.preflight == sp.preflight && (sp'.slot == sp.slot || sp'.slot == None)
  }

  lemma KeptForeseen(s: State, s': State)
    requires Foreseen(s) && s'.store == s.store && SpecKept(s.spec, s'.spec) && AllBuilt(s'.flow.admitted)
    requires Group(s'.worker) == Group(s.worker) && WorkerPredicted(s'.store, s'.worker)
    ensures Foreseen(s')
  {
  }

  lemma {:induction false} ClientForeseen(b: QueueBounds, s: State, c: ClientStep)
    requires Foreseen(s) && ClientEnabled(b, s, c)
    ensures Foreseen(ClientApply(b, s, c))
  {
    var s' := ClientApply(b, s, c);
    match c
    case AdmitStep(_) => KeptForeseen(s, s');
    case CancelStep(_, _) => KeptForeseen(s, s');
    case _ => KeptForeseen(s, s');
  }

  /** Promotion hands the slot to the worker; no epoch is in flight then. */
  lemma {:induction false} BeginForeseen(s: State, generalMax: nat)
    requires Foreseen(s) && SlotSound(s.spec, s.worker) && s.worker.Waiting?
    ensures Foreseen(BeginCollect(s, generalMax))
  {
  }

  /** A new epoch in flight starts on the visible base with nothing of its group logged. */
  lemma {:induction false} OverlayForeseen(s: State)
    requires Foreseen(s) && SlotSound(s.spec, s.worker) && StateSeqInv(s) && s.worker.Selected?
    ensures Foreseen(InstallOverlay(s))
  {
  }

  lemma {:induction false} SelectForeseen(s: State, step: WorkerStep)
    requires Foreseen(s) && SlotSound(s.spec, s.worker) && StateSeqInv(s) && SelectEnabled(s, step)
    ensures Foreseen(SelectApply(s, step))
  {
    match step
    case BeginCollectStep(generalMax) => BeginForeseen(s, generalMax);
    case CollectStep(_, _) =>
    case ExitStep =>
    case OverlayStep => OverlayForeseen(s);
    case BindStep => KeptForeseen(s, SelectApply(s, step));
  }

  lemma {:induction false} BookForeseen(s: State)
    requires Foreseen(s) && WriteEnabled(s, BookStep)
    ensures Foreseen(Book(s))
  {
  }

  // ---- the preflight worker -----------------------------------------------------------------------

  lemma PlanApart(group: seq<Request>, queue: seq<Request>, n: nat, limits: GroupLimits)
    requires PlanAdmissible(queue, n, limits, group) && AllBuilt(group)
    requires forall i :: 0 <= i < |group| ==> group[i].predictable
    ensures GroupApart(group, queue[..n])
  {
    forall i | 0 <= i < |group| ensures ApartFrom(FactsOf(group[i]), queue[..n]) {
      SharedApart(group[i], queue[..n]);
    }
  }

  lemma PartsBuilt(s: State)
    requires Ordered(s.flow, Group(s.worker)) && AllBuilt(s.flow.admitted)
    ensures AllBuilt(Group(s.worker)) && AllBuilt(s.flow.q.requests)
  {
    OrderedApart(s);
    var group, queue := Group(s.worker), s.flow.q.requests;
    forall i | 0 <= i < |group| ensures Built(group[i]) { assert group[i] in KernelTheorems.Tracked(s); }
    forall i | 0 <= i < |queue| ensures Built(queue[i]) { assert queue[i] in KernelTheorems.Tracked(s); }
  }

  lemma {:induction false} SnapshotForeseen(s: State, n: nat, limits: GroupLimits, decided: bool)
    requires Foreseen(s) && Ordered(s.flow, Group(s.worker)) && CanSnapshot(s, n, limits, decided)
    ensures Foreseen(OtherApply(s, SnapshotStep(n, limits, decided)))
  {
    PartsBuilt(s);
    if s.spec.hint != 0 { PlanApart(Group(s.worker), s.flow.q.requests, n, limits); }
  }

  lemma IncreasingTail(st: Store, done: seq<Request>, group: seq<Request>)
    requires Increasing(st, done + group)
    ensures Increasing(st, group)
  {
    var line := done + group;
    assert forall i :: 0 <= i < |group| ==> line[|done| + i] == group[i];
    forall i, j | 0 <= i < j < |group| && group[i].id in st.txns && group[j].id in st.txns
      ensures st.txns[group[i].id] < st.txns[group[j].id]
    {
      assert line[|done| + i] == group[i] && line[|done| + j] == group[j];
    }
  }

  /** A plan installed under its own overlay stands. */
  lemma InstallStanding(st: Store, sp: Speculation, w: Worker, done: seq<Request>)
    requires InFlightSound(st, sp, Group(w)) && PlanSound(sp, Group(w)) && SlotSound(sp, w)
    requires Increasing(st, done + Group(w)) && sp.preflight.Planned? && sp.preflight.decided
    requires sp.overlay && sp.preflight.generation == sp.generation && sp.preflight.count != 0
    ensures var p := sp.preflight; Standing(st, Decided(p.base + p.count, p.plan, p.base, p.behind))
  {
    IncreasingTail(st, done, Group(w));
    FromGroupClear(st, sp.epochBase, Group(w), sp.preflight.plan);
  }

  lemma {:induction false} InstallForeseen(s: State)
    requires Foreseen(s) && SlotSound(s.spec, s.worker) && StateSeqInv(s) && s.spec.preflight.Planned?
    ensures Foreseen(OtherApply(s, InstallStep))
  {
    var sp := s.spec;
    if sp.overlay && sp.preflight.generation == sp.generation && sp.preflight.count != 0 && sp.preflight.decided {
      InstallStanding(s.store, sp, s.worker, s.flow.done);
    }
  }

  lemma {:induction false} OtherForeseen(s: State, o: OtherStep)
    requires Foreseen(s) && Ordered(s.flow, Group(s.worker)) && SlotSound(s.spec, s.worker) && StateSeqInv(s)
    requires OtherEnabled(s, o)
    ensures Foreseen(OtherApply(s, o))
  {
    match o
    case SnapshotStep(n, limits, decided) => SnapshotForeseen(s, n, limits, decided);
    case InstallStep => InstallForeseen(s);
    case ElsewhereStep(facts) => ElsewhereForeseen(s, facts);
    case StopStep => KeptForeseen(s, OtherApply(s, o));
    case QuiesceStep => KeptForeseen(s, OtherApply(s, o));
    case SweepStep(_) => KeptForeseen(s, OtherApply(s, o));
  }

  lemma {:induction false} AnyWriteForeseen(s: State, step: WriteStep)
    requires Foreseen(s) && SpecInv(s.spec, s.worker) && StateSeqInv(s) && Distinct(Group(s.worker))
    requires WriteEnabled(s, step)
    ensures Foreseen(WriteApply(s, step))
  {
    match step
    case CheckStep(readable) => CheckForeseen(s, readable);
    case WriteDecidedStep(_) => WriteForeseen(s, step);
    case WriteGeneralStep(_, _) => WriteForeseen(s, step);
    case BookStep => BookForeseen(s);
    case PublishStep => KeptForeseen(s, WriteApply(s, step));
    case ReleaseStep =>
  }

  lemma {:induction false} StepForeseen(b: QueueBounds, s: State, step: Step)
    requires Inv(b, s) && Foreseen(s) && Enabled(b, s, step)
    ensures Foreseen(Apply(b, s, step))
  {
    match step
    case Client(c) => ClientForeseen(b, s, c);
    case Select(w) => SelectForeseen(s, w);
    case Write(x) =>
      OrderedApart(s);
      DistinctParts(s.flow.done + Group(s.worker), s.flow.q.requests);
      DistinctParts(s.flow.done, Group(s.worker));
      AnyWriteForeseen(s, x);
    case Other(o) => OtherForeseen(s, o);
  }

  lemma {:induction false} RunForeseen(b: QueueBounds, trace: seq<State>, steps: seq<Step>, i: nat)
    requires Run(b, trace, steps) && i < |trace|
    ensures Foreseen(trace[i])
  {
    if i > 0 {
      RunForeseen(b, trace, steps, i - 1);
      NextForeseen(b, trace, steps, i - 1);
    }
  }

  lemma NextForeseen(b: QueueBounds, trace: seq<State>, steps: seq<Step>, j: nat)
    requires Run(b, trace, steps) && j < |steps| && Foreseen(trace[j])
    ensures Foreseen(trace[j + 1])
  {
    RunInv(b, trace, steps, j);
    assert Enabled(b, trace[j], steps[j]) && trace[j + 1] == Apply(b, trace[j], steps[j]);
    StepForeseen(b, trace[j], steps[j]);
  }

  // ---- the two paths compared ---------------------------------------------------------------------

  /**
   What the general path would do with the same group. Nothing but the dependencies is left to
   validate for a decided group: its batches are fresh blind appends that were well formed and
   within the size limit when they were decided.
   */
  ghost function OnGeneralPath(s: State, fate: Fate): State
    requires s.worker.Ready?
  {
    var w := s.worker;
    WriteGeneral(s.(worker := w.(usePre := false)), Verdicts(s.store, w.group, AllTrue(|w.group|)), fate)
  }

  ghost predicate OverlapsRequest(st: Store, n: nat, r: Request) {
    exists d :: d in r.batch.dependencies && OverlappedBy(st, d, n)
  }

  /** A commit from outside the pipeline between the base of the plan and the base it was predicted for. */
  predicate FromElsewhere(st: Store, d: Decided, n: nat) {
    d.after < n <= d.base && n in st.owner && st.owner[n] == Elsewhere
  }

  /**
   A commit from outside the pipeline took one of the sequences between the base the plan was
   made on and the base it was predicted for, and wrote a version that overlaps the plan.
   */
  ghost predicate Overtaken(st: Store, d: Decided) {
    exists n, i :: FromElsewhere(st, d, n) && 0 <= i < |d.requests| && OverlapsRequest(st, n, d.requests[i])
  }

  /** The pipeline itself never wrote a fact the plan depends on. */
  lemma PipelineDoesNotOverlap(st: Store, d: Decided, i: nat, dep: Dependency, n: nat)
    requires Standing(st, d) && i < |d.requests| && dep in d.requests[i].batch.dependencies
    requires n > d.after && ByPipeline(st.owner, n)
    ensures !OverlappedBy(st, dep, n)
  {
    assert dep.ref in d.requests[i].footprint.writes by {
      assert (dep.ref, dep.validFrom) in d.requests[i].batch.mutations;
    }
    assert ApartFrom(st.written[n], d.requests);
  }

  /** A dependency captured at the old base holds unless a commit from elsewhere overlaps it. */
  lemma UncheckedHolds(st: Store, d: Decided, i: nat, dep: Dependency)
    requires Standing(st, d) && FactsSound(st) && LogSound(st) && st.visible == d.base
    requires i < |d.requests| && dep in d.requests[i].batch.dependencies && dep.snapshot == d.after
    ensures Holds(st, dep) <==>
              forall n :: FromElsewhere(st, d, n) ==> !OverlappedBy(st, dep, n)
  {
    forall n | n > d.after && OverlappedBy(st, dep, n) ensures FromElsewhere(st, d, n) {
      if ByPipeline(st.owner, n) { PipelineDoesNotOverlap(st, d, i, dep, n); }
    }
  }

  lemma UncheckedRequest(st: Store, d: Decided, i: nat)
    requires Standing(st, d) && FactsSound(st) && LogSound(st) && st.visible == d.base
    requires i < |d.requests| && AtBase(d.requests[i], d.after)
    ensures AllHold(st, d.requests[i]) <==>
              forall n :: FromElsewhere(st, d, n) ==> !OverlapsRequest(st, n, d.requests[i])
  {
    var r := d.requests[i];
    forall dep | dep in r.batch.dependencies
      ensures Holds(st, dep) <==>
                forall n :: FromElsewhere(st, d, n) ==> !OverlappedBy(st, dep, n)
    {
      UncheckedHolds(st, d, i, dep);
    }
    if AllHold(st, r) {
      forall n | FromElsewhere(st, d, n) ensures !OverlapsRequest(st, n, r) { }
    }
  }

  lemma UncheckedGroup(st: Store, d: Decided)
    requires Standing(st, d) && FactsSound(st) && LogSound(st) && st.visible == d.base && AllAtBase(d.requests, d.after)
    ensures AllHolding(st, d.requests) <==> !Overtaken(st, d)
  {
    forall i | 0 <= i < |d.requests|
      ensures AllHold(st, d.requests[i]) <==>
                forall n :: FromElsewhere(st, d, n) ==> !OverlapsRequest(st, n, d.requests[i])
    {
      UncheckedRequest(st, d, i);
    }
  }

  lemma {:induction false} AssignTells(oks: seq<bool>, base: nat, i: nat)
    requires i < |oks|
    ensures Assign(oks, base)[i].Stored? <==> oks[i]
  {
    var n := |oks| - 1;
    if i < n { AssignTells(oks[..n], base, i); }
  }

  /** The general path commits the whole group exactly when every dependency holds. */
  lemma VerdictsAllTrue(st: Store, group: seq<Request>)
    requires AllWellFormed(group)
    ensures var oks := Verdicts(st, group, AllTrue(|group|));
            if AllHolding(st, group) then oks == AllTrue(|group|)
            else Assign(oks, st.visible) != Assign(AllTrue(|group|), st.visible)
  {
    var oks := Verdicts(st, group, AllTrue(|group|));
    if !AllHolding(st, group) {
      var i :| 0 <= i < |group| && !AllHold(st, group[i]);
      AssignTells(oks, st.visible, i);
      AssignTells(AllTrue(|group|), st.visible, i);
    }
  }

  lemma {:induction false} DecidedState(s: State, fate: Fate)
    requires WriteEnabled(s, WriteDecidedStep(fate)) && WorkerSound(s.worker)
    requires AllWellFormed(s.worker.pre.value.requests)
    ensures var s', d := WriteDecided(s, fate), s.worker.pre.value;
            if s.store.recovery || (s.store.visible == d.base && fate.Breaks?) then s' == OnGeneralPath(s, fate)
            else if s.store.visible != d.base then s' == s.(worker := s.worker.(usePre := false, stale := true))
            else s' == OnGeneralPath(s, fate) <==> AllHolding(s.store, d.requests)
  {
    VerdictsAllTrue(s.store, s.worker.group);
  }

  /**
   The decided write against the general path, in every run. On a stale base nothing is written
   and the group falls back. On the live base the two paths agree exactly when the prediction
   was checked or no commit from elsewhere overtook it.
   */
  lemma DecidedRefinesGeneral(b: QueueBounds, trace: seq<State>, steps: seq<Step>, i: nat, fate: Fate)
    requires Run(b, trace, steps) && i < |steps| && steps[i] == Write(WriteDecidedStep(fate))
    ensures var s, s', w := trace[i], trace[i + 1], trace[i].worker;
            var d := w.pre.value;
            if s.store.recovery || (s.store.visible == d.base && fate.Breaks?) then s' == OnGeneralPath(s, fate)
            else if s.store.visible != d.base then s' == s.(worker := w.(usePre := false, stale := true))
            else s' == OnGeneralPath(s, fate) <==> w.checked || !Overtaken(s.store, d)
  {
    RunInv(b, trace, steps, i);
    RunForeseen(b, trace, steps, i);
    var s := trace[i];
    assert Enabled(b, s, steps[i]) && trace[i + 1] == WriteDecided(s, fate);
    DecidedState(s, fate);
    if !s.worker.checked && s.store.visible == s.worker.pre.value.base {
      UncheckedGroup(s.store, s.worker.pre.value);
    }
  }

  // ---- when the predecessor committed as predicted --------------------------------------------------

  /** Strictly increasing sequences in an interval of the same length fill it. */
  lemma {:induction false} FillsFromBelow(st: Store, after: nat, behind: seq<Request>, k: nat)
    requires Increasing(st, behind) && LoggedAfter(st, after, behind) && k < |behind|
    requires forall i :: 0 <= i < |behind| ==> behind[i].id in st.txns
    ensures st.txns[behind[k].id] >= after + 1 + k
  {
    if k > 0 { FillsFromBelow(st, after, behind, k - 1); }
  }

  lemma {:induction false} FillsFromAbove(st: Store, behind: seq<Request>, k: nat)
    requires Increasing(st, behind) && LogSound(st) && k < |behind|
    requires forall i :: 0 <= i < |behind| ==> behind[i].id in st.txns
    ensures st.txns[behind[k].id] + (|behind| - 1 - k) <= st.visible
    decreases |behind| - k
  {
    if k + 1 < |behind| { FillsFromAbove(st, behind, k + 1); }
  }

  /** If the whole predecessor committed, it owns every sequence up to the predicted base. */
  lemma PredecessorFills(st: Store, d: Decided, n: nat)
    requires Standing(st, d) && LogSound(st) && st.visible == d.base && d.after < n <= d.base
    requires forall k :: 0 <= k < |d.behind| ==> d.behind[k].id in st.txns
    ensures n in st.owner && st.owner[n] == Pipeline(d.behind[n - d.after - 1].id)
  {
    var k := n - d.after - 1;
    FillsFromBelow(st, d.after, d.behind, k);
    FillsFromAbove(st, d.behind, k);
    assert st.txns[d.behind[k].id] == n;
  }

  /** A prediction whose predecessor epoch committed every request is written as the general path would. */
  lemma PredecessorCommittedAgrees(b: QueueBounds, trace: seq<State>, steps: seq<Step>, i: nat, fate: Fate)
    requires Run(b, trace, steps) && i < |steps| && steps[i] == Write(WriteDecidedStep(fate))
    requires trace[i].store.visible == trace[i].worker.pre.value.base
    requires var d := trace[i].worker.pre.value;
             forall k :: 0 <= k < |d.behind| ==> d.behind[k].id in trace[i].store.txns
    ensures trace[i + 1] == OnGeneralPath(trace[i], fate)
  {
    DecidedRefinesGeneral(b, trace, steps, i, fate);
    var s := trace[i];
    var d := s.worker.pre.value;
    RunInv(b, trace, steps, i);
    RunForeseen(b, trace, steps, i);
    if Overtaken(s.store, d) {
      var n, k :| FromElsewhere(s.store, d, n) && 0 <= k < |d.requests| && OverlapsRequest(s.store, n, d.requests[k]);
      PredecessorFills(s.store, d, n);
    }
  }
}
