/**
 Commit handles: where each request's terminal outcome comes from, and why no two writers
 can disagree about it.
 */
module KernelHandles {
  import opened Common
  import opened Requests
  import opened AppendQueues
  import opened CommitKernel
  import opened KernelFrames
  import opened KernelLog

  const Fresh := Handle(None, None)
  const ReportedCancelled := Handle(Some(Aborted(Cancelled)), None)

  /** The handle is owned by a published epoch that holds the request's own result. */
  predicate Delivered(c: Clients, id: nat) {
    && id in c.results
    && HandleOf(c, id).result.None? && HandleOf(c, id).bound.Some?
    && WaitValue(c, id) == Some(ToOutcome(c.results[id]))
  }

  ghost predicate AllDelivered(c: Clients, rs: seq<Request>) {
    forall i :: 0 <= i < |rs| && rs[i].handled ==> Delivered(c, rs[i].id)
  }

  ghost predicate AllFresh(c: Clients, rs: seq<Request>) {
    forall i :: 0 <= i < |rs| && rs[i].handled ==> HandleOf(c, rs[i].id) == Fresh
  }

  ghost predicate AllBound(c: Clients, group: seq<Request>, upto: nat, epoch: Option<nat>)
    requires upto <= |group|
  {
    forall i :: 0 <= i < upto && group[i].handled ==>
      epoch.Some? && HandleOf(c, group[i].id) == Handle(None, Some((epoch.value, i)))
  }

  /** From binding to publication the group's completion exists and holds no result. */
  predicate EpochOpen(c: Clients, epoch: Option<nat>) {
    epoch.Some? ==> epoch.value < |c.epochs| && c.epochs[epoch.value].None?
  }

  ghost predicate GroupHandles(c: Clients, w: Worker) {
    match w
    case Selected(g, _, _) => AllFresh(c, g)
    case InFlight(g, _, _, n, e) => n <= |g| && AllBound(c, g, n, e) && AllFresh(c, g[n..]) && EpochOpen(c, e)
    case Ready(g, _, _, _, _, e) => AllBound(c, g, |g|, e) && EpochOpen(c, e)
    case Written(g, _, _, _, e) => AllBound(c, g, |g|, e) && EpochOpen(c, e)
    case Booked(g, _, e) => AllBound(c, g, |g|, e) && EpochOpen(c, e)
    case Published(g, _) => AllDelivered(c, g)
    case _ => true
  }

  /** A removed request is reported cancelled, or is about to be. */
  ghost predicate RemovedHandles(c: Clients, removed: set<nat>) {
    && c.reporting <= removed
    && forall id :: id in removed ==> HandleOf(c, id) == if id in c.reporting then Fresh else ReportedCancelled
  }

  ghost predicate Provenance(fl: Flow, c: Clients, quiesced: bool) {
    && c.cancelling <= c.flagged
    && (forall i :: 0 <= i < |fl.admitted| && fl.admitted[i].id in c.flagged ==> fl.admitted[i].handled)
    && c.refused !! Ids(fl.admitted)
    && (!quiesced ==> c.handles.Keys <= Ids(fl.admitted) + c.refused)
  }

  ghost predicate Quiet(fl: Flow, w: Worker, c: Clients) {
    fl.q.requests == [] && c.cancelling == {} && c.reporting == {} && (Busy(w) ==> Group(w) == [])
  }

  ghost predicate HandleInv(s: State) {
    && AllDelivered(s.clients, s.flow.done)
    && GroupHandles(s.clients, s.worker)
    && AllFresh(s.clients, s.flow.q.requests)
    && RemovedHandles(s.clients, s.flow.removed)
    && Provenance(s.flow, s.clients, s.modes.quiesced)
    && (s.modes.quiesced ==> Quiet(s.flow, s.worker, s.clients))
  }

  /** All ids the pipeline still tracks are distinct, and cancelled ones are not among them. */
  ghost predicate Apart(s: State) {
    && Distinct(s.flow.done + Group(s.worker) + s.flow.q.requests)
    && s.flow.removed !! Ids(s.flow.done + Group(s.worker) + s.flow.q.requests)
    && (forall r :: r in s.flow.done + Group(s.worker) + s.flow.q.requests ==> r in s.flow.admitted)
    && s.flow.removed <= Ids(s.flow.admitted)
  }

  // ---- frames -------------------------------------------------------------------------

  /** Published results stay, and nothing about the requests `rs` changes. */
  ghost predicate Keeps(c: Clients, c': Clients, rs: seq<Request>) {
    && |c.epochs| <= |c'.epochs|
    && (forall e :: 0 <= e < |c.epochs| && c.epochs[e].Some? ==> c'.epochs[e] == c.epochs[e])
    && forall i :: 0 <= i < |rs| ==>
         && HandleOf(c', rs[i].id) == HandleOf(c, rs[i].id)
         && (rs[i].id in c.results ==> rs[i].id in c'.results && c'.results[rs[i].id] == c.results[rs[i].id])
  }

  lemma KeepsDelivered(c: Clients, c': Clients, rs: seq<Request>)
    requires AllDelivered(c, rs) && Keeps(c, c', rs)
    ensures AllDelivered(c', rs)
  {
    forall i | 0 <= i < |rs| && rs[i].handled ensures Delivered(c', rs[i].id) {
      assert Delivered(c, rs[i].id);
      var (e, _) := HandleOf(c, rs[i].id).bound.value;
      assert c'.epochs[e] == c.epochs[e];
    }
  }

  lemma KeepsGroup(c: Clients, c': Clients, w: Worker)
    requires GroupHandles(c, w) && Keeps(c, c', Group(w)) && (w.Published? || EpochOpen(c', EpochOf(w)))
    ensures GroupHandles(c', w)
  {
    if w.Published? { KeepsDelivered(c, c', w.group); }
    if w.InFlight? {
      forall i | 0 <= i < |w.group[w.bound..]| && w.group[w.bound..][i].handled
        ensures HandleOf(c', w.group[w.bound..][i].id) == Fresh
      {
        assert w.group[w.bound..][i] == w.group[w.bound + i];
      }
    }
  }

  lemma KeepsUntracked(c: Clients, c': Clients, rs: seq<Request>, id: nat)
    requires c'.results == c.results && c'.epochs == c.epochs && id !in Ids(rs)
    requires forall k :: k != id ==> HandleOf(c', k) == HandleOf(c, k)
    ensures Keeps(c, c', rs)
  {
    forall i | 0 <= i < |rs| ensures rs[i].id != id { assert rs[i].id in Ids(rs); }
  }

  /** The part of the invariant about requests the pipeline still tracks. */
  ghost predicate Tracked(fl: Flow, w: Worker, c: Clients) {
    AllDelivered(c, fl.done) && GroupHandles(c, w) && AllFresh(c, fl.q.requests)
  }

  lemma TrackedKeeps(fl: Flow, w: Worker, c: Clients, c': Clients, id: nat)
    requires Tracked(fl, w, c) && c'.results == c.results && c'.epochs == c.epochs
    requires id !in Ids(fl.done + Group(w) + fl.q.requests)
    requires forall k :: k != id ==> HandleOf(c', k) == HandleOf(c, k)
    ensures Tracked(fl, w, c')
  {
    IdsConcat(fl.done + Group(w), fl.q.requests);
    IdsConcat(fl.done, Group(w));
    KeepsUntracked(c, c', fl.done, id);
    KeepsUntracked(c, c', Group(w), id);
    KeepsUntracked(c, c', fl.q.requests, id);
    KeepsDelivered(c, c', fl.done);
    KeepsGroup(c, c', w);
  }

  lemma InQueue(fl: Flow, w: Worker, at: nat)
    requires at < |fl.q.requests|
    ensures fl.q.requests[at].id in Ids(fl.done + Group(w) + fl.q.requests)
  {
    assert (fl.done + Group(w) + fl.q.requests)[|fl.done + Group(w)| + at] == fl.q.requests[at];
  }

  lemma {:induction false} HandleAdmit(b: QueueBounds, s: State, r: Request)
    requires HandleInv(s) && CanAdmit(b, s, r)
    ensures HandleInv(Admit(s, r))
  {
    var grown := s.flow.admitted + [r];
    IdsPush(s.flow.admitted, r);
    assert forall i :: 0 <= i < |s.flow.admitted| ==> grown[i] == s.flow.admitted[i];
    assert r.id !in s.clients.handles;
  }

  lemma {:induction false} HandleCancel(s: State, id: nat, at: nat)
    requires HandleInv(s) && Apart(s) && id in s.clients.cancelling
    requires at < |s.flow.q.requests| && s.flow.q.requests[at].id == id
    ensures HandleInv(CancelLocked(s, id, Some(at)))
  {
    var queue := s.flow.q.requests;
    InQueue(s.flow, s.worker, at);
    assert queue[at] in s.flow.done + Group(s.worker) + queue;
    assert queue[at].handled;
    var s' := CancelLocked(s, id, Some(at));
    forall k | k in s'.flow.removed
      ensures HandleOf(s'.clients, k) == if k in s'.clients.reporting then Fresh else ReportedCancelled
    {
      assert k != id ==> k in s.flow.removed;
    }
    assert AllFresh(s'.clients, s'.flow.q.requests);
  }

  lemma {:induction false} HandleReport(s: State, id: nat)
    requires HandleInv(s) && Apart(s) && id in s.clients.reporting
    ensures HandleInv(s.(clients := ReportCancelled(s.clients, id)))
  {
    var c' := ReportCancelled(s.clients, id);
    assert HandleOf(s.clients, id) == Fresh;
    TrackedKeeps(s.flow, s.worker, s.clients, c', id);
  }

  lemma {:induction false} HandleRefuse(s: State, id: nat)
    requires HandleInv(s) && Apart(s) && id !in Ids(s.flow.admitted) && !s.modes.quiesced
    ensures HandleInv(s.(clients := RefuseSubmission(s.clients, id)))
  {
    NotTracked(s, id);
    TrackedKeeps(s.flow, s.worker, s.clients, RefuseSubmission(s.clients, id), id);
  }

  lemma NotTracked(s: State, id: nat)
    requires Apart(s) && id !in Ids(s.flow.admitted)
    ensures id !in Ids(s.flow.done + Group(s.worker) + s.flow.q.requests)
  {
    var rs := s.flow.done + Group(s.worker) + s.flow.q.requests;
    forall k | k in Ids(rs) ensures k in Ids(s.flow.admitted) {
      var i :| 0 <= i < |rs| && rs[i].id == k;
      assert rs[i] in s.flow.admitted;
    }
  }

  lemma {:induction false} HandleClient(b: QueueBounds, s: State, step: ClientStep)
    requires HandleInv(s) && Apart(s) && ClientEnabled(b, s, step)
    ensures HandleInv(ClientApply(b, s, step))
  {
    match step
    case AdmitStep(r) => HandleAdmit(b, s, r);
    case MarkCancelledStep(_) =>
    case CancelStep(id, at) => if at.Some? { HandleCancel(s, id, at.value); }
    case ReportCancelledStep(id) => HandleReport(s, id);
    case RefuseStep(id) => HandleRefuse(s, id);
  }

  // ---- the worker ---------------------------------------------------------------------

  lemma {:induction false} HandleTake(s: State, n: nat, w': Worker)
    requires HandleInv(s) && n <= |s.flow.q.requests|
    requires Group(s.worker) == [] && w'.Selected? && w'.group == s.flow.q.requests[..n]
    ensures HandleInv(s.(flow := Take(s.flow, n), worker := w'))
  {
    var queue := s.flow.q.requests;
    assert forall i :: 0 <= i < |queue[n..]| ==> queue[n..][i] == queue[n + i];
  }

  /** Binding the next handled request keeps every earlier ordinal of the same completion. */
  lemma {:induction false} HandleBind(s: State)
    requires HandleInv(s) && Apart(s) && s.worker.InFlight? && s.worker.bound < |s.worker.group|
    ensures HandleInv(BindNext(s))
  {
    var w, c, s' := s.worker, s.clients, BindNext(s);
    var r := w.group[w.bound];
    assert w.group[w.bound..][0] == r && w.group[w.bound..][1..] == w.group[w.bound + 1..];
    if r.handled {
      BindApart(s);
      var c' := s'.clients;
      assert forall k :: k != r.id ==> HandleOf(c', k) == HandleOf(c, k);
      KeepsDelivered(c, c', s.flow.done);
      BindGroup(c, c', w, s'.worker);
    }
  }

  lemma BindGroup(c: Clients, c': Clients, w: Worker, w': Worker)
    requires w.InFlight? && GroupHandles(c, w) && w.bound < |w.group| && w.group[w.bound].handled && Distinct(w.group)
    requires w'.InFlight? && w'.group == w.group && w'.bound == w.bound + 1 && w'.epoch.Some?
    requires w.epoch.Some? ==> w'.epoch == w.epoch
    requires EpochOpen(c', w'.epoch)
    requires forall k :: k != w.group[w.bound].id ==> HandleOf(c', k) == HandleOf(c, k)
    requires HandleOf(c', w.group[w.bound].id) ==
             HandleOf(c, w.group[w.bound].id).(bound := Some((w'.epoch.value, w.bound)))
    ensures GroupHandles(c', w')
  {
    var g, n := w.group, w.bound;
    assert g[n..][0] == g[n];
    var rest := g[n + 1..];
    forall i | 0 <= i < |rest| && rest[i].handled ensures HandleOf(c', rest[i].id) == Fresh {
      assert rest[i] == g[n + 1 + i] == g[n..][i + 1];
    }
  }

  /** The request being bound is neither finished, queued nor cancelled. */
  lemma BindApart(s: State)
    requires Apart(s) && s.worker.InFlight? && s.worker.bound < |s.worker.group|
    ensures var id := s.worker.group[s.worker.bound].id;
            id !in Ids(s.flow.done) && id !in Ids(s.flow.q.requests) && id !in s.flow.removed
    ensures forall i :: 0 <= i < |s.flow.done| ==> s.flow.done[i].id != s.worker.group[s.worker.bound].id
    ensures forall i :: 0 <= i < |s.flow.q.requests| ==> s.flow.q.requests[i].id != s.worker.group[s.worker.bound].id
    ensures Distinct(s.worker.group) && s.worker.group[s.worker.bound].id in Ids(s.flow.admitted)
  {
    var done, group, queue := s.flow.done, s.worker.group, s.flow.q.requests;
    var r := group[s.worker.bound];
    DistinctParts(done + group, queue);
    DistinctParts(done, group);
    assert r.id in Ids(group);
    assert (done + group + queue)[|done| + s.worker.bound] == r && r in done + group + queue;
    assert forall i :: 0 <= i < |done| ==> done[i].id in Ids(done);
    assert forall i :: 0 <= i < |queue| ==> queue[i].id in Ids(queue);
  }

  lemma {:induction false} HandleBook(s: State)
    requires HandleInv(s) && Apart(s) && WriteEnabled(s, BookStep)
    ensures HandleInv(Book(s))
  {
    var done, group, c, c' := s.flow.done, s.worker.group, s.clients, Book(s).clients;
    DistinctParts(done + group, s.flow.q.requests);
    BookKeeps(c, c', done, group, s.worker.result);
    KeepsDelivered(c, c', done);
    assert forall k :: HandleOf(c', k) == HandleOf(c, k);
  }

  /** The group's results touch no finished request. */
  lemma BookKeeps(c: Clients, c': Clients, done: seq<Request>, group: seq<Request>, result: GroupResult)
    requires Distinct(done + group) && (result.GroupOk? ==> |result.results| == |group|)
    requires c' == c.(results := WithResults(c.results, group, result))
    ensures Keeps(c, c', done)
  {
    DistinctParts(done, group);
    WithResultsAt(c.results, group, result);
    assert forall i :: 0 <= i < |done| ==> done[i].id in Ids(done);
  }

  /** Publication turns every binding of the epoch into the request's own outcome. */
  lemma {:induction false} HandlePublish(s: State)
    requires HandleInv(s) && WriteEnabled(s, PublishStep)
    requires AllOutcomes(s.clients.results, s.worker.group, s.worker.outcomes)
    ensures HandleInv(Publish(s))
  {
    var w, c, c' := s.worker, s.clients, Publish(s).clients;
    assert forall k :: HandleOf(c', k) == HandleOf(c, k);
    KeepsDelivered(c, c', s.flow.done);
    forall i | 0 <= i < |w.group| && w.group[i].handled ensures Delivered(c', w.group[i].id) {
      assert HandleOf(c, w.group[i].id) == Handle(None, Some((w.epoch.value, i)));
    }
  }

  lemma {:induction false} HandleRelease(s: State)
    requires HandleInv(s) && s.worker.Published?
    ensures HandleInv(ReleaseGroup(s))
  {
    var done, group := s.flow.done, s.worker.group;
    var line: seq<Request> := done + group;
    forall i | 0 <= i < |line| && line[i].handled ensures Delivered(s.clients, line[i].id) {
      if i >= |done| { assert line[i] == group[i - |done|]; }
    }
  }

  lemma {:induction false} HandleChose(s: State, s': State)
    requires HandleInv(s) && Chose(s, s')
    ensures HandleInv(s')
  {
    if s'.worker.Selected? {
      var n := |s'.worker.group|;
      assert s'.worker.group == s.flow.q.requests[..n];
      HandleTake(s, n, s'.worker);
    }
  }

  lemma {:induction false} HandleSelect(s: State, step: WorkerStep)
    requires HandleInv(s) && Apart(s) && SelectEnabled(s, step)
    ensures HandleInv(SelectApply(s, step))
  {
    match step
    case BeginCollectStep(_) =>
      ChoiceFrame(s, step);
      HandleChose(s, SelectApply(s, step));
    case CollectStep(_, _) =>
      ChoiceFrame(s, step);
      HandleChose(s, SelectApply(s, step));
    case ExitStep =>
    case OverlayStep => assert s.worker.group[0..] == s.worker.group;
    case BindStep => HandleBind(s);
  }

  /** Moves of the worker that leave every handle and the group's bindings alone. */
  lemma {:induction false} HandleMoved(s: State, s': State)
    requires HandleInv(s) && s'.flow == s.flow && s'.clients == s.clients && s'.modes == s.modes
    requires GroupHandles(s.clients, s'.worker)
    requires Busy(s'.worker) ==> Group(s'.worker) == Group(s.worker) && Busy(s.worker)
    ensures HandleInv(s')
  {
  }

  lemma {:induction false} HandleWrite(s: State, step: WriteStep)
    requires HandleInv(s) && Apart(s) && WriteEnabled(s, step)
    requires step.PublishStep? ==> AllOutcomes(s.clients.results, s.worker.group, s.worker.outcomes)
    ensures HandleInv(WriteApply(s, step))
  {
    match step
    case CheckStep(readable) =>
      CheckFrame(s, readable);
      HandleMoved(s, WriteApply(s, step));
    case WriteDecidedStep(_) =>
      WriteFrame(s, step);
      HandleMoved(s, WriteApply(s, step));
    case WriteGeneralStep(_, _) =>
      WriteFrame(s, step);
      HandleMoved(s, WriteApply(s, step));
    case BookStep => HandleBook(s);
    case PublishStep => HandlePublish(s);
    case ReleaseStep => HandleRelease(s);
  }

  /** After the drain the shutdown sweep finds every admitted handle already decided. */
  lemma {:induction false} HandleSweep(s: State, id: nat)
    requires HandleInv(s) && Apart(s) && s.modes.quiesced && HoldsTicket(s, id)
    ensures HandleInv(s.(clients := CompleteHandle(s.clients, id, Aborted(ShuttingDown))))
  {
    var c, c' := s.clients, CompleteHandle(s.clients, id, Aborted(ShuttingDown));
    if c' != c && id !in s.flow.removed {
      var rs := s.flow.done + Group(s.worker) + s.flow.q.requests;
      if id in Ids(rs) {
        var i :| 0 <= i < |rs| && rs[i].id == id;
        SweptIsDecided(s, i);
        assert false;
      } else {
        TrackedKeeps(s.flow, s.worker, c, c', id);
      }
    }
  }

  lemma SweptIsDecided(s: State, i: nat)
    requires HandleInv(s) && Apart(s) && Quiet(s.flow, s.worker, s.clients)
    requires i < |s.flow.done + Group(s.worker) + s.flow.q.requests|
    requires HoldsTicket(s, (s.flow.done + Group(s.worker) + s.flow.q.requests)[i].id)
    ensures HandleOf(s.clients, (s.flow.done + Group(s.worker) + s.flow.q.requests)[i].id).bound.Some?
  {
    var rs := s.flow.done + Group(s.worker) + s.flow.q.requests;
    assert rs[i] in s.flow.admitted && rs[i].handled;
    if i < |s.flow.done| {
      assert rs[i] == s.flow.done[i];
    } else {
      assert rs[i] == Group(s.worker)[i - |s.flow.done|];
    }
  }

  lemma {:induction false} HandleOther(s: State, step: OtherStep)
    requires HandleInv(s) && Apart(s) && OtherEnabled(s, step)
    requires step.QuiesceStep? && Busy(s.worker) ==> |Group(s.worker)| == s.flow.active
    ensures HandleInv(OtherApply(s, step))
  {
    match step
    case SnapshotStep(_, _, _) =>
    case InstallStep =>
    case ElsewhereStep(_) =>
    case StopStep =>
    case QuiesceStep =>
    case SweepStep(id) => HandleSweep(s, id);
  }
}
