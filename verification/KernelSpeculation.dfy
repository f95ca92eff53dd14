/**
 The speculative N+1 slot: which epoch it belongs to, where it can exist, and how every
 eligible slot is accounted for exactly once.
 */
module KernelSpeculation {
  import opened Common
  import opened Requests
  import opened AppendQueues
  import opened CommitKernel
  import opened KernelFrames

  function PreOf(w: Worker): Option<Decided> {
    if Busy(w) then w.pre else None
  }

  predicate IsStale(w: Worker) {
    (w.Ready? || w.Written?) && w.stale
  }

  /** A promoted group is exactly its nonempty prediction, and only such a group can go stale. */
  predicate WorkerSound(w: Worker) {
    && (PreOf(w).Some? ==> PreOf(w).value.requests == Group(w) != [])
    && (IsStale(w) ==> PreOf(w).Some?)
    && (w.Ready? && w.usePre ==> w.pre.Some? && !w.stale)
  }

  /**
   The overlay is installed exactly while a group is being written; a plan taken under the
   current overlay knows its base; a slot carries the generation and bases of the epoch in
   flight or just finished, and is absent while the worker collects.
   */
  predicate SlotSound(sp: Speculation, w: Worker) {
    && (sp.overlay <==> Busy(w) && !w.Selected?)
    && (sp.preflight.Planned? ==>
          && sp.preflight.generation <= sp.generation
          && (sp.preflight.decided ==> sp.preflight.plan != [])
          && (sp.overlay && sp.preflight.generation == sp.generation ==>
                sp.preflight.base == sp.epochBase && sp.preflight.count == sp.hint))
    && (sp.slot.Some? ==>
          && !w.Collecting? && !w.Selected? && !w.Exited?
          && sp.slot.value.generation == sp.generation
          && sp.slot.value.predecessorBase == sp.epochBase
          && sp.slot.value.epoch.base == sp.epochBase + sp.hint
          && sp.slot.value.epoch.requests != [])
  }

  function PendingRequests(sp: Speculation): nat {
    if sp.slot.Some? then |sp.slot.value.epoch.requests| else 0
  }

  function PendingSlots(sp: Speculation): nat {
    if sp.slot.Some? then 1 else 0
  }

  predicate AllReasons(m: Metrics) {
    m.byReason.Keys ==
      {PredecessorFailure, IndeterminateWrite, CancelledRequest, GenerationMismatch, BaseMismatch, Shutdown}
  }

  function Total(m: Metrics): nat
    requires AllReasons(m)
  {
    m.byReason[PredecessorFailure] + m.byReason[IndeterminateWrite] + m.byReason[CancelledRequest]
    + m.byReason[GenerationMismatch] + m.byReason[BaseMismatch] + m.byReason[Shutdown]
  }

  /**
   Every eligible slot is promoted, discarded or pending; a promoted group whose prediction
   proved stale is counted again as discarded, and never without having been promoted.
   */
  predicate Accounted(sp: Speculation, w: Worker) {
    var m := sp.m;
    && m.eligible + m.staleRequests == m.promoted + m.discards + PendingRequests(sp)
    && m.eligibleEpochs + m.staleEpochs == m.promotedEpochs + m.discardedEpochs + PendingSlots(sp)
    && m.staleRequests + (if PreOf(w).Some? then |Group(w)| else 0) <= m.promoted
    && m.staleEpochs + (if PreOf(w).Some? then 1 else 0) <= m.promotedEpochs
    && m.staleRequests <= m.discards && m.staleEpochs <= m.discardedEpochs
    && AllReasons(m) && Total(m) == m.discards
  }

  predicate SpecInv(sp: Speculation, w: Worker) {
    WorkerSound(w) && SlotSound(sp, w) && Accounted(sp, w)
  }

  lemma RecordTotal(m: Metrics, reason: Reason, count: nat)
    requires AllReasons(m)
    ensures AllReasons(Record(m, reason, count)) && Total(Record(m, reason, count)) == Total(m) + count
  {
  }

  /** Discarding a pending slot moves its requests to the discards and nothing else. */
  lemma DropSlotKeeps(sp: Speculation, w: Worker, reason: Reason)
    requires SpecInv(sp, w)
    ensures SpecInv(DropSlot(sp, reason), w) && DropSlot(sp, reason).slot.None?
    ensures DropSlot(sp, reason).(m := sp.m, slot := sp.slot) == sp
  {
    if sp.slot.Some? { RecordTotal(sp.m, reason, |sp.slot.value.epoch.requests|); }
  }

  lemma RequestedKeeps(sp: Speculation, w: Worker)
    requires SpecInv(sp, w)
    ensures SpecInv(Requested(sp), w)
  {
  }

  lemma InvalidateKeeps(sp: Speculation, w: Worker, id: nat)
    requires SpecInv(sp, w)
    ensures SpecInv(Invalidate(sp, id), w)
  {
    if Plans(sp, id) { DropSlotKeeps(sp, w, CancelledRequest); }
  }

  lemma {:induction false} SpecClient(b: QueueBounds, s: State, step: ClientStep)
    requires SpecInv(s.spec, s.worker) && ClientEnabled(b, s, step)
    ensures var s' := ClientApply(b, s, step); SpecInv(s'.spec, s'.worker)
  {
    match step
    case AdmitStep(_) => RequestedKeeps(s.spec, s.worker);
    case CancelStep(id, _) =>
      InvalidateKeeps(s.spec, s.worker, id);
      RequestedKeeps(Invalidate(s.spec, id), s.worker);
    case _ =>
  }

  /** A promoted slot becomes the worker's nonempty predicted group. */
  lemma {:induction false} SpecPromote(s: State, s': State)
    requires SpecInv(s.spec, s.worker) && s.worker.Waiting? && s.spec.slot.Some?
    requires var slot := s.spec.slot.value;
             && s'.worker == Selected(slot.epoch.requests, Some(slot.epoch), slot.needsCheck)
             && s'.spec == s.spec.(slot := None, m := s.spec.m.(
                  promoted := s.spec.m.promoted + |slot.epoch.requests|, promotedEpochs := s.spec.m.promotedEpochs + 1))
    ensures SpecInv(s'.spec, s'.worker)
  {
  }

  lemma {:induction false} SpecBegin(s: State, generalMax: nat)
    requires SpecInv(s.spec, s.worker) && s.worker.Waiting?
    ensures var s' := BeginCollect(s, generalMax); SpecInv(s'.spec, s'.worker)
  {
    if s.spec.slot.Some? {
      if PromotionObstacle(s, generalMax).Some? {
        DropSlotKeeps(s.spec, s.worker, PromotionObstacle(s, generalMax).value);
      } else {
        SpecPromote(s, BeginCollect(s, generalMax));
      }
    }
  }

  lemma {:induction false} SpecSelect(s: State, step: WorkerStep)
    requires SpecInv(s.spec, s.worker) && SelectEnabled(s, step)
    ensures var s' := SelectApply(s, step); SpecInv(s'.spec, s'.worker)
  {
    match step
    case BeginCollectStep(generalMax) => SpecBegin(s, generalMax);
    case CollectStep(_, _) =>
    case ExitStep => DropSlotKeeps(s.spec, s.worker, Shutdown);
    case OverlayStep => assert WorkerSound(SelectApply(s, step).worker);
    case BindStep => assert WorkerSound(SelectApply(s, step).worker);
  }

  /** Booking closes the promoted group: stale or not, it no longer owes a discard. */
  lemma CountStaleKeeps(sp: Speculation, w: Worker, w': Worker)
    requires SpecInv(sp, w) && w.Written? && w'.Booked?
    ensures SpecInv(CountStale(sp, w).(overlay := false), w')
  {
    RecordTotal(sp.m, BaseMismatch, |w.group|);
  }

  lemma {:induction false} SpecBook(s: State)
    requires SpecInv(s.spec, s.worker) && WriteEnabled(s, BookStep)
    ensures var s' := Book(s); SpecInv(s'.spec, s'.worker)
  {
    var w, w' := s.worker, Book(s).worker;
    CountStaleKeeps(s.spec, w, w');
    var counted := CountStale(s.spec, w);
    var closed := counted.(overlay := false);
    var settled := SettleSlot(counted, w, s.store.visible);
    assert SettleSlot(closed, w, s.store.visible) == settled.(overlay := false);
    if settled != counted {
      var reason :| SettleSlot(closed, w, s.store.visible) == DropSlot(closed, reason);
      DropSlotKeeps(closed, w', reason);
    }
  }

  lemma {:induction false} SpecWrote(s: State, s': State, oks: seq<bool>)
    requires SpecInv(s.spec, s.worker) && Wrote(s, s') && |oks| == |s.worker.group| && Ended(s, s', oks)
    ensures SpecInv(s'.spec, s'.worker)
  {
  }

  lemma {:induction false} SpecWrite(s: State, step: WriteStep)
    requires SpecInv(s.spec, s.worker) && WriteEnabled(s, step)
    ensures var s' := WriteApply(s, step); SpecInv(s'.spec, s'.worker)
  {
    match step
    case CheckStep(readable) => CheckFrame(s, readable);
    case WriteDecidedStep(_) =>
      WriteFrame(s, step);
      SpecWrote(s, WriteApply(s, step), OksOf(s, step));
    case WriteGeneralStep(_, _) =>
      WriteFrame(s, step);
      SpecWrote(s, WriteApply(s, step), OksOf(s, step));
    case BookStep => SpecBook(s);
    case PublishStep =>
    case ReleaseStep =>
  }

  /** The slot of a plan taken under the current overlay stands on that overlay's bases. */
  lemma SpecEligible(sp: Speculation, w: Worker, sp': Speculation, slot: Slot)
    requires SpecInv(sp, w) && sp.overlay && sp.slot.None?
    requires && slot.generation == sp.generation && slot.predecessorBase == sp.epochBase
             && slot.epoch.base == sp.epochBase + sp.hint && slot.epoch.requests != []
    requires && sp'.preflight.Resting? && sp'.overlay && sp'.slot == Some(slot)
             && sp'.generation == sp.generation && sp'.epochBase == sp.epochBase && sp'.hint == sp.hint
             && sp'.m == sp.m.(eligible := sp.m.eligible + |slot.epoch.requests|,
                               eligibleEpochs := sp.m.eligibleEpochs + 1)
    ensures SpecInv(sp', w)
  {
  }

  /** Installing a plan makes at most one slot eligible, on the bases the plan was taken under. */
  lemma {:induction false} SpecInstall(sp: Speculation, w: Worker, queue: seq<Request>, flagged: set<nat>)
    requires SpecInv(sp, w) && sp.preflight.Planned?
    ensures SpecInv(InstallPlan(sp, queue, flagged), w)
  {
    var sp' := InstallPlan(sp, queue, flagged);
    if sp.slot.None? && sp'.slot.Some? { SpecEligible(sp, w, sp', sp'.slot.value); }
  }

  lemma {:induction false} SpecOther(s: State, step: OtherStep)
    requires SpecInv(s.spec, s.worker) && OtherEnabled(s, step)
    ensures var s' := OtherApply(s, step); SpecInv(s'.spec, s'.worker)
  {
    match step
    case InstallStep => SpecInstall(s.spec, s.worker, s.flow.q.requests, s.clients.flagged);
    case StopStep => DropSlotKeeps(s.spec, s.worker, Shutdown);
    case _ =>
  }
}
