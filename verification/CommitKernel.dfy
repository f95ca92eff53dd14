/**
 Cedar's commit pipeline as one transition system: any number of submitting and cancelling
 clients, the ordered append worker, the speculative preflight worker, the fact store, the
 epoch completions and the commit handles. One step is one critical section of
 `append_commit_mutex`, one handle or completion lock, or one store call.
 */
module CommitKernel {
  import opened Common
  import opened Requests
  import opened AppendQueues

  // ---- values -------------------------------------------------------------------------

  datatype FailKind = Rejected | Unknown | NeedsRecovery | QueryCancelled | Refused

  /** What the store says about one request of a group. */
  datatype StoreResult = Stored(seqNo: nat) | Failed(kind: FailKind)

  datatype GroupResult = GroupOk(results: seq<StoreResult>) | GroupErr(kind: FailKind)

  datatype Cause = StoreSaid(kind: FailKind) | Cancelled | NotAdmitted | ShuttingDown

  /** The terminal outcome a client sees. */
  datatype Outcome = Committed(seqNo: nat) | Aborted(cause: Cause) | Indeterminate

  function ToOutcome(r: StoreResult): Outcome {
    match r
    case Stored(n) => Committed(n)
    case Failed(kind) => if kind == Unknown || kind == NeedsRecovery then Indeterminate else Aborted(StoreSaid(kind))
  }

  /**
   A predicted epoch: request `i` gets sequence `base + 1 + i` if the base still holds. `after` is
   the base of the epoch it was planned behind, and `behind` that epoch's group.
   */
  datatype Decided = Decided(base: nat, requests: seq<Request>, after: nat, behind: seq<Request>)

  datatype Slot = Slot(generation: nat, predecessorBase: nat, epoch: Decided, needsCheck: bool)

  datatype Reason = PredecessorFailure | IndeterminateWrite | CancelledRequest
                  | GenerationMismatch | BaseMismatch | Shutdown

  datatype Metrics = Metrics(
    eligible: nat, eligibleEpochs: nat, promoted: nat, promotedEpochs: nat,
    discards: nat, discardedEpochs: nat, byReason: map<Reason, nat>,
    staleRequests: nat, staleEpochs: nat)

  /** Program counter and locals of the ordered append worker. */
  datatype Worker =
    | Waiting
    | Collecting
    | Selected(group: seq<Request>, pre: Option<Decided>, needsCheck: bool)
    | InFlight(group: seq<Request>, pre: Option<Decided>, needsCheck: bool, bound: nat, epoch: Option<nat>)
    | Ready(group: seq<Request>, pre: Option<Decided>, usePre: bool, checked: bool, stale: bool, epoch: Option<nat>)
    | Written(group: seq<Request>, pre: Option<Decided>, stale: bool, result: GroupResult, epoch: Option<nat>)
    | Booked(group: seq<Request>, outcomes: seq<Outcome>, epoch: Option<nat>)
    | Published(group: seq<Request>, epoch: Option<nat>)
    | Exited

  /** The requests the worker has taken from the queue and not yet released. */
  function Group(w: Worker): seq<Request> {
    if w.Waiting? || w.Collecting? || w.Exited? then [] else w.group
  }

  /** The group still counts as active: its results are not fixed yet. */
  predicate Busy(w: Worker) {
    w.Selected? || w.InFlight? || w.Ready? || w.Written?
  }

  /** The completion shared by the group's handled requests, once one was created. */
  function EpochOf(w: Worker): Option<nat> {
    if w.InFlight? || w.Ready? || w.Written? || w.Booked? || w.Published? then w.epoch else None
  }

  datatype Preflight =
    | Resting
    | Planned(generation: nat, requestGeneration: nat, base: nat, count: nat, plan: seq<Request>, decided: bool,
              behind: seq<Request>)

  datatype Owner = Pipeline(id: nat) | Elsewhere

  /**
   The fact store's commit log: who owns each sequence, each request's sequence, and what each
   sequence wrote, from before the run as well.
   */
  datatype Store = Store(
    first: nat, visible: nat, recovery: bool, owner: map<nat, Owner>, txns: map<nat, nat>,
    written: map<nat, set<Boundary>>)

  datatype Handle = Handle(result: Option<Outcome>, bound: Option<(nat, nat)>)

  /** Requests and counters of the queue; `done` are the requests already released. */
  datatype Flow = Flow(
    admitted: seq<Request>, removed: set<nat>, done: seq<Request>, q: QueueState, active: int, publications: int)

  /** The speculative N+1 side: overlay, generations, the slot and its accounting. */
  datatype Speculation = Speculation(
    preflight: Preflight, overlay: bool, generation: nat, epochBase: nat, hint: nat,
    requestGeneration: nat, completedGeneration: nat, slot: Option<Slot>, m: Metrics)

  /** Results, completions and handles, and how far each cancellation has come. */
  datatype Clients = Clients(
    results: map<nat, StoreResult>, epochs: seq<Option<seq<Outcome>>>, handles: map<nat, Handle>,
    flagged: set<nat>, cancelling: set<nat>, reporting: set<nat>, refused: set<nat>)

  datatype Modes = Modes(stopping: bool, pipelined: bool, quiesced: bool)

  datatype State = State(flow: Flow, worker: Worker, spec: Speculation, store: Store, clients: Clients, modes: Modes)

  const EmptyMetrics := Metrics(0, 0, 0, 0, 0, 0,
    map[PredecessorFailure := 0, IndeterminateWrite := 0, CancelledRequest := 0,
        GenerationMismatch := 0, BaseMismatch := 0, Shutdown := 0], 0, 0)

  ghost predicate Init(s: State) {
    && s.flow == Flow([], {}, [], QueueState([], 0, 0, 0), 0, 0)
    && s.worker == Waiting
    && s.spec.preflight == Resting && !s.spec.overlay && s.spec.slot == None && s.spec.m == EmptyMetrics
    && s.store.visible == s.store.first && s.store.owner == map[] && s.store.txns == map[]
    && (forall n :: n in s.store.written ==> n <= s.store.first)
    && s.clients == Clients(map[], [], map[], {}, {}, {}, {})
    && s.modes == Modes(false, false, false)
  }

  // ---- discards -----------------------------------------------------------------------

  function Record(m: Metrics, reason: Reason, count: nat): Metrics {
    if count == 0 then m else
      m.(discards := m.discards + count, discardedEpochs := m.discardedEpochs + 1,
         byReason := m.byReason[reason := (if reason in m.byReason then m.byReason[reason] else 0) + count])
  }

  function DropSlot(sp: Speculation, reason: Reason): Speculation {
    if sp.slot.None? then sp else
      sp.(m := Record(sp.m, reason, |sp.slot.value.epoch.requests|), slot := None)
  }

  function ReasonFor(kind: FailKind): Reason {
    match kind
    case QueryCancelled => CancelledRequest
    case Unknown => IndeterminateWrite
    case NeedsRecovery => IndeterminateWrite
    case _ => PredecessorFailure
  }

  // ---- clients ------------------------------------------------------------------------

  ghost predicate CanAdmit(b: QueueBounds, s: State, r: Request) {
    && !s.modes.quiesced && !s.modes.stopping
    && (forall i :: 0 <= i < |s.flow.admitted| ==> s.flow.admitted[i].id != r.id)
    && r.id !in s.clients.flagged && r.id !in s.clients.refused
    && HasCapacity(s.flow.q, b, r) && Built(r)
  }

  /** A change of the queue while an epoch is in flight asks for another preflight pass. */
  function Requested(sp: Speculation): Speculation {
    sp.(requestGeneration := sp.requestGeneration + 1)
  }

  function Admit(s: State, r: Request): State {
    s.(flow := s.flow.(admitted := s.flow.admitted + [r], q := Pushed(s.flow.q, r)),
       modes := s.modes.(pipelined := s.modes.pipelined || (r.handled && r.pipelined)),
       spec := if s.spec.overlay then Requested(s.spec) else s.spec)
  }

  function HandleOf(c: Clients, id: nat): Handle {
    if id in c.handles then c.handles[id] else Handle(None, None)
  }

  /** First writer wins, and a handle owned by an epoch is left to that epoch. */
  function CompleteHandle(c: Clients, id: nat, o: Outcome): Clients {
    var h := HandleOf(c, id);
    if h.result.Some? || h.bound.Some? then c else c.(handles := c.handles[id := h.(result := Some(o))])
  }

  function MarkCancelled(c: Clients, id: nat): Clients {
    c.(flagged := c.flagged + {id}, cancelling := c.cancelling + {id})
  }

  predicate Plans(sp: Speculation, id: nat) {
    sp.slot.Some? && exists i :: 0 <= i < |sp.slot.value.epoch.requests| && sp.slot.value.epoch.requests[i].id == id
  }

  function Invalidate(sp: Speculation, id: nat): Speculation {
    if Plans(sp, id) then DropSlot(sp, CancelledRequest) else sp
  }

  /** `at` is where the cancelled request sits in the queue, if it still does. */
  function CancelLocked(s: State, id: nat, at: Option<nat>): State
    requires at.Some? ==> at.value < |s.flow.q.requests|
  {
    var c := s.clients.(cancelling := s.clients.cancelling - {id});
    if at.None? then s.(spec := Invalidate(s.spec, id), clients := c) else
      s.(spec := Requested(Invalidate(s.spec, id)),
         flow := s.flow.(q := Erased(s.flow.q, at.value), removed := s.flow.removed + {id}),
         clients := c.(reporting := c.reporting + {id}))
  }

  function ReportCancelled(c: Clients, id: nat): Clients {
    CompleteHandle(c.(reporting := c.reporting - {id}), id, Aborted(Cancelled))
  }

  /** The submission executor gives up on a request before it reached the queue. */
  function RefuseSubmission(c: Clients, id: nat): Clients {
    CompleteHandle(c.(refused := c.refused + {id}), id, Aborted(NotAdmitted))
  }

  // ---- preflight worker ---------------------------------------------------------------

  /** A plan is a prefix of fresh blind appends, independent of each other and of the epoch in flight. */
  ghost predicate PlanAdmissible(rs: seq<Request>, n: nat, limits: GroupLimits, inFlight: seq<Request>) {
    && n <= |rs| && n <= limits.maxTransactions
    && PairwiseShare(rs[..n]) && SumBytes(rs[..n]) <= limits.targetBytes
    && (forall i :: 0 <= i < n ==> rs[i].predictable)
    && (forall i, j :: 0 <= i < n && 0 <= j < |inFlight| ==> CanShare(inFlight[j].footprint, rs[i].footprint))
  }

  ghost predicate LongestPlan(rs: seq<Request>, n: nat, limits: GroupLimits, inFlight: seq<Request>) {
    PlanAdmissible(rs, n, limits, inFlight) && (n < |rs| ==> !PlanAdmissible(rs, n + 1, limits, inFlight))
  }

  ghost predicate CanSnapshot(s: State, n: nat, limits: GroupLimits, decided: bool) {
    && s.spec.preflight.Resting? && !s.modes.stopping && s.spec.overlay && s.spec.slot.None?
    && s.spec.completedGeneration != s.spec.requestGeneration
    && LongestPlan(s.flow.q.requests, n, limits, Group(s.worker))
    && (decided ==> n > 0 && s.spec.hint > 0 && forall i :: 0 <= i < n ==> WellFormed(s.flow.q.requests[i]))
  }

  function SnapshotPlan(sp: Speculation, queue: seq<Request>, n: nat, decided: bool,
                        inFlight: seq<Request>): Speculation
    requires n <= |queue|
  {
    sp.(preflight := Planned(sp.generation, sp.requestGeneration, sp.epochBase, sp.hint,
                             if sp.hint == 0 then [] else queue[..n], decided, inFlight))
  }

  /** The dependencies were captured at `base` and saw no neighbouring boundary. */
  ghost predicate AtBase(r: Request, base: nat) {
    forall d :: d in r.batch.dependencies ==> d.snapshot == base && d.predecessor.None? && d.successor.None?
  }

  /** A plan is checked at promotion unless every dependency was captured at the epoch base. */
  ghost predicate NeedsCheck(plan: seq<Request>, base: nat) {
    exists i :: 0 <= i < |plan| && !AtBase(plan[i], base)
  }

  /** The planned requests are still the head of the queue and none was cancelled meanwhile. */
  predicate StillQueued(queue: seq<Request>, flagged: set<nat>, plan: seq<Request>) {
    plan <= queue && forall i :: 0 <= i < |plan| ==> plan[i].id !in flagged
  }

  ghost function InstallPlan(sp: Speculation, queue: seq<Request>, flagged: set<nat>): Speculation
    requires sp.preflight.Planned?
  {
    var p := sp.preflight;
    var rest := sp.(preflight := Resting);
    if !(sp.overlay && sp.generation == p.generation) then rest
    else if p.count == 0 then rest.(completedGeneration := p.requestGeneration)
    else if !StillQueued(queue, flagged, p.plan) || sp.slot.Some? then rest
    else if !p.decided then rest.(completedGeneration := p.requestGeneration)
    else rest.(completedGeneration := p.requestGeneration,
               slot := Some(Slot(p.generation, p.base, Decided(p.base + p.count, p.plan, p.base, p.behind),
                                 NeedsCheck(p.plan, p.base))),
               m := sp.m.(eligible := sp.m.eligible + |p.plan|, eligibleEpochs := sp.m.eligibleEpochs + 1))
  }

  // ---- append worker: selection -------------------------------------------------------

  function Min(a: nat, b: nat): nat { if a < b then a else b }

  /** Why the pending slot cannot be promoted now, if it cannot. */
  function PromotionObstacle(s: State, generalMax: nat): Option<Reason>
    requires s.spec.slot.Some?
  {
    var plan, queue := s.spec.slot.value.epoch.requests, s.flow.q.requests;
    if |queue| < |plan| then Some(if s.modes.stopping then Shutdown else GenerationMismatch)
    else if !StillQueued(queue, s.clients.flagged, plan) then Some(GenerationMismatch)
    else if s.modes.pipelined && Min(|queue|, generalMax) > |plan| then Some(GenerationMismatch)
    else None
  }

  function Take(fl: Flow, n: nat): Flow
    requires n <= |fl.q.requests|
  {
    fl.(q := Taken(fl.q, n), active := fl.active + n)
  }

  /** Promote the pending slot, or discard it and collect on the general path. */
  function BeginCollect(s: State, generalMax: nat): State {
    if s.spec.slot.None? then s.(worker := Collecting)
    else if PromotionObstacle(s, generalMax).Some? then
      s.(spec := DropSlot(s.spec, PromotionObstacle(s, generalMax).value), worker := Collecting)
    else
      var slot := s.spec.slot.value;
      var n := |slot.epoch.requests|;
      s.(flow := Take(s.flow, n), worker := Selected(slot.epoch.requests, Some(slot.epoch), slot.needsCheck),
         spec := s.spec.(slot := None, m := s.spec.m.(promoted := s.spec.m.promoted + n,
                                                      promotedEpochs := s.spec.m.promotedEpochs + 1)))
  }

  function Collect(s: State, n: nat): State
    requires n <= |s.flow.q.requests|
  {
    s.(flow := Take(s.flow, n), worker := Selected(s.flow.q.requests[..n], None, false))
  }

  function WorkerExit(s: State): State {
    s.(spec := DropSlot(s.spec, Shutdown), worker := Exited)
  }

  ghost function InstallOverlay(s: State): State
    requires s.worker.Selected?
  {
    var w := s.worker;
    s.(spec := Requested(s.spec).(
         overlay := true, generation := s.spec.generation + 1, epochBase := s.store.visible,
         hint := if forall i :: 0 <= i < |w.group| ==> w.group[i].predictable then |w.group| else 0),
       worker := InFlight(w.group, w.pre, w.needsCheck, 0, None))
  }

  /** Binds the next handle of the group; the first one creates the epoch's completion. */
  function BindNext(s: State): State
    requires s.worker.InFlight? && s.worker.bound < |s.worker.group|
  {
    var w, c := s.worker, s.clients;
    var r := w.group[w.bound];
    if !r.handled then s.(worker := w.(bound := w.bound + 1)) else
      var e := if w.epoch.Some? then w.epoch.value else |c.epochs|;
      s.(clients := c.(epochs := if w.epoch.Some? then c.epochs else c.epochs + [None],
                       handles := c.handles[r.id := HandleOf(c, r.id).(bound := Some((e, w.bound)))]),
         worker := w.(bound := w.bound + 1, epoch := Some(e)))
  }

  // ---- append worker: write -----------------------------------------------------------

  ghost predicate HasBoundary(st: Store, ref: FactIdentity, v: nat) {
    exists n :: n in st.written && (ref, v) in st.written[n]
  }

  /** The version that starts at `v` is bounded, and only after `t`. */
  ghost predicate Spans(st: Store, ref: FactIdentity, v: nat, t: nat) {
    (exists u :: u > t && HasBoundary(st, ref, u)) && forall u :: v < u <= t ==> !HasBoundary(st, ref, u)
  }

  /**
   A version written at `v` since the snapshot overlaps the write: an earlier one if it spans the
   write's boundary, a later one unless it lies at or beyond the successor the transaction saw.
   */
  ghost predicate Overlaps(st: Store, d: Dependency, v: nat) {
    if v < d.validFrom then Spans(st, d.ref, v, d.validFrom) else d.successor.None? || v < d.successor.value
  }

  /** Sequence `n` wrote a version that overlaps the write. */
  ghost predicate OverlappedBy(st: Store, d: Dependency, n: nat) {
    n in st.written && exists v :: (d.ref, v) in st.written[n] && Overlaps(st, d, v)
  }

  /** Snapshot validation of one dependency. */
  ghost predicate Holds(st: Store, d: Dependency) {
    d.snapshot <= st.visible && forall n :: n > d.snapshot ==> !OverlappedBy(st, d, n)
  }

  ghost predicate AllHold(st: Store, r: Request) {
    forall d :: d in r.batch.dependencies ==> Holds(st, d)
  }

  ghost predicate PredictionHolds(st: Store, group: seq<Request>) {
    !st.recovery && forall i :: 0 <= i < |group| ==> AllHold(st, group[i])
  }

  /** A prediction that must be checked survives only on its own base with valid dependencies. */
  ghost function CheckPrediction(s: State, readable: bool): State
    requires s.worker.InFlight?
  {
    var w := s.worker;
    var checked := w.pre.Some? && w.needsCheck;
    var stale := checked && !(s.store.visible == w.pre.value.base && readable && PredictionHolds(s.store, w.group));
    s.(worker := Ready(w.group, w.pre, w.pre.Some? && !stale, checked, stale, w.epoch))
  }

  /**
   What the general path decides about each request. `others` stands for its remaining checks:
   strict reads, edge identities, limits, and the store reads all of them need.
   */
  ghost function Verdicts(st: Store, group: seq<Request>, others: seq<bool>): (oks: seq<bool>)
    requires |others| == |group|
    ensures |oks| == |group|
  {
    seq(|group|, i requires 0 <= i < |group| => others[i] && WellFormed(group[i]) && AllHold(st, group[i]))
  }

  function Successes(oks: seq<bool>): nat {
    if oks == [] then 0 else Successes(oks[..|oks| - 1]) + if oks[|oks| - 1] then 1 else 0
  }

  /** Consecutive sequences after `base`, in order, for the requests that pass validation. */
  function Assign(oks: seq<bool>, base: nat): (rs: seq<StoreResult>)
    ensures |rs| == |oks|
  {
    if oks == [] then [] else
      var n := |oks| - 1;
      Assign(oks[..n], base) + [if oks[n] then Stored(base + Successes(oks[..n]) + 1) else Failed(Rejected)]
  }

  /** The group's records enter the log under the sequences they were given. */
  function Logged(st: Store, group: seq<Request>, rs: seq<StoreResult>): (st': Store)
    requires |rs| == |group|
    ensures st'.first == st.first && st'.visible == st.visible && st'.recovery == st.recovery
  {
    if group == [] then st else
      var n := |group| - 1;
      var before := Logged(st, group[..n], rs[..n]);
      match rs[n]
      case Stored(k) => before.(owner := before.owner[k := Pipeline(group[n].id)],
                                txns := before.txns[group[n].id := k],
                                written := before.written[k := FactsOf(group[n])])
      case Failed(_) => before
  }

  function Land(st: Store, group: seq<Request>, oks: seq<bool>, base: nat): Store
    requires |oks| == |group|
  {
    Logged(st, group, Assign(oks, base)).(visible := base + Successes(oks))
  }

  function AllTrue(n: nat): (oks: seq<bool>)
    ensures |oks| == n
  {
    seq(n, _ => true)
  }

  /** How the physical write of a group ends. */
  datatype Fate = Lands | Breaks(kind: FailKind, recovery: bool)

  function Finish(w: Worker, result: GroupResult): Worker
    requires w.Ready?
  {
    Written(w.group, w.pre, w.stale, result, w.epoch)
  }

  /**
   The decided write lands the requests and sequences fixed at decision time. It is refused on
   a stale base, and then retried on the general path; a group that is not the decided one is
   never written.
   */
  function WriteDecided(s: State, fate: Fate): State
    requires s.worker.Ready? && s.worker.usePre && s.worker.pre.Some?
  {
    var w, pre := s.worker, s.worker.pre.value;
    var oks := AllTrue(|pre.requests|);
    if s.store.recovery then s.(worker := Finish(w, GroupErr(NeedsRecovery)))
    else if s.store.visible != pre.base then s.(worker := w.(usePre := false, stale := true))
    else if pre.requests != w.group then s.(worker := Finish(w, GroupErr(Refused)))
    else if fate.Breaks? then
      s.(store := s.store.(recovery := fate.recovery), worker := Finish(w, GroupErr(fate.kind)))
    else s.(store := Land(s.store, pre.requests, oks, pre.base), worker := Finish(w, GroupOk(Assign(oks, pre.base))))
  }

  /** The general write validates each request and numbers the survivors from the live base. */
  function WriteGeneral(s: State, oks: seq<bool>, fate: Fate): State
    requires s.worker.Ready? && !s.worker.usePre && |oks| == |s.worker.group|
  {
    var w, base := s.worker, s.store.visible;
    if w.group == [] then s.(worker := Finish(w, GroupErr(Refused)))
    else if s.store.recovery then s.(worker := Finish(w, GroupErr(NeedsRecovery)))
    else if fate.Breaks? then
      s.(store := s.store.(recovery := fate.recovery), worker := Finish(w, GroupErr(fate.kind)))
    else s.(store := Land(s.store, w.group, oks, base), worker := Finish(w, GroupOk(Assign(oks, base))))
  }

  /** Commits that reach the store outside the pipeline, such as a finalized prepared batch. */
  function CommitElsewhere(st: Store, facts: set<Boundary>): Store {
    st.(visible := st.visible + 1, owner := st.owner[st.visible + 1 := Elsewhere],
        written := st.written[st.visible + 1 := facts])
  }

  // ---- append worker: bookkeeping and publication -------------------------------------

  function ResultAt(g: GroupResult, i: nat): StoreResult
    requires g.GroupOk? ==> i < |g.results|
  {
    match g case GroupOk(rs) => rs[i] case GroupErr(kind) => Failed(kind)
  }

  function WithResults(results: map<nat, StoreResult>, group: seq<Request>, g: GroupResult): map<nat, StoreResult>
    requires g.GroupOk? ==> |group| <= |g.results|
  {
    if group == [] then results else
      var n := |group| - 1;
      WithResults(results, group[..n], g)[group[n].id := ResultAt(g, n)]
  }

  /** A slot survives its predecessor only on the generation and bases it was planned for. */
  function SettleSlot(sp: Speculation, w: Worker, visible: nat): Speculation
    requires w.Written?
  {
    if w.pre.Some? || sp.slot.None? then sp else
      match w.result
      case GroupErr(kind) => DropSlot(sp, ReasonFor(kind))
      case GroupOk(_) =>
        var slot := sp.slot.value;
        if slot.generation != sp.generation then DropSlot(sp, GenerationMismatch)
        else if slot.predecessorBase != sp.epochBase || slot.epoch.base != visible then DropSlot(sp, BaseMismatch)
        else sp
  }

  function CountStale(sp: Speculation, w: Worker): Speculation
    requires w.Written?
  {
    if !w.stale || w.group == [] then sp else
      sp.(m := Record(sp.m, BaseMismatch, |w.group|).(
            staleRequests := sp.m.staleRequests + |w.group|, staleEpochs := sp.m.staleEpochs + 1))
  }

  function Outcomes(w: Worker): (os: seq<Outcome>)
    requires w.Written? && (w.result.GroupOk? ==> |w.result.results| == |w.group|)
    ensures |os| == |w.group|
  {
    seq(|w.group|, i requires 0 <= i < |w.group| => ToOutcome(ResultAt(w.result, i)))
  }

  function One(o: Option<nat>): nat { if o.Some? then 1 else 0 }

  /** Results are fixed under the lock; publication of handled requests is still pending. */
  function Book(s: State): State
    requires s.worker.Written? && (s.worker.result.GroupOk? ==> |s.worker.result.results| == |s.worker.group|)
  {
    var w := s.worker;
    s.(spec := Requested(SettleSlot(CountStale(s.spec, w), w, s.store.visible)).(overlay := false),
       clients := s.clients.(results := WithResults(s.clients.results, w.group, w.result)),
       flow := s.flow.(active := s.flow.active - |w.group|, publications := s.flow.publications + One(w.epoch)),
       worker := Booked(w.group, Outcomes(w), w.epoch))
  }

  /** Outside the lock: one broadcast makes every outcome of the epoch visible. */
  function Publish(s: State): State
    requires s.worker.Booked? && (s.worker.epoch.Some? ==> s.worker.epoch.value < |s.clients.epochs|)
  {
    var w := s.worker;
    s.(clients := if w.epoch.None? then s.clients else
         s.clients.(epochs := s.clients.epochs[w.epoch.value := Some(w.outcomes)]),
       worker := Published(w.group, w.epoch))
  }

  function ReleaseGroup(s: State): State
    requires s.worker.Published?
  {
    var w, fl := s.worker, s.flow;
    s.(flow := fl.(publications := fl.publications - One(w.epoch), q := Released(fl.q, w.group),
                   done := fl.done + w.group),
       worker := Waiting)
  }

  // ---- shutdown -----------------------------------------------------------------------

  /** The predicate `DrainAppendCommitPipeline` waits for. */
  predicate Drained(s: State) {
    s.flow.q.requests == [] && s.flow.active == 0 && s.flow.publications == 0
  }

  function StopPipeline(s: State): State {
    if s.modes.stopping then s else
      s.(spec := DropSlot(s.spec, Shutdown), modes := s.modes.(stopping := true))
  }

  // ---- steps and runs -----------------------------------------------------------------

  datatype ClientStep =
    | AdmitStep(r: Request) | MarkCancelledStep(id: nat) | CancelStep(id: nat, at: Option<nat>)
    | ReportCancelledStep(id: nat) | RefuseStep(id: nat)

  datatype WorkerStep =
    | BeginCollectStep(generalMax: nat) | CollectStep(n: nat, limits: GroupLimits) | ExitStep | OverlayStep | BindStep

  datatype WriteStep =
    | CheckStep(readable: bool) | WriteDecidedStep(fate: Fate) | WriteGeneralStep(others: seq<bool>, fate: Fate)
    | BookStep | PublishStep | ReleaseStep

  datatype OtherStep =
    | SnapshotStep(n: nat, limits: GroupLimits, decided: bool) | InstallStep
    | ElsewhereStep(facts: set<Boundary>) | StopStep | QuiesceStep | SweepStep(id: nat)

  datatype Step = Client(c: ClientStep) | Select(w: WorkerStep) | Write(x: WriteStep) | Other(o: OtherStep)

  /** Only asynchronous submissions hold executor tickets, so only they are cancelled or swept. */
  ghost predicate HoldsTicket(s: State, id: nat) {
    forall i :: 0 <= i < |s.flow.admitted| && s.flow.admitted[i].id == id ==> s.flow.admitted[i].handled
  }

  ghost predicate ClientEnabled(b: QueueBounds, s: State, step: ClientStep) {
    match step
    case AdmitStep(r) => CanAdmit(b, s, r)
    case MarkCancelledStep(id) =>
      id !in s.clients.flagged && !s.modes.quiesced && HoldsTicket(s, id)
    case CancelStep(id, at) =>
      && id in s.clients.cancelling
      && (at.Some? ==> at.value < |s.flow.q.requests| && s.flow.q.requests[at.value].id == id)
      && (at.None? ==> forall i :: 0 <= i < |s.flow.q.requests| ==> s.flow.q.requests[i].id != id)
    case ReportCancelledStep(id) => id in s.clients.reporting
    case RefuseStep(id) =>
      !s.modes.quiesced && forall i :: 0 <= i < |s.flow.admitted| ==> s.flow.admitted[i].id != id
  }

  ghost function ClientApply(b: QueueBounds, s: State, step: ClientStep): State
    requires ClientEnabled(b, s, step)
  {
    match step
    case AdmitStep(r) => Admit(s, r)
    case MarkCancelledStep(id) => s.(clients := MarkCancelled(s.clients, id))
    case CancelStep(id, at) => CancelLocked(s, id, at)
    case ReportCancelledStep(id) => s.(clients := ReportCancelled(s.clients, id))
    case RefuseStep(id) => s.(clients := RefuseSubmission(s.clients, id))
  }

  ghost predicate SelectEnabled(s: State, step: WorkerStep) {
    match step
    case BeginCollectStep(_) => s.worker.Waiting? && s.flow.q.requests != []
    case CollectStep(n, limits) => s.worker.Collecting? && LongestAdmissible(s.flow.q.requests, n, limits)
    case ExitStep => s.worker.Waiting? && s.modes.stopping && s.flow.q.requests == []
    case OverlayStep => s.worker.Selected?
    case BindStep => s.worker.InFlight? && s.worker.bound < |s.worker.group|
  }

  ghost function SelectApply(s: State, step: WorkerStep): State
    requires SelectEnabled(s, step)
  {
    match step
    case BeginCollectStep(generalMax) => BeginCollect(s, generalMax)
    case CollectStep(n, _) => Collect(s, n)
    case ExitStep => WorkerExit(s)
    case OverlayStep => InstallOverlay(s)
    case BindStep => BindNext(s)
  }

  ghost predicate WriteEnabled(s: State, step: WriteStep) {
    match step
    case CheckStep(_) => s.worker.InFlight? && s.worker.bound == |s.worker.group|
    case WriteDecidedStep(_) => s.worker.Ready? && s.worker.usePre && s.worker.pre.Some?
    case WriteGeneralStep(others, _) => s.worker.Ready? && !s.worker.usePre && |others| == |s.worker.group|
    case BookStep => s.worker.Written? && (s.worker.result.GroupOk? ==> |s.worker.result.results| == |s.worker.group|)
    case PublishStep => s.worker.Booked? && (s.worker.epoch.Some? ==> s.worker.epoch.value < |s.clients.epochs|)
    case ReleaseStep => s.worker.Published?
  }

  ghost function WriteApply(s: State, step: WriteStep): State
    requires WriteEnabled(s, step)
  {
    match step
    case CheckStep(readable) => CheckPrediction(s, readable)
    case WriteDecidedStep(fate) => WriteDecided(s, fate)
    case WriteGeneralStep(others, fate) => WriteGeneral(s, Verdicts(s.store, s.worker.group, others), fate)
    case BookStep => Book(s)
    case PublishStep => Publish(s)
    case ReleaseStep => ReleaseGroup(s)
  }

  ghost predicate OtherEnabled(s: State, step: OtherStep) {
    match step
    case SnapshotStep(n, limits, decided) => CanSnapshot(s, n, limits, decided)
    case InstallStep => s.spec.preflight.Planned?
    case ElsewhereStep(_) => !s.store.recovery
    case StopStep => true
    case QuiesceStep => Drained(s) && s.clients.cancelling == {} && s.clients.reporting == {}
    case SweepStep(id) => s.modes.quiesced && HoldsTicket(s, id)
  }

  ghost function OtherApply(s: State, step: OtherStep): State
    requires OtherEnabled(s, step)
  {
    match step
    case SnapshotStep(n, _, decided) =>
      s.(spec := SnapshotPlan(s.spec, s.flow.q.requests, n, decided, Group(s.worker)))
    case InstallStep => s.(spec := InstallPlan(s.spec, s.flow.q.requests, s.clients.flagged))
    case ElsewhereStep(facts) => s.(store := CommitElsewhere(s.store, facts))
    case StopStep => StopPipeline(s)
    case QuiesceStep => s.(modes := s.modes.(quiesced := true))
    case SweepStep(id) => s.(clients := CompleteHandle(s.clients, id, Aborted(ShuttingDown)))
  }

  /** When each step can be taken; waits are guards. */
  ghost predicate Enabled(b: QueueBounds, s: State, step: Step) {
    match step
    case Client(c) => ClientEnabled(b, s, c)
    case Select(w) => SelectEnabled(s, w)
    case Write(x) => WriteEnabled(s, x)
    case Other(o) => OtherEnabled(s, o)
  }

  ghost function Apply(b: QueueBounds, s: State, step: Step): State
    requires Enabled(b, s, step)
  {
    match step
    case Client(c) => ClientApply(b, s, c)
    case Select(w) => SelectApply(s, w)
    case Write(x) => WriteApply(s, x)
    case Other(o) => OtherApply(s, o)
  }

  /** A run: any interleaving of enabled steps from an initial state. */
  ghost predicate Run(b: QueueBounds, trace: seq<State>, steps: seq<Step>) {
    && |trace| == |steps| + 1 && Init(trace[0])
    && forall i :: 0 <= i < |steps| ==> Enabled(b, trace[i], steps[i]) && trace[i + 1] == Apply(b, trace[i], steps[i])
  }

  // ---- what a client observes ---------------------------------------------------------

  /** What `CommitHandle::Wait` returns once it can return. */
  function WaitValue(c: Clients, id: nat): Option<Outcome> {
    var h := HandleOf(c, id);
    if h.bound.Some? then
      var (e, ordinal) := h.bound.value;
      if e < |c.epochs| && c.epochs[e].Some? && ordinal < |c.epochs[e].value|
      then Some(c.epochs[e].value[ordinal]) else None
    else h.result
  }

  /** The terminal result visible to the submitter of `r`. */
  function Terminal(c: Clients, r: Request): Option<Outcome> {
    if r.handled then WaitValue(c, r.id)
    else if r.id in c.results then Some(ToOutcome(c.results[r.id])) else None
  }
}
