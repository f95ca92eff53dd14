/**
 The bounded asynchronous submission executor: a mailbox with request and byte bounds, a
 table of live tickets, worker threads, cancellation, external release and shutdown.
 */
module SubmissionExecutor {

  datatype Status = Ok | InvalidArgument | ShutdownInProgress | ResourceExhausted

  /** `complete` says that the hand-off, failure and release callbacks are all present. */
  datatype Ticket = Ticket(complete: bool, bytes: nat, releaseAfterHandoff: bool)

  datatype Bounds = Bounds(maxRequests: nat, maxBytes: nat)

  /** The fields guarded by the executor's mutex. */
  datatype Mailbox = Mailbox(
    queue: seq<nat>, tickets: map<nat, Ticket>, cancelled: set<nat>, nextId: nat,
    reservedRequests: int, reservedBytes: int, started: bool, stopping: bool)

  /** Total bytes of the live tickets with ids below `n`. */
  ghost function LiveBytes(tickets: map<nat, Ticket>, n: nat): nat {
    if n == 0 then 0 else LiveBytes(tickets, n - 1) + if n - 1 in tickets then tickets[n - 1].bytes else 0
  }

  lemma {:induction false} LiveBytesAgree(a: map<nat, Ticket>, b: map<nat, Ticket>, n: nat)
    requires forall k :: 0 <= k < n ==> (k in a <==> k in b) && (k in a ==> a[k] == b[k])
    ensures LiveBytes(a, n) == LiveBytes(b, n)
  {
    if n > 0 { LiveBytesAgree(a, b, n - 1); }
  }

  lemma {:induction false} LiveBytesErase(tickets: map<nat, Ticket>, id: nat, n: nat)
    requires id in tickets && id < n
    ensures LiveBytes(tickets - {id}, n) == LiveBytes(tickets, n) - tickets[id].bytes
  {
    if id < n - 1 {
      LiveBytesErase(tickets, id, n - 1);
    } else {
      LiveBytesAgree(tickets - {id}, tickets, n - 1);
    }
  }

  /** Reservations are exactly the live tickets, and stay within the mailbox bounds. */
  ghost predicate Reserved(m: Mailbox, b: Bounds) {
    && m.nextId >= 1
    && (forall k :: k in m.tickets ==> 1 <= k < m.nextId)
    && m.reservedRequests == |m.tickets| <= b.maxRequests
    && m.reservedBytes == LiveBytes(m.tickets, m.nextId) <= b.maxBytes
  }

  function Admission(m: Mailbox, b: Bounds, t: Ticket): Status {
    if !t.complete || t.bytes == 0 then InvalidArgument
    else if !m.started || m.stopping then ShutdownInProgress
    else if m.reservedRequests >= b.maxRequests then ResourceExhausted
    else if t.bytes > b.maxBytes - (if b.maxBytes < m.reservedBytes then b.maxBytes else m.reservedBytes)
    then ResourceExhausted
    else Ok
  }

  function Accept(m: Mailbox, t: Ticket): Mailbox {
    m.(queue := m.queue + [m.nextId], tickets := m.tickets[m.nextId := t], nextId := m.nextId + 1,
       reservedRequests := m.reservedRequests + 1, reservedBytes := m.reservedBytes + t.bytes)
  }

  function Released(m: Mailbox, id: nat): Mailbox {
    if id !in m.tickets then m else
      m.(tickets := m.tickets - {id}, reservedRequests := m.reservedRequests - 1,
         reservedBytes := m.reservedBytes - m.tickets[id].bytes)
  }

  function Cancelled(m: Mailbox, id: nat): Mailbox {
    if id !in m.tickets then m else m.(cancelled := m.cancelled + {id})
  }

  lemma AcceptReserved(m: Mailbox, b: Bounds, t: Ticket)
    requires Reserved(m, b) && Admission(m, b, t) == Ok
    ensures Reserved(Accept(m, t), b)
  {
    AcceptBytes(m.tickets, m.nextId, t);
    AcceptCount(m.tickets, m.nextId, t);
  }

  lemma AcceptCount(tickets: map<nat, Ticket>, id: nat, t: Ticket)
    requires id !in tickets
    ensures |tickets[id := t]| == |tickets| + 1
  {
    assert tickets[id := t].Keys == tickets.Keys + {id};
  }

  lemma AcceptBytes(tickets: map<nat, Ticket>, id: nat, t: Ticket)
    requires id !in tickets
    ensures LiveBytes(tickets[id := t], id + 1) == LiveBytes(tickets, id) + t.bytes
  {
    LiveBytesAgree(tickets[id := t], tickets, id);
  }

  lemma ReleasedReserved(m: Mailbox, b: Bounds, id: nat)
    requires Reserved(m, b)
    ensures Reserved(Released(m, id), b)
  {
    if id in m.tickets {
      LiveBytesErase(m.tickets, id, m.nextId);
      assert (m.tickets - {id}).Keys == m.tickets.Keys - {id};
    }
  }

  class AsyncSubmissionExecutor {
    var queue: seq<nat>
    var tickets: map<nat, Ticket>
    var cancelled: set<nat>
    var nextTicketId: nat
    var reservedRequests: int
    var reservedBytes: int
    var started: bool
    var stopping: bool
    const workerCount: nat
    const bounds: Bounds

    constructor (workers: nat, b: Bounds)
      ensures View() == Mailbox([], map[], {}, 1, 0, 0, false, false) && Reserved(View(), bounds)
      ensures workerCount == workers && bounds == b
    {
      queue, tickets, cancelled, nextTicketId, reservedRequests, reservedBytes := [], map[], {}, 1, 0, 0;
      started, stopping, workerCount, bounds := false, false, workers, b;
      new;
      LiveBytesEmpty(1);
    }

    function View(): Mailbox
      reads this
    {
      Mailbox(queue, tickets, cancelled, nextTicketId, reservedRequests, reservedBytes, started, stopping)
    }

    method Start() returns (status: Status)
      modifies this
      ensures status == Ok <==> !old(started) && workerCount > 0 && bounds.maxRequests > 0 && bounds.maxBytes > 0
      ensures View() == old(View()).(started := old(started) || status == Ok)
    {
      if started || workerCount == 0 || bounds.maxRequests == 0 || bounds.maxBytes == 0 {
        return InvalidArgument;
      }
      started := true;
      status := Ok;
    }

    /** A refused submission leaves the mailbox untouched. */
    method TrySubmit(t: Ticket) returns (status: Status, id: nat)
      requires Reserved(View(), bounds)
      modifies this
      ensures status == Admission(old(View()), bounds, t)
      ensures View() == if status == Ok then Accept(old(View()), t) else old(View())
      ensures status == Ok ==> id == old(nextTicketId) && id !in old(tickets)
      ensures Reserved(View(), bounds)
    {
      id := 0;
      if !t.complete || t.bytes == 0 { return InvalidArgument, 0; }
      if !started || stopping { return ShutdownInProgress, 0; }
      if reservedRequests >= bounds.maxRequests { return ResourceExhausted, 0; }
      if t.bytes > bounds.maxBytes - (if bounds.maxBytes < reservedBytes then bounds.maxBytes else reservedBytes) {
        return ResourceExhausted, 0;
      }
      AcceptReserved(View(), bounds, t);
      id := nextTicketId;
      nextTicketId := nextTicketId + 1;
      tickets := tickets[id := t];
      reservedRequests := reservedRequests + 1;
      reservedBytes := reservedBytes + t.bytes;
      queue := queue + [id];
      status := Ok;
    }

    method Cancel(id: nat)
      modifies this
      ensures View() == Cancelled(old(View()), id)
    {
      if id in tickets { cancelled := cancelled + {id}; }
    }

    /** Only the caller that finds the ticket in the table runs its release callback. */
    method Release(id: nat) returns (runsCallback: bool)
      requires Reserved(View(), bounds)
      modifies this
      ensures runsCallback <==> id in old(tickets)
      ensures View() == Released(old(View()), id) && Reserved(View(), bounds)
    {
      ReleasedReserved(View(), bounds, id);
      runsCallback := id in tickets;
      if runsCallback {
        reservedRequests := reservedRequests - 1;
        reservedBytes := reservedBytes - tickets[id].bytes;
        tickets := tickets - {id};
      }
    }

    /** First critical section of `Stop`: everything still queued becomes pending failure. */
    method BeginStop() returns (first: bool, pending: seq<nat>)
      modifies this
      ensures first <==> old(started) && !old(stopping)
      ensures pending == if first then old(queue) else []
      ensures View() == if first then old(View()).(stopping := true, queue := []) else old(View())
    {
      pending := [];
      first := started && !stopping;
      if first {
        stopping := true;
        while queue != []
          invariant pending + queue == old(queue)
          invariant View() == old(View()).(stopping := true, queue := queue)
          decreases |queue|
        {
          pending := pending + [queue[0]];
          queue := queue[1..];
        }
      }
    }
  }

  // ---- all interleavings --------------------------------------------------------------

  /** A worker with a ticket: before it has read the cancelled bit, or inside the hand-off. */
  datatype WorkerPc = Popped(id: nat) | HandingOff(id: nat)

  datatype StopPc = NotStopped | Failing(pending: seq<nat>) | Sweeping(remaining: set<nat>) | Stopped

  /** Who took a ticket out of the table and still has to run its release callback. */
  datatype Releaser = ByWorker(worker: nat) | ByStop | External

  /**
   `taken` logs the tickets in the order they left the mailbox, `removed` in the order they
   left the table, and `ran` every run of a release callback, which happens outside the lock.
   */
  datatype State = State(
    m: Mailbox, workers: map<nat, WorkerPc>, exited: set<nat>, stop: StopPc,
    taken: seq<nat>, removed: seq<nat>, running: map<nat, Releaser>, ran: seq<nat>)

  datatype Step =
    | Start
    | Submit(t: Ticket)
    | Cancel(id: nat)
    | ReleaseNow(id: nat)                 // WAL-durable callback or cancelled request
    | RunCallback(id: nat)
    | Take(worker: nat)
    | CheckCancelled(worker: nat)
    | FinishHandoff(worker: nat, ok: bool)
    | WorkerExit(worker: nat)
    | BeginStop
    | FailPending
    | Join
    | Sweep(id: nat)
    | EndStop

  const EMPTY := Mailbox([], map[], {}, 1, 0, 0, false, false)

  ghost predicate Init(s: State) { s == State(EMPTY, map[], {}, NotStopped, [], [], map[], []) }

  /** Takes the ticket out of the table if it is still there; the callback is then owed by `who`. */
  function Remove(s: State, id: nat, who: Releaser): State {
    if id !in s.m.tickets then s
    else s.(m := Released(s.m, id), removed := s.removed + [id], running := s.running[id := who])
  }

  /** Nobody of this kind is between removing a ticket and running its callback. */
  ghost predicate NothingOwed(running: map<nat, Releaser>, who: Releaser) {
    forall id :: id in running ==> running[id] != who
  }

  ghost predicate Idle(s: State, workers: nat, w: nat) {
    w < workers && w !in s.workers && w !in s.exited && NothingOwed(s.running, ByWorker(w))
  }

  ghost predicate Enabled(workers: nat, s: State, step: Step) {
    match step
    case Start => !s.m.started
    case Submit(_) => true
    case Cancel(_) => true
    case ReleaseNow(_) => true
    case RunCallback(id) => id in s.running
    case Take(w) => s.m.started && Idle(s, workers, w) && s.m.queue != []
    case CheckCancelled(w) => w in s.workers && s.workers[w].Popped?
    case FinishHandoff(w, _) => w in s.workers && s.workers[w].HandingOff?
    case WorkerExit(w) => Idle(s, workers, w) && s.m.stopping && s.m.queue == []
    case BeginStop => s.m.started && !s.m.stopping && s.stop.NotStopped?
    case FailPending => s.stop.Failing? && s.stop.pending != [] && NothingOwed(s.running, ByStop)
    case Join =>
      && s.stop.Failing? && s.stop.pending == [] && NothingOwed(s.running, ByStop)
      && forall w :: 0 <= w < workers ==> w in s.exited
    case Sweep(id) => s.stop.Sweeping? && id in s.stop.remaining && NothingOwed(s.running, ByStop)
    case EndStop => s.stop.Sweeping? && s.stop.remaining == {} && NothingOwed(s.running, ByStop)
  }

  ghost function Apply(workers: nat, b: Bounds, s: State, step: Step): State
    requires Enabled(workers, s, step)
  {
    match step
    case Start => s.(m := s.m.(started := true))
    case Submit(t) => if Admission(s.m, b, t) == Ok then s.(m := Accept(s.m, t)) else s
    case Cancel(id) => s.(m := Cancelled(s.m, id))
    case ReleaseNow(id) => Remove(s, id, External)
    case RunCallback(id) => s.(running := s.running - {id}, ran := s.ran + [id])
    case Take(w) =>
      s.(workers := s.workers[w := Popped(s.m.queue[0])], m := s.m.(queue := s.m.queue[1..]),
         taken := s.taken + [s.m.queue[0]])
    case CheckCancelled(w) =>
      var id := s.workers[w].id;
      if id in s.m.cancelled then Remove(s.(workers := s.workers - {w}), id, ByWorker(w))
      else s.(workers := s.workers[w := HandingOff(id)])
    case FinishHandoff(w, ok) =>
      var id, s1 := s.workers[w].id, s.(workers := s.workers - {w});
      if !ok || (id in s.m.tickets && s.m.tickets[id].releaseAfterHandoff) then Remove(s1, id, ByWorker(w)) else s1
    case WorkerExit(w) => s.(exited := s.exited + {w})
    case BeginStop => s.(m := s.m.(stopping := true, queue := []), stop := Failing(s.m.queue))
    case FailPending =>
      Remove(s, s.stop.pending[0], ByStop).(
        stop := Failing(s.stop.pending[1..]), taken := s.taken + [s.stop.pending[0]])
    case Join => s.(stop := Sweeping(s.m.tickets.Keys))
    case Sweep(id) => Remove(s, id, ByStop).(stop := Sweeping(s.stop.remaining - {id}))
    case EndStop => s.(stop := Stopped)
  }

  ghost predicate Run(workers: nat, b: Bounds, trace: seq<State>, steps: seq<Step>) {
    && |trace| == |steps| + 1 && Init(trace[0])
    && forall i :: 0 <= i < |steps| ==>
         Enabled(workers, trace[i], steps[i]) && trace[i + 1] == Apply(workers, b, trace[i], steps[i])
  }

  // ---- the invariant ----------------------------------------------------------------------

  ghost predicate NoDuplicates(ids: seq<nat>) { forall i, j :: 0 <= i < j < |ids| ==> ids[i] != ids[j] }

  /** Every accepted ticket is either live or removed, and none was removed twice. */
  ghost predicate RemovedOnce(m: Mailbox, removed: seq<nat>) {
    NoDuplicates(removed) && forall k :: k in removed <==> 1 <= k < m.nextId && k !in m.tickets
  }

  /** The callback of a removed ticket has run once or is still owed by whoever removed it. */
  ghost predicate CallbacksOnce(removed: seq<nat>, running: map<nat, Releaser>, ran: seq<nat>) {
    && NoDuplicates(ran) && (forall k :: k in ran ==> k !in running)
    && (forall k :: k in removed <==> k in ran || k in running)
  }

  ghost predicate StopSound(s: State) {
    && (s.m.stopping <==> !s.stop.NotStopped?)
    && (s.stop.Sweeping? ==> s.m.tickets.Keys <= s.stop.remaining)
    && (s.stop.Stopped? ==> s.m.tickets == map[] && NothingOwed(s.running, ByStop))
  }

  /** Threads that are gone owe nothing. */
  ghost predicate WorkersSound(workers: nat, s: State) {
    && (forall w :: w in s.workers ==> w < workers && w !in s.exited)
    && (forall id :: id in s.running && s.running[id].ByWorker? ==>
          s.running[id].worker < workers && s.running[id].worker !in s.exited)
    && (s.stop.Sweeping? || s.stop.Stopped? ==> forall w :: 0 <= w < workers ==> w in s.exited)
  }

  function Waiting(s: State): seq<nat> {
    if s.stop.Failing? then s.stop.pending else s.m.queue
  }

  /** The list 1, 2, ..., n - 1. */
  ghost predicate CountsTo(ids: seq<nat>, n: nat) {
    |ids| + 1 == n && forall k :: 0 <= k < |ids| ==> ids[k] == k + 1
  }

  lemma MoveHead(left: seq<nat>, right: seq<nat>, n: nat)
    requires CountsTo(left + right, n) && right != []
    ensures CountsTo(left + [right[0]] + right[1..], n) && 1 <= right[0] < n
  {
    assert left + [right[0]] + right[1..] == left + right;
    assert (left + right)[|left|] == right[0];
  }

  lemma PushTail(left: seq<nat>, right: seq<nat>, n: nat)
    requires CountsTo(left + right, n)
    ensures CountsTo(left + (right + [n]), n + 1)
  {
    assert left + (right + [n]) == left + right + [n];
  }

  /** Tickets leave the mailbox in submission order, each once, whether a worker or `Stop` takes them. */
  ghost predicate InOrder(s: State) {
    && CountsTo(s.taken + Waiting(s), s.m.nextId)
    && (s.m.stopping ==> s.m.queue == [])
  }

  ghost predicate TableInv(b: Bounds, s: State) {
    && Reserved(s.m, b) && RemovedOnce(s.m, s.removed)
    && CallbacksOnce(s.removed, s.running, s.ran)
  }

  ghost predicate Inv(workers: nat, b: Bounds, s: State) {
    TableInv(b, s) && StopSound(s) && WorkersSound(workers, s) && InOrder(s)
  }

  // ---- every step keeps it ------------------------------------------------------------------

  lemma {:induction false} RemoveKeepsTable(b: Bounds, s: State, id: nat, who: Releaser)
    requires TableInv(b, s)
    ensures TableInv(b, Remove(s, id, who)) && id !in Remove(s, id, who).m.tickets
  {
    if id in s.m.tickets {
      ReleasedReserved(s.m, b, id);
      assert id !in s.removed;
    }
  }

  lemma {:induction false} SubmitKeepsTable(b: Bounds, s: State, t: Ticket)
    requires TableInv(b, s) && Admission(s.m, b, t) == Ok
    ensures TableInv(b, s.(m := Accept(s.m, t)))
  {
    AcceptReserved(s.m, b, t);
  }

  lemma {:induction false} CallbackKeepsTable(b: Bounds, s: State, id: nat)
    requires TableInv(b, s) && id in s.running
    ensures TableInv(b, s.(running := s.running - {id}, ran := s.ran + [id]))
  {
    assert id in s.removed && id !in s.ran;
  }

  lemma {:induction false} StepKeepsTable(workers: nat, b: Bounds, s: State, step: Step)
    requires TableInv(b, s) && Enabled(workers, s, step)
    ensures TableInv(b, Apply(workers, b, s, step))
  {
    match step
    case Submit(t) => if Admission(s.m, b, t) == Ok { SubmitKeepsTable(b, s, t); }
    case ReleaseNow(id) => RemoveKeepsTable(b, s, id, External);
    case RunCallback(id) => CallbackKeepsTable(b, s, id);
    case CheckCancelled(w) => RemoveKeepsTable(b, s.(workers := s.workers - {w}), s.workers[w].id, ByWorker(w));
    case FinishHandoff(w, _) => RemoveKeepsTable(b, s.(workers := s.workers - {w}), s.workers[w].id, ByWorker(w));
    case FailPending => RemoveKeepsTable(b, s, s.stop.pending[0], ByStop);
    case Sweep(id) => RemoveKeepsTable(b, s, id, ByStop);
    case _ =>
  }

  lemma {:induction false} StepKeepsStop(workers: nat, b: Bounds, s: State, step: Step)
    requires StopSound(s) && Enabled(workers, s, step)
    ensures StopSound(Apply(workers, b, s, step))
  {
    match step
    case Submit(t) =>
    case CheckCancelled(_) =>
    case FinishHandoff(_, _) =>
    case _ =>
  }

  lemma {:induction false} StepKeepsWorkers(workers: nat, b: Bounds, s: State, step: Step)
    requires WorkersSound(workers, s) && Enabled(workers, s, step)
    ensures WorkersSound(workers, Apply(workers, b, s, step))
  {
    match step
    case CheckCancelled(_) =>
    case FinishHandoff(_, _) =>
    case WorkerExit(_) =>
    case _ =>
  }

  lemma {:induction false} StepKeepsOrder(workers: nat, b: Bounds, s: State, step: Step)
    requires InOrder(s) && StopSound(s) && Enabled(workers, s, step)
    ensures InOrder(Apply(workers, b, s, step))
  {
    match step
    case Submit(t) => if Admission(s.m, b, t) == Ok { PushTail(s.taken, s.m.queue, s.m.nextId); }
    case Take(_) => MoveHead(s.taken, s.m.queue, s.m.nextId);
    case FailPending => MoveHead(s.taken, s.stop.pending, s.m.nextId);
    case _ =>
  }

  lemma {:induction false} StepKeepsInv(workers: nat, b: Bounds, s: State, step: Step)
    requires Inv(workers, b, s) && Enabled(workers, s, step)
    ensures Inv(workers, b, Apply(workers, b, s, step))
  {
    StepKeepsTable(workers, b, s, step);
    StepKeepsStop(workers, b, s, step);
    StepKeepsWorkers(workers, b, s, step);
    StepKeepsOrder(workers, b, s, step);
  }

  lemma {:induction false} InitInv(workers: nat, b: Bounds, s: State)
    requires Init(s)
    ensures Inv(workers, b, s)
  {
    LiveBytesEmpty(1);
  }

  lemma {:induction false} RunInv(workers: nat, b: Bounds, trace: seq<State>, steps: seq<Step>, i: nat)
    requires Run(workers, b, trace, steps) && i < |trace|
    ensures Inv(workers, b, trace[i])
  {
    if i == 0 {
      InitInv(workers, b, trace[0]);
    } else {
      RunInv(workers, b, trace, steps, i - 1);
      StepKeepsInv(workers, b, trace[i - 1], steps[i - 1]);
    }
  }

  lemma {:induction false} LiveBytesEmpty(n: nat)
    ensures LiveBytes(map[], n) == 0
  {
    if n > 0 { LiveBytesEmpty(n - 1); }
  }

  // ---- what it means ------------------------------------------------------------------------

  /** Conservation in every state of every run. */
  lemma ReservationsMatchTickets(workers: nat, b: Bounds, trace: seq<State>, steps: seq<Step>, i: nat)
    requires Run(workers, b, trace, steps) && i < |trace|
    ensures var m := trace[i].m;
            && 0 <= m.reservedRequests == |m.tickets| <= b.maxRequests
            && 0 <= m.reservedBytes == LiveBytes(m.tickets, m.nextId) <= b.maxBytes
  {
    RunInv(workers, b, trace, steps, i);
  }

  /** No callback runs twice, and only for an accepted ticket that has left the table. */
  lemma CallbacksRunOnce(workers: nat, b: Bounds, trace: seq<State>, steps: seq<Step>, i: nat)
    requires Run(workers, b, trace, steps) && i < |trace|
    ensures NoDuplicates(trace[i].ran) && NoDuplicates(trace[i].removed)
    ensures forall k :: k in trace[i].ran ==> 1 <= k < trace[i].m.nextId && k !in trace[i].m.tickets
  {
    RunInv(workers, b, trace, steps, i);
  }

  /**
   After `Stop` nothing is reserved and every accepted ticket has left the table exactly once.
   Its callback has run exactly once, unless a thread outside the executor removed it and is
   just about to run it.
   */
  lemma StopReleasesEverythingOnce(workers: nat, b: Bounds, trace: seq<State>, steps: seq<Step>, i: nat)
    requires Run(workers, b, trace, steps) && i < |trace| && trace[i].stop.Stopped?
    ensures trace[i].m.reservedRequests == 0 && trace[i].m.reservedBytes == 0
    ensures NoDuplicates(trace[i].removed) && NoDuplicates(trace[i].ran)
    ensures forall k :: 1 <= k < trace[i].m.nextId <==> k in trace[i].removed
    ensures forall k :: 1 <= k < trace[i].m.nextId ==>
              if k in trace[i].running then k !in trace[i].ran && trace[i].running[k] == External else k in trace[i].ran
  {
    RunInv(workers, b, trace, steps, i);
    LiveBytesEmpty(trace[i].m.nextId);
  }

  /** Every accepted ticket leaves the mailbox at most once, in submission order; all have left after `Stop`. */
  lemma SubmissionOrder(workers: nat, b: Bounds, trace: seq<State>, steps: seq<Step>, i: nat)
    requires Run(workers, b, trace, steps) && i < |trace|
    ensures forall k :: 0 <= k < |trace[i].taken| ==> trace[i].taken[k] == k + 1
    ensures trace[i].stop.Sweeping? || trace[i].stop.Stopped? ==> |trace[i].taken| == trace[i].m.nextId - 1
  {
    RunInv(workers, b, trace, steps, i);
    var s := trace[i];
    forall k | 0 <= k < |s.taken| ensures s.taken[k] == k + 1 {
      assert (s.taken + Waiting(s))[k] == k + 1;
    }
  }
}
