/**
 The append queue guarded by `append_commit_mutex`: admission against the byte budgets,
 FIFO group collection through the linear conflict index, promotion, cancellation and
 release. Every method is one critical section (or the loop of one) and is tied to a
 function on `QueueState`, which the whole-pipeline model reuses.
 */
module AppendQueues {
  import opened Common
  import opened Requests

  /** Group limits in force when a group is collected. */
  datatype GroupLimits = GroupLimits(maxTransactions: nat, targetBytes: nat)

  datatype QueueBounds = QueueBounds(maxRequests: nat, maxBytes: nat)

  datatype QueueState = QueueState(requests: seq<Request>, count: int, queuedBytes: int, reservedBytes: int)

  /**
   A group of the first `n` queued requests respects the limits: at most the count limit,
   pairwise independent, and within the byte target unless it is a single request.
   */
  ghost predicate Admissible(rs: seq<Request>, n: nat, limits: GroupLimits) {
    && n <= |rs| && n <= limits.maxTransactions
    && PairwiseShare(rs[..n])
    && (n > 1 ==> SumBytes(rs[..n]) <= limits.targetBytes)
  }

  /** `n` is the length of the longest admissible prefix. */
  ghost predicate LongestAdmissible(rs: seq<Request>, n: nat, limits: GroupLimits) {
    Admissible(rs, n, limits) && (n < |rs| ==> !Admissible(rs, n + 1, limits))
  }

  lemma AdmissiblePrefixClosed(rs: seq<Request>, m: nat, n: nat, limits: GroupLimits)
    requires m <= n && Admissible(rs, n, limits)
    ensures Admissible(rs, m, limits)
  {
    assert rs[..n][..m] == rs[..m];
    SumBytesSplit(rs[..n], m);
  }

  /** Collection is determined by the queue and the limits, and takes something when it can. */
  lemma LongestAdmissibleUnique(rs: seq<Request>, m: nat, n: nat, limits: GroupLimits)
    requires LongestAdmissible(rs, m, limits) && LongestAdmissible(rs, n, limits)
    ensures m == n
    ensures rs != [] && limits.maxTransactions >= 1 ==> n >= 1
  {
    if m < n { AdmissiblePrefixClosed(rs, m + 1, n, limits); }
    if n < m { AdmissiblePrefixClosed(rs, n + 1, m, limits); }
  }

  function Remaining(limit: nat, used: int): int {
    limit - (if used < limit then used else limit)
  }

  predicate HasCapacity(q: QueueState, b: QueueBounds, r: Request) {
    && |q.requests| < b.maxRequests
    && r.bytes <= Remaining(b.maxBytes, q.reservedBytes)
    && r.bytes <= Remaining(b.maxBytes, q.queuedBytes)
  }

  function Pushed(q: QueueState, r: Request): QueueState {
    QueueState(q.requests + [r], q.count + 1, q.queuedBytes + r.bytes, q.reservedBytes + r.bytes)
  }

  /** The first `n` requests leave the queue but keep their reservation. */
  function Taken(q: QueueState, n: nat): QueueState
    requires n <= |q.requests|
  {
    QueueState(q.requests[n..], q.count - n, q.queuedBytes - SumBytes(q.requests[..n]), q.reservedBytes)
  }

  function Erased(q: QueueState, i: nat): QueueState
    requires i < |q.requests|
  {
    QueueState(q.requests[..i] + q.requests[i + 1..], q.count - 1,
               q.queuedBytes - q.requests[i].bytes, q.reservedBytes - q.requests[i].bytes)
  }

  function Released(q: QueueState, group: seq<Request>): QueueState {
    q.(reservedBytes := q.reservedBytes - SumBytes(group))
  }

  /** The counters agree with the queue and the groups still holding reservations. */
  ghost predicate Balanced(q: QueueState, b: QueueBounds, held: seq<Request>) {
    && q.count == |q.requests| && |q.requests| <= b.maxRequests
    && q.queuedBytes == SumBytes(q.requests)
    && q.reservedBytes == SumBytes(q.requests) + SumBytes(held) <= b.maxBytes
  }

  lemma PushedBalanced(q: QueueState, b: QueueBounds, held: seq<Request>, r: Request)
    requires Balanced(q, b, held) && HasCapacity(q, b, r)
    ensures Balanced(Pushed(q, r), b, held)
  {
    SumBytesPush(q.requests, r);
  }

  lemma TakenBalanced(q: QueueState, b: QueueBounds, n: nat)
    requires Balanced(q, b, []) && n <= |q.requests|
    ensures Balanced(Taken(q, n), b, q.requests[..n])
  {
    SumBytesSplit(q.requests, n);
  }

  lemma ErasedBalanced(q: QueueState, b: QueueBounds, held: seq<Request>, i: nat)
    requires Balanced(q, b, held) && i < |q.requests|
    ensures Balanced(Erased(q, i), b, held)
  {
    SumBytesErase(q.requests, i);
    SumBytesSplit(q.requests, i);
  }

  lemma ReleasedBalanced(q: QueueState, b: QueueBounds, held: seq<Request>)
    requires Balanced(q, b, held)
    ensures Balanced(Released(q, held), b, [])
  {
  }

  /** The union of several footprints, entry kind by entry kind. */
  ghost function Merged(members: seq<Footprint>): Footprint {
    if members == [] then Footprint({}, {}, {}, {}) else
      var rest, last := Merged(members[..|members| - 1]), members[|members| - 1];
      Footprint(rest.txnIds + last.txnIds, rest.writes + last.writes,
                rest.strictReads + last.strictReads, rest.edgeIds + last.edgeIds)
  }

  /** One test against the union decides all the pairwise tests. */
  lemma {:induction false} MergedShares(members: seq<Footprint>, candidate: Footprint)
    ensures CanShare(Merged(members), candidate) <==>
            forall i :: 0 <= i < |members| ==> CanShare(members[i], candidate)
  {
    if members != [] {
      var n := |members| - 1;
      MergedShares(members[..n], candidate);
      assert (forall i :: 0 <= i < |members| ==> CanShare(members[i], candidate)) <==>
             (forall i :: 0 <= i < n ==> CanShare(members[..n][i], candidate)) && CanShare(members[n], candidate);
    }
  }

  /** Epoch-local index: one set per kind of footprint entry instead of pairwise checks. */
  class ConflictIndex {
    var txnIds: set<nat>
    var writes: set<FactIdentity>
    var strictReads: set<FactIdentity>
    var edgeIds: set<EdgeKey>
    var size: nat
    ghost var members: seq<Footprint>

    ghost predicate Valid()
      reads this
    {
      Footprint(txnIds, writes, strictReads, edgeIds) == Merged(members) && size == |members|
    }

    constructor ()
      ensures Valid() && members == []
    {
      txnIds, writes, strictReads, edgeIds, size, members := {}, {}, {}, {}, 0, [];
    }

    /** The linear test on the accumulated sets decides exactly the pairwise rule. */
    method Insert(candidate: Footprint) returns (ok: bool)
      requires Valid()
      modifies this
      ensures Valid()
      ensures ok <==> MembersShare(old(members), candidate)
      ensures members == if ok then old(members) + [candidate] else old(members)
    {
      MergedShares(members, candidate);
      ok := candidate.txnIds !! txnIds && candidate.writes !! writes && candidate.writes !! strictReads
        && candidate.strictReads !! writes && candidate.edgeIds !! edgeIds;
      if ok {
        txnIds, writes := txnIds + candidate.txnIds, writes + candidate.writes;
        strictReads, edgeIds := strictReads + candidate.strictReads, edgeIds + candidate.edgeIds;
        size, members := size + 1, members + [candidate];
        assert members[..|members| - 1] == old(members);
      }
    }
  }

  ghost predicate MembersShare(members: seq<Footprint>, f: Footprint) {
    forall i :: 0 <= i < |members| ==> CanShare(members[i], f)
  }

  /** The index holds the footprints of the first `n` requests. */
  ghost predicate Indexed(members: seq<Footprint>, rs: seq<Request>, n: nat) {
    |members| == n <= |rs| && forall i :: 0 <= i < n ==> members[i] == rs[i].footprint
  }

  /** Testing the indexed footprints is testing the requests they came from. */
  lemma IndexedShares(members: seq<Footprint>, rs: seq<Request>, n: nat, r: Request)
    requires Indexed(members, rs, n)
    ensures MembersShare(members, r.footprint) <==> SharesWithAll(rs[..n], r.footprint)
    ensures n < |rs| && rs[n] == r ==> Indexed(members + [r.footprint], rs, n + 1)
  {
    var group := rs[..n];
    if MembersShare(members, r.footprint) {
      forall i | 0 <= i < |group| ensures CanShare(group[i].footprint, r.footprint) {
        assert group[i].footprint == members[i];
      }
    }
    if SharesWithAll(group, r.footprint) {
      forall i | 0 <= i < n ensures CanShare(members[i], r.footprint) { assert members[i] == group[i].footprint; }
    }
  }

  class AppendQueue {
    var requests: seq<Request>
    var queuedCount: int
    var queuedBytes: int
    var reservedBytes: int
    const bounds: QueueBounds

    constructor (b: QueueBounds)
      ensures View() == QueueState([], 0, 0, 0) && bounds == b && Balanced(View(), bounds, [])
    {
      requests, queuedCount, queuedBytes, reservedBytes, bounds := [], 0, 0, 0, b;
    }

    function View(): QueueState
      reads this
    {
      QueueState(requests, queuedCount, queuedBytes, reservedBytes)
    }

    /** Admission of one request, refused without a trace when a bound would be exceeded. */
    method TryAdmit(r: Request, ghost held: seq<Request>) returns (ok: bool)
      requires Balanced(View(), bounds, held)
      modifies this
      ensures ok == HasCapacity(old(View()), bounds, r)
      ensures View() == if ok then Pushed(old(View()), r) else old(View())
      ensures Balanced(View(), bounds, held)
    {
      ok := |requests| < bounds.maxRequests
        && r.bytes <= Remaining(bounds.maxBytes, reservedBytes)
        && r.bytes <= Remaining(bounds.maxBytes, queuedBytes);
      if ok {
        PushedBalanced(View(), bounds, held, r);
        requests := requests + [r];
        queuedCount := queuedCount + 1;
        queuedBytes := queuedBytes + r.bytes;
        reservedBytes := reservedBytes + r.bytes;
      }
    }

    /** Pops one request; the caller's group keeps the reservation. */
    method PopFront() returns (r: Request)
      requires requests != []
      modifies this
      ensures r == old(requests)[0] && View() == Taken(old(View()), 1)
    {
      r := requests[0];
      SumBytesPush([], r);
      assert requests[..1] == [r];
      requests := requests[1..];
      queuedCount := queuedCount - 1;
      queuedBytes := queuedBytes - r.bytes;
    }

    /** The first `n` requests of `q` are taken, indexed and summed, and form an admissible group. */
    ghost predicate Gathered(index: ConflictIndex, batchBytes: nat, q: QueueState, n: nat, limits: GroupLimits)
      reads this, index
    {
      && Admissible(q.requests, n, limits) && View() == Taken(q, n)
      && batchBytes == SumBytes(q.requests[..n]) && index.Valid() && Indexed(index.members, q.requests, n)
    }

    /** One round of the collection loop: takes the next request if the longer group is still admissible. */
    method CollectNext(limits: GroupLimits, index: ConflictIndex, batchBytes: nat, ghost q: QueueState, ghost n: nat)
      returns (taken: bool, candidate: Request)
      requires Gathered(index, batchBytes, q, n, limits) && n < |q.requests| && n < limits.maxTransactions
      modifies this, index
      ensures candidate == q.requests[n]
      ensures taken <==> Admissible(q.requests, n + 1, limits)
      ensures taken ==> Gathered(index, batchBytes + candidate.bytes, q, n + 1, limits)
      ensures !taken ==> View() == Taken(q, n)
    {
      CandidateDecides(q, n, limits);
      candidate := requests[0];
      IndexedShares(index.members, q.requests, n, candidate);
      var first := index.size == 0;
      taken := first || (batchBytes <= limits.targetBytes && candidate.bytes <= limits.targetBytes - batchBytes);
      if !taken { return; }
      taken := index.Insert(candidate.footprint);
      if !taken { return; }
      TakenTwice(q, n);
      var r := PopFront();
    }

    /** The loop of the general path, on an empty index. */
    method CollectLoop(limits: GroupLimits, index: ConflictIndex, ghost q: QueueState) returns (group: seq<Request>)
      requires Gathered(index, 0, q, 0, limits)
      modifies this, index
      ensures LongestAdmissible(q.requests, |group|, limits)
      ensures group == q.requests[..|group|] && View() == Taken(q, |group|)
    {
      var maximum := if |requests| < limits.maxTransactions then |requests| else limits.maxTransactions;
      var batchBytes: nat, i := 0, 0;
      group := [];
      while i < maximum
        invariant 0 <= i <= maximum && |group| == i && group == q.requests[..i]
        invariant Gathered(index, batchBytes, q, i, limits)
      {
        var taken, candidate := CollectNext(limits, index, batchBytes, q, i);
        if !taken { return; }
        batchBytes, i, group := batchBytes + candidate.bytes, i + 1, group + [candidate];
      }
    }

    /** General-path collection: pops the longest admissible prefix, one request at a time. */
    method Collect(limits: GroupLimits) returns (group: seq<Request>)
      requires Balanced(View(), bounds, [])
      modifies this
      ensures LongestAdmissible(old(requests), |group|, limits)
      ensures group == old(requests)[..|group|] && View() == Taken(old(View()), |group|)
      ensures Balanced(View(), bounds, group)
    {
      ghost var q := View();
      var index := new ConflictIndex();
      TakenNone(q);
      group := CollectLoop(limits, index, q);
      TakenBalanced(q, bounds, |group|);
    }

    /** Promotion pops exactly the predicted prefix. */
    method Promote(planned: seq<Request>) returns (group: seq<Request>)
      requires Balanced(View(), bounds, []) && planned <= requests
      modifies this
      ensures group == planned && View() == Taken(old(View()), |planned|)
      ensures Balanced(View(), bounds, group)
    {
      ghost var q := View();
      group := [];
      assert q.requests[..0] == [] && q.requests[0..] == q.requests;
      for index := 0 to |planned|
        invariant group == q.requests[..index] && View() == Taken(q, index)
      {
        TakenTwice(q, index);
        assert q.requests[..index + 1] == q.requests[..index] + [q.requests[index]];
        var r := PopFront();
        group := group + [r];
      }
      TakenBalanced(q, bounds, |planned|);
    }

    /** Erases a queued request; a request that is not queued leaves the queue alone. */
    method Cancel(id: nat, ghost held: seq<Request>) returns (removed: bool)
      requires Balanced(View(), bounds, held)
      modifies this
      ensures removed <==> exists i :: 0 <= i < |old(requests)| && old(requests)[i].id == id
      ensures !removed ==> View() == old(View())
      ensures removed ==> exists i :: 0 <= i < |old(requests)| && old(requests)[i].id == id
                                   && View() == Erased(old(View()), i)
      ensures Balanced(View(), bounds, held)
    {
      removed := false;
      for i := 0 to |requests|
        invariant View() == old(View()) && !removed
        invariant forall k :: 0 <= k < i ==> requests[k].id != id
      {
        if requests[i].id == id {
          ErasedBalanced(View(), bounds, held, i);
          queuedBytes := queuedBytes - requests[i].bytes;
          reservedBytes := reservedBytes - requests[i].bytes;
          requests := requests[..i] + requests[i + 1..];
          queuedCount := queuedCount - 1;
          removed := true;
          return;
        }
      }
    }

    /** After publication the whole group's reservation is returned at once. */
    method Release(group: seq<Request>)
      requires Balanced(View(), bounds, group)
      modifies this
      ensures View() == Released(old(View()), group) && Balanced(View(), bounds, [])
    {
      var releasedBytes := 0;
      assert group[..0] == [];
      for i := 0 to |group|
        invariant View() == old(View()) && releasedBytes == SumBytes(group[..i])
      {
        assert group[..i + 1][..i] == group[..i];
        releasedBytes := releasedBytes + group[i].bytes;
      }
      assert group[..|group|] == group;
      reservedBytes := reservedBytes - releasedBytes;
    }
  }

  /** What the loop tests on the next candidate is exactly what the longer group needs. */
  lemma CandidateDecides(q: QueueState, n: nat, limits: GroupLimits)
    requires n < |q.requests| && n < limits.maxTransactions && Admissible(q.requests, n, limits)
    ensures Taken(q, n).requests[0] == q.requests[n]
    ensures q.requests[..n + 1] == q.requests[..n] + [q.requests[n]]
    ensures SumBytes(q.requests[..n + 1]) == SumBytes(q.requests[..n]) + q.requests[n].bytes
    ensures Admissible(q.requests, n + 1, limits) <==>
      && (n == 0 || SumBytes(q.requests[..n]) + q.requests[n].bytes <= limits.targetBytes)
      && SharesWithAll(q.requests[..n], q.requests[n].footprint)
  {
    assert q.requests[..n + 1] == q.requests[..n] + [q.requests[n]];
    SumBytesPush(q.requests[..n], q.requests[n]);
    PairwisePush(q.requests[..n], q.requests[n]);
  }

  lemma TakenNone(q: QueueState)
    ensures Taken(q, 0) == q && q.requests[..0] == []
  {
    assert q.requests[0..] == q.requests;
  }

  lemma TakenTwice(q: QueueState, n: nat)
    requires n < |q.requests|
    ensures Taken(Taken(q, n), 1) == Taken(q, n + 1)
  {
    var rs := q.requests;
    assert rs[n..][1..] == rs[n + 1..];
    assert rs[n..][..1] == [rs[n]];
    assert rs[..n + 1] == rs[..n] + [rs[n]];
    SumBytesPush(rs[..n], rs[n]);
  }
}
