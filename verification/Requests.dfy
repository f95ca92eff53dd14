/**
 The requests that flow through Cedar's append pipeline: commit footprints, the
 pairwise rule that says when two requests may share one physical write, and the
 list facts (byte sums, cancellation filters) the pipeline proofs are built on.
 */
module Requests {
  import opened Common

  type FactIdentity = (nat, nat, nat, nat)
  type EdgeKey = (nat, nat)

  datatype Footprint = Footprint(
    txnIds: set<nat>, writes: set<FactIdentity>, strictReads: set<FactIdentity>, edgeIds: set<EdgeKey>)

  /** Two requests may go into one group exactly when neither can observe the other. */
  predicate CanShare(left: Footprint, right: Footprint) {
    && left.txnIds !! right.txnIds
    && left.writes !! right.writes
    && left.writes !! right.strictReads
    && left.strictReads !! right.writes
    && left.edgeIds !! right.edgeIds
  }

  /** A fact and the valid time from which a commit asserts or deletes it. */
  type Boundary = (FactIdentity, nat)

  /** What the transaction saw around one of its writes: the neighbouring boundaries at its snapshot. */
  datatype Dependency = Dependency(
    ref: FactIdentity, validFrom: nat, predecessor: Option<nat>, successor: Option<nat>, snapshot: nat)

  /** The part of a commit batch that validation and prediction look at. */
  datatype Batch = Batch(mutations: set<Boundary>, dependencies: set<Dependency>)

  /**
   One queued commit. `id` is the identity of the request object, `handled` says that an
   asynchronous handle waits for it, and `predictable` that its batch is a fresh blind append.
   */
  datatype Request = Request(
    id: nat, bytes: nat, handled: bool, pipelined: bool, predictable: bool, footprint: Footprint, batch: Batch)

  /** The family of edge identity facts, which a batch carries apart from its mutations. */
  const EDGE_IDENTITY := 3

  /** Everything a commit writes: its mutations, and one identity fact per edge. */
  function FactsOf(r: Request): set<Boundary> {
    r.batch.mutations + set e | e in r.footprint.edgeIds :: ((e.0, EDGE_IDENTITY, 0, e.1), 0)
  }

  /** Footprint and prediction flag were computed from the batch. */
  ghost predicate Built(r: Request) {
    && r.footprint.writes == (set f | f in r.batch.mutations :: f.0)
    && (r.predictable ==> r.footprint.edgeIds == {} && r.footprint.strictReads == {}
                          && forall d :: d in r.batch.dependencies ==> d.predecessor.None? && d.successor.None?)
  }

  /** Every dependency is about a write of the batch. */
  ghost predicate WellFormed(r: Request) {
    forall d :: d in r.batch.dependencies ==> (d.ref, d.validFrom) in r.batch.mutations
  }

  ghost function Ids(rs: seq<Request>): set<nat> {
    set i | 0 <= i < |rs| :: rs[i].id
  }

  ghost predicate Distinct(rs: seq<Request>) {
    forall i, j :: 0 <= i < j < |rs| ==> rs[i].id != rs[j].id
  }

  ghost predicate PairwiseShare(rs: seq<Request>) {
    forall i, j :: 0 <= i < j < |rs| ==> CanShare(rs[i].footprint, rs[j].footprint)
  }

  ghost predicate SharesWithAll(rs: seq<Request>, f: Footprint) {
    forall i :: 0 <= i < |rs| ==> CanShare(rs[i].footprint, f)
  }

  /** A group grows by one request exactly when that request shares with every member. */
  lemma PairwisePush(rs: seq<Request>, r: Request)
    ensures PairwiseShare(rs + [r]) <==> PairwiseShare(rs) && SharesWithAll(rs, r.footprint)
  {
    var longer := rs + [r];
    if PairwiseShare(longer) {
      forall i, j | 0 <= i < j < |rs| ensures CanShare(rs[i].footprint, rs[j].footprint) {
        assert longer[i] == rs[i] && longer[j] == rs[j];
      }
      forall i | 0 <= i < |rs| ensures CanShare(rs[i].footprint, r.footprint) {
        assert longer[i] == rs[i] && longer[|rs|] == r;
      }
    }
  }

  function SumBytes(rs: seq<Request>): nat {
    if rs == [] then 0 else SumBytes(rs[..|rs| - 1]) + rs[|rs| - 1].bytes
  }

  lemma {:induction false} SumBytesPush(rs: seq<Request>, r: Request)
    ensures SumBytes(rs + [r]) == SumBytes(rs) + r.bytes
    ensures SumBytes([r]) == r.bytes
  {
    assert (rs + [r])[..|rs|] == rs;
    assert [r][..0] == [];
  }

  lemma {:induction false} SumBytesConcat(left: seq<Request>, right: seq<Request>)
    ensures SumBytes(left + right) == SumBytes(left) + SumBytes(right)
  {
    if right == [] {
      assert left + right == left;
    } else {
      var n := |right| - 1;
      SumBytesConcat(left, right[..n]);
      assert (left + right)[..|left + right| - 1] == left + right[..n];
    }
  }

  lemma {:induction false} SumBytesSplit(rs: seq<Request>, n: nat)
    requires n <= |rs|
    ensures SumBytes(rs) == SumBytes(rs[..n]) + SumBytes(rs[n..])
  {
    assert rs == rs[..n] + rs[n..];
    SumBytesConcat(rs[..n], rs[n..]);
  }

  lemma {:induction false} SumBytesErase(rs: seq<Request>, i: nat)
    requires i < |rs|
    ensures SumBytes(rs[..i] + rs[i + 1..]) == SumBytes(rs) - rs[i].bytes
  {
    assert rs == rs[..i] + [rs[i]] + rs[i + 1..];
    SumBytesConcat(rs[..i] + [rs[i]], rs[i + 1..]);
    SumBytesPush(rs[..i], rs[i]);
    SumBytesConcat(rs[..i], rs[i + 1..]);
  }

  /** The requests of `rs` that were not withdrawn, in their original order. */
  ghost function Live(rs: seq<Request>, gone: set<nat>): seq<Request> {
    if rs == [] then [] else
      var last := rs[|rs| - 1];
      Live(rs[..|rs| - 1], gone) + (if last.id in gone then [] else [last])
  }

  lemma {:induction false} LiveMembers(rs: seq<Request>, gone: set<nat>)
    ensures forall r :: r in Live(rs, gone) <==> r in rs && r.id !in gone
  {
    if rs != [] {
      LiveMembers(rs[..|rs| - 1], gone);
      assert rs == rs[..|rs| - 1] + [rs[|rs| - 1]];
    }
  }

  lemma {:induction false} LiveConcat(left: seq<Request>, right: seq<Request>, gone: set<nat>)
    ensures Live(left + right, gone) == Live(left, gone) + Live(right, gone)
  {
    if right == [] {
      assert left + right == left;
    } else {
      var n := |right| - 1;
      LiveConcat(left, right[..n], gone);
      assert (left + right)[..|left + right| - 1] == left + right[..n];
    }
  }

  lemma {:induction false} LiveNone(rs: seq<Request>, gone: set<nat>)
    requires forall r :: r in rs ==> r.id !in gone
    ensures Live(rs, gone) == rs
  {
    if rs != [] {
      LiveNone(rs[..|rs| - 1], gone);
      assert rs == rs[..|rs| - 1] + [rs[|rs| - 1]];
    }
  }

  lemma {:induction false} LiveTwice(rs: seq<Request>, gone: set<nat>, id: nat)
    ensures Live(rs, gone + {id}) == Live(Live(rs, gone), {id})
  {
    if rs != [] {
      var last := rs[|rs| - 1];
      LiveTwice(rs[..|rs| - 1], gone, id);
      var kept := if last.id in gone then [] else [last];
      LiveConcat(Live(rs[..|rs| - 1], gone), kept, {id});
      assert last.id !in gone ==> kept[..0] == [] && Live(kept[..0], {id}) == [];
    }
  }

  lemma {:induction false} LiveDistinct(rs: seq<Request>, gone: set<nat>)
    requires Distinct(rs)
    ensures Distinct(Live(rs, gone))
  {
    if rs != [] {
      LiveDistinct(rs[..|rs| - 1], gone);
      LiveMembers(rs[..|rs| - 1], gone);
    }
  }

  lemma {:induction false} LiveSingle(r: Request, gone: set<nat>)
    ensures Live([r], gone) == if r.id in gone then [] else [r]
  {
    assert [r][..0] == [];
  }

  lemma DistinctAround(left: seq<Request>, r: Request, right: seq<Request>)
    requires Distinct(left + [r] + right)
    ensures forall x :: x in left || x in right ==> x.id != r.id
  {
    var rs := left + [r] + right;
    assert rs[|left|] == r;
    forall k | 0 <= k < |left| ensures left[k].id != r.id { assert rs[k] == left[k]; }
    forall k | 0 <= k < |right| ensures right[k].id != r.id { assert rs[|left| + 1 + k] == right[k]; }
  }

  /** Withdrawing one element of a duplicate-free list erases exactly its position. */
  lemma {:induction false} LiveErase(left: seq<Request>, r: Request, right: seq<Request>)
    requires Distinct(left + [r] + right)
    ensures Live(left + [r] + right, {r.id}) == left + right
  {
    DistinctAround(left, r, right);
    calc {
      Live(left + [r] + right, {r.id});
      { LiveConcat(left + [r], right, {r.id}); LiveConcat(left, [r], {r.id}); }
      Live(left, {r.id}) + Live([r], {r.id}) + Live(right, {r.id});
      { LiveSingle(r, {r.id}); LiveNone(left, {r.id}); LiveNone(right, {r.id}); }
      left + [] + right;
      left + right;
    }
  }

  lemma IdsConcat(a: seq<Request>, b: seq<Request>)
    ensures Ids(a + b) == Ids(a) + Ids(b)
  {
    forall id | id in Ids(a) + Ids(b) ensures id in Ids(a + b) {
      if id in Ids(a) {
        var i :| 0 <= i < |a| && a[i].id == id; assert (a + b)[i] == a[i];
      } else {
        var i :| 0 <= i < |b| && b[i].id == id; assert (a + b)[|a| + i] == b[i];
      }
    }
  }

  lemma DistinctParts(a: seq<Request>, b: seq<Request>)
    requires Distinct(a + b)
    ensures Distinct(a) && Distinct(b) && Ids(a) !! Ids(b)
    ensures Ids(a + b) == Ids(a) + Ids(b)
  {
    IdsConcat(a, b);
    assert forall i :: 0 <= i < |a| ==> (a + b)[i] == a[i];
    assert forall i :: 0 <= i < |b| ==> (a + b)[|a| + i] == b[i];
    forall i, j | 0 <= i < j < |b| ensures b[i].id != b[j].id {
      assert (a + b)[|a| + i].id != (a + b)[|a| + j].id;
    }
  }

  lemma IdsPush(a: seq<Request>, r: Request)
    ensures Ids(a + [r]) == Ids(a) + {r.id}
  {
    IdsConcat(a, [r]);
    assert [r][0].id in Ids([r]);
  }
}
