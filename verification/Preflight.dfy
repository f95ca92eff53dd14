/** The planning loop of the preflight worker, against the specification the pipeline model uses. */
module Preflight {
  import opened Common
  import opened Requests
  import opened AppendQueues
  import opened CommitKernel

  lemma PlanStep(rs: seq<Request>, n: nat, limits: GroupLimits, inFlight: seq<Request>)
    requires n < |rs| && n < limits.maxTransactions && PlanAdmissible(rs, n, limits, inFlight)
    ensures SumBytes(rs[..n + 1]) == SumBytes(rs[..n]) + rs[n].bytes
    ensures PlanAdmissible(rs, n + 1, limits, inFlight) <==>
              && SumBytes(rs[..n]) + rs[n].bytes <= limits.targetBytes && rs[n].predictable
              && (forall j :: 0 <= j < |inFlight| ==> CanShare(inFlight[j].footprint, rs[n].footprint))
              && SharesWithAll(rs[..n], rs[n].footprint)
  {
    assert rs[..n + 1] == rs[..n] + [rs[n]];
    SumBytesPush(rs[..n], rs[n]);
    PairwisePush(rs[..n], rs[n]);
  }

  /** Whether the overlay of the epoch in flight conflicts with a footprint. */
  predicate OverlayConflicts(inFlight: seq<Request>, f: Footprint) {
    exists j :: 0 <= j < |inFlight| && !CanShare(inFlight[j].footprint, f)
  }

  /** Plans the longest admissible prefix of the candidates. */
  method Plan(candidates: seq<Request>, limits: GroupLimits, inFlight: seq<Request>) returns (planned: seq<Request>)
    ensures LongestPlan(candidates, |planned|, limits, inFlight) && planned == candidates[..|planned|]
  {
    planned := [];
    var plannedBytes := 0;
    var index := new ConflictIndex();
    var i := 0;
    while i < |candidates|
      invariant 0 <= i <= |candidates| && planned == candidates[..i] && plannedBytes == SumBytes(planned)
      invariant PlanAdmissible(candidates, i, limits, inFlight)
      invariant fresh(index) && index.Valid() && Indexed(index.members, candidates, i)
    {
      var candidate := candidates[i];
      if i == limits.maxTransactions { return; }
      PlanStep(candidates, i, limits, inFlight);
      if candidate.bytes > Remaining(limits.targetBytes, plannedBytes) { return; }
      if !candidate.predictable { return; }
      if OverlayConflicts(inFlight, candidate.footprint) { return; }
      IndexedShares(index.members, candidates, i, candidate);
      var fits := index.Insert(candidate.footprint);
      if !fits { return; }
      plannedBytes := plannedBytes + candidate.bytes;
      planned := candidates[..i + 1];
      i := i + 1;
    }
  }
}
