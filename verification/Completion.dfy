/** The objects an asynchronous committer waits on: one completion per epoch and one handle per request. */
module Completion {
  import opened Common
  import opened AppendQueues
  import opened CommitKernel

  datatype Answer = Pending | InvalidOrdinal | Is(outcome: Outcome)

  class EpochCompletion {
    const requestCount: nat
    var results: seq<Outcome>
    var walDurable: bool
    var published: bool
    var barrierCount: nat

    constructor (requestCount: nat)
      ensures this.requestCount == requestCount && Valid() && !published && !walDurable && barrierCount == 0
    {
      this.requestCount := requestCount;
      results, walDurable, published, barrierCount := [], false, false, 0;
    }

    ghost predicate Valid()
      reads this
    {
      (published ==> |results| == requestCount) && barrierCount == if published then 1 else 0
    }

    /** The published results, as the pipeline model records them. */
    function Published(): Option<seq<Outcome>>
      reads this
    {
      if published then Some(results) else None
    }

    method MarkWalDurable()
      modifies `walDurable
      ensures walDurable
    {
      walDurable := true;
    }

    /** Installs the results once; a second publication would break the precondition. */
    method Publish(outcomes: seq<Outcome>)
      requires Valid() && !published && |outcomes| == requestCount
      modifies `results, `published, `barrierCount
      ensures Valid() && Published() == Some(outcomes)
    {
      results := outcomes;
      published := true;
      barrierCount := barrierCount + 1;
    }

    /** `None` while the caller would block; then whether the WAL became durable first. */
    method WaitForWalDurableOrPublication() returns (durable: Option<bool>)
      ensures durable == if walDurable || published then Some(walDurable) else None
    {
      if !walDurable && !published { return None; }
      durable := Some(walDurable);
    }

    method WaitForResult(ordinal: nat) returns (answer: Answer)
      requires Valid()
      ensures answer == if ordinal >= requestCount then InvalidOrdinal
                        else if Published().Some? then Is(Published().value[ordinal]) else Pending
    {
      if ordinal >= requestCount { return InvalidOrdinal; }
      if !published { return Pending; }
      answer := Is(results[ordinal]);
    }
  }

  /** A handle after a direct completion: the first writer wins, and an epoch keeps what it owns. */
  function Completed(h: Handle, o: Outcome): Handle {
    if h.result.Some? || h.bound.Some? then h else h.(result := Some(o))
  }

  /** What a handle answers, given what its epoch has published. */
  function Answered(h: Handle, epoch: Option<seq<Outcome>>): Option<Outcome> {
    if h.bound.None? then h.result
    else if epoch.Some? && h.bound.value.1 < |epoch.value| then Some(epoch.value[h.bound.value.1]) else None
  }

  class CommitHandleState {
    var result: Option<Outcome>
    var completion: EpochCompletion?
    var ordinal: nat
    var waitsForDurability: bool

    constructor ()
      ensures result == None && completion == null
    {
      result, completion, ordinal, waitsForDurability := None, null, 0, false;
    }

    /** The handle as the pipeline model records it, its epoch being number `epoch`. */
    function View(epoch: nat): Handle
      reads this
    {
      Handle(result, if completion == null then None else Some((epoch, ordinal)))
    }

    method Complete(outcome: Outcome)
      modifies `result
      ensures forall epoch :: View(epoch) == Completed(old(View(epoch)), outcome)
    {
      if result.Some? { return; }
      if completion != null { return; }
      result := Some(outcome);
    }

    method Bind(epoch: EpochCompletion, position: nat, waits: bool)
      modifies `completion, `ordinal, `waitsForDurability
      ensures completion == epoch && waitsForDurability == waits
      ensures forall number :: View(number) == old(View(number)).(bound := Some((number, position)))
    {
      completion, ordinal, waitsForDurability := epoch, position, waits;
    }

    /** A bound handle answers with the epoch's result at its ordinal, whatever was written to it directly. */
    method Wait() returns (answer: Answer)
      requires completion != null ==> completion.Valid()
      ensures var value := Answered(View(0), if completion == null then None else completion.Published());
              answer == if completion != null && ordinal >= completion.requestCount then InvalidOrdinal
                        else if value.Some? then Is(value.value) else Pending
    {
      if completion == null {
        return if result.Some? then Is(result.value) else Pending;
      }
      answer := completion.WaitForResult(ordinal);
    }

    /** The group's log records are durable and this request counts them as its acceptance. */
    ghost predicate AcceptedDurably()
      reads this, completion
    {
      result.None? && completion != null && waitsForDurability && completion.walDurable
    }

    /** The outcome that decides an acceptance when durability does not. */
    ghost function Decisive(): Option<Outcome>
      reads this, completion
    {
      if result.Some? then result
      else Answered(View(0), if completion == null then None else completion.Published())
    }

    /**
     Where an asynchronous submission returns: a positive answer means durable or committed, a
     negative one that the request ended without committing, and it blocks while neither is known.
     */
    method AwaitAcceptance() returns (accepted: Option<bool>)
      requires completion != null ==> completion.Valid() && ordinal < completion.requestCount
      ensures accepted == Some(true) <==> AcceptedDurably() || (Decisive().Some? && Decisive().value.Committed?)
      ensures accepted == Some(false) <==> !AcceptedDurably() && Decisive().Some? && !Decisive().value.Committed?
    {
      if result.Some? { return Some(result.value.Committed?); }
      if completion == null { return None; }
      if waitsForDurability {
        var durable := completion.WaitForWalDurableOrPublication();
        if durable.None? { return None; }
        if durable.value { return Some(true); }
      }
      var answer := completion.WaitForResult(ordinal);
      accepted := if answer.Is? then Some(answer.outcome.Committed?) else None;
    }
  }

  /** The objects follow the rules the pipeline model steps with and answers by. */
  lemma HandlesMatchModel(c: Clients, id: nat, o: Outcome)
    ensures HandleOf(CompleteHandle(c, id, o), id) == Completed(HandleOf(c, id), o)
    ensures forall other :: other != id ==> HandleOf(CompleteHandle(c, id, o), other) == HandleOf(c, other)
    ensures var h := HandleOf(c, id);
            var e := if h.bound.Some? then h.bound.value.0 else 0;
            WaitValue(c, id) == Answered(h, if e < |c.epochs| then c.epochs[e] else None)
  {
  }
}
