/**
 Two runs. In one a request commits on the general path while the next is predicted, promoted
 and committed on the decided path, so the transition system is not vacuous. In the other a
 commit from elsewhere takes the first request's sequence, and the decided path writes what the
 general path would refuse.
 */
module KernelWitness {
  import opened Common
  import opened Requests
  import opened AppendQueues
  import opened CommitKernel
  import opened KernelLog
  import opened KernelPrediction

  function Fact(id: nat): FactIdentity { (0, 1, 0, id) }

  /** An asynchronous append of one byte to a fact of its own, with a dependency captured at sequence 0. */
  function Blind(id: nat): Request {
    Request(id, 1, true, false, true, Footprint({id}, {Fact(id)}, {}, {}),
            Batch({(Fact(id), 0)}, {Dependency(Fact(id), 0, None, None, 0)}))
  }

  const Start := State(
    Flow([], {}, [], QueueState([], 0, 0, 0), 0, 0), Waiting,
    Speculation(Resting, false, 0, 0, 0, 0, 0, None, EmptyMetrics), Store(0, 0, false, map[], map[], map[]),
    Clients(map[], [], map[], {}, {}, {}, {}), Modes(false, false, false))

  const Bounds := QueueBounds(10, 10)
  const Limits := GroupLimits(1, 10)

  /** A run extended by one more enabled step. */
  lemma Extend(trace: seq<State>, steps: seq<Step>, step: Step) returns (longer: seq<State>)
    requires Run(Bounds, trace, steps) && Enabled(Bounds, trace[|steps|], step)
    ensures Run(Bounds, longer, steps + [step]) && longer == trace + [Apply(Bounds, trace[|steps|], step)]
  {
    longer := trace + [Apply(Bounds, trace[|steps|], step)];
    var more := steps + [step];
    forall i | 0 <= i < |more|
      ensures Enabled(Bounds, longer[i], more[i]) && longer[i + 1] == Apply(Bounds, longer[i], more[i])
    {
      if i < |steps| { assert longer[i] == trace[i] && longer[i + 1] == trace[i + 1] && more[i] == steps[i]; }
    }
  }

  lemma OneByOne(r: Request, rest: seq<Request>)
    requires r.bytes <= 10
    ensures LongestAdmissible([r] + rest, 1, Limits)
  {
    assert ([r] + rest)[..1] == [r];
  }

  lemma BothAdmitted() returns (trace: seq<State>, steps: seq<Step>)
    ensures Run(Bounds, trace, steps)
    ensures trace[|steps|] == Start.(
              flow := Flow([Blind(1), Blind(2)], {}, [], QueueState([Blind(1), Blind(2)], 2, 2, 2), 0, 0))
  {
    trace, steps := [Start], [];
    var step := Client(AdmitStep(Blind(1)));
    trace := Extend(trace, steps, step); steps := steps + [step];
    step := Client(AdmitStep(Blind(2)));
    trace := Extend(trace, steps, step); steps := steps + [step];
  }

  /** Two requests are admitted and the first is selected. */
  lemma FirstSelected() returns (trace: seq<State>, steps: seq<Step>)
    ensures Run(Bounds, trace, steps)
    ensures trace[|steps|] == Start.(
              worker := Selected([Blind(1)], None, false),
              flow := Flow([Blind(1), Blind(2)], {}, [], QueueState([Blind(2)], 1, 1, 2), 1, 0))
  {
    trace, steps := BothAdmitted();
    var step := Select(BeginCollectStep(10));
    trace := Extend(trace, steps, step); steps := steps + [step];
    var q := [Blind(1), Blind(2)];
    OneByOne(Blind(1), [Blind(2)]);
    assert q == [Blind(1)] + [Blind(2)] && q[..1] == [Blind(1)] && q[1..] == [Blind(2)];
    OneBytes(Blind(1));
    step := Select(CollectStep(1, Limits));
    trace := Extend(trace, steps, step); steps := steps + [step];
  }

  lemma OneBytes(r: Request)
    ensures SumBytes([r]) == r.bytes
  {
    SumBytesPush([], r);
  }

  const Prediction := Decided(1, [Blind(2)], 0, [Blind(1)])
  const Predicted := Slot(1, 0, Prediction, false)

  ghost predicate FirstInFlight(s: State) {
    && s.flow == Flow([Blind(1), Blind(2)], {}, [], QueueState([Blind(2)], 1, 1, 2), 1, 0)
    && s.worker == InFlight([Blind(1)], None, false, 1, Some(0))
    && s.store == Start.store && s.modes == Start.modes
    && s.clients == Start.clients.(epochs := [None], handles := map[1 := Handle(None, Some((0, 0)))])
    && s.spec.overlay && s.spec.generation == 1 && s.spec.epochBase == 0 && s.spec.hint == 1
    && s.spec.preflight == Resting
  }

  lemma FirstBound() returns (trace: seq<State>, steps: seq<Step>)
    ensures Run(Bounds, trace, steps) && FirstInFlight(trace[|steps|])
    ensures var sp := trace[|steps|].spec; sp.slot.None? && sp.completedGeneration != sp.requestGeneration
  {
    trace, steps := FirstSelected();
    var step := Select(OverlayStep);
    trace := Extend(trace, steps, step); steps := steps + [step];
    step := Select(BindStep);
    trace := Extend(trace, steps, step); steps := steps + [step];
  }

  lemma SecondFits()
    ensures LongestPlan([Blind(2)], 1, Limits, [Blind(1)]) && [Blind(2)][..1] == [Blind(2)]
    ensures WellFormed(Blind(2)) && !NeedsCheck([Blind(2)], 0)
  {
    assert [Blind(2)][..1] == [Blind(2)];
    OneBytes(Blind(2));
  }

  const Plan := Planned(1, 1, 0, 1, [Blind(2)], true, [Blind(1)])

  lemma SecondPlanned() returns (trace: seq<State>, steps: seq<Step>)
    ensures Run(Bounds, trace, steps)
    ensures var s := trace[|steps|];
            s.spec.preflight.Planned? && s.spec.slot.None? && FirstInFlight(s.(spec := s.spec.(preflight := Resting)))
            && s.spec.preflight == Plan.(requestGeneration := s.spec.preflight.requestGeneration)
  {
    trace, steps := FirstBound();
    SecondFits();
    var step := Other(SnapshotStep(1, Limits, true));
    trace := Extend(trace, steps, step); steps := steps + [step];
  }

  /** While the first request is in flight, the second is planned and its slot installed. */
  lemma SecondInstalled() returns (trace: seq<State>, steps: seq<Step>)
    ensures Run(Bounds, trace, steps) && FirstInFlight(trace[|steps|]) && trace[|steps|].spec.slot == Some(Predicted)
  {
    trace, steps := SecondPlanned();
    SecondFits();
    var step := Other(InstallStep);
    trace := Extend(trace, steps, step); steps := steps + [step];
  }

  lemma OneRequest(r: Request, st: Store, ok: bool)
    ensures Assign([ok], st.visible) == [if ok then Stored(st.visible + 1) else Failed(Rejected)]
    ensures Land(st, [r], [ok], st.visible) == if ok then Append(st, r) else st
  {
    assert [ok][..0] == [] && [r][..0] == [];
    LandIsAppend(st, [r], [ok]);
    assert Land(st, [], [], st.visible) == st;
  }

  /** Fixing and publishing the result of a group of one. */
  lemma OneResult(results: map<nat, StoreResult>, w: Worker, r: Request, result: StoreResult)
    requires w.Written? && w.group == [r] && w.result == GroupOk([result])
    ensures WithResults(results, [r], w.result) == results[r.id := result] && Outcomes(w) == [ToOutcome(result)]
  {
    assert [r][..0] == [];
    assert Outcomes(w)[0] == ToOutcome(result);
  }

  // ---- the first request is written, overtaken or not ---------------------------------------

  /** A commit from elsewhere on the facts of both requests. */
  const Outside: set<Boundary> := {(Fact(1), 0), (Fact(2), 0)}

  function Before(overtaken: bool): Store {
    if overtaken then Store(0, 1, false, map[1 := Elsewhere], map[], map[1 := Outside]) else Start.store
  }

  function After(overtaken: bool): Store {
    if overtaken then Before(true)
    else Store(0, 1, false, map[1 := Pipeline(1)], map[1 := 1], map[1 := FactsOf(Blind(1))])
  }

  function FirstResult(overtaken: bool): StoreResult { if overtaken then Failed(Rejected) else Stored(1) }

  /** Either request passes validation exactly if it was not overtaken. */
  lemma Verdict(overtaken: bool, id: nat)
    requires id == 1 || id == 2
    ensures AllHold(Before(overtaken), Blind(id)) <==> !overtaken
    ensures Verdicts(Before(overtaken), [Blind(id)], [true]) == [!overtaken]
  {
    var d := Dependency(Fact(id), 0, None, None, 0);
    assert d in Blind(id).batch.dependencies;
    if overtaken {
      assert (d.ref, 0) in Outside && Overlaps(Before(true), d, 0);
      assert OverlappedBy(Before(true), d, 1);
    }
    assert WellFormed(Blind(id));
    assert [Blind(id)][0] == Blind(id) && [true][0];
  }

  ghost predicate FirstPending(s: State) {
    && s.flow == Flow([Blind(1), Blind(2)], {}, [], QueueState([Blind(2)], 1, 1, 2), 1, 0) && s.modes == Start.modes
    && s.spec.slot == Some(Predicted) && s.spec.generation == 1 && s.spec.epochBase == 0
    && s.clients == Start.clients.(epochs := [None], handles := map[1 := Handle(None, Some((0, 0)))])
  }

  lemma FirstReady(overtaken: bool) returns (trace: seq<State>, steps: seq<Step>)
    ensures Run(Bounds, trace, steps) && FirstPending(trace[|steps|])
    ensures trace[|steps|].worker == Ready([Blind(1)], None, false, false, false, Some(0))
    ensures trace[|steps|].store == Before(overtaken)
  {
    trace, steps := SecondInstalled();
    if overtaken {
      var outside := Other(ElsewhereStep(Outside));
      trace := Extend(trace, steps, outside); steps := steps + [outside];
    }
    var step := Write(CheckStep(true));
    trace := Extend(trace, steps, step); steps := steps + [step];
  }

  /** The general path writes or refuses the first request. */
  lemma FirstWritten(overtaken: bool) returns (trace: seq<State>, steps: seq<Step>)
    ensures Run(Bounds, trace, steps) && FirstPending(trace[|steps|])
    ensures trace[|steps|].worker == Written([Blind(1)], None, false, GroupOk([FirstResult(overtaken)]), Some(0))
    ensures trace[|steps|].store == After(overtaken)
  {
    trace, steps := FirstReady(overtaken);
    var step := Write(WriteGeneralStep([true], Lands));
    Verdict(overtaken, 1);
    OneRequest(Blind(1), Before(overtaken), !overtaken);
    trace := Extend(trace, steps, step); steps := steps + [step];
  }

  function FirstClients(overtaken: bool): Clients {
    Clients(map[1 := FirstResult(overtaken)], [Some([ToOutcome(FirstResult(overtaken))])],
            map[1 := Handle(None, Some((0, 0)))], {}, {}, {}, {})
  }

  /** The slot survives the first request: only the visible base is compared. */
  lemma FirstDone(overtaken: bool) returns (trace: seq<State>, steps: seq<Step>)
    ensures Run(Bounds, trace, steps)
    ensures var s := trace[|steps|];
            && s.flow == Flow([Blind(1), Blind(2)], {}, [Blind(1)], QueueState([Blind(2)], 1, 1, 1), 0, 0)
            && s.worker == Waiting && s.modes == Start.modes && s.store == After(overtaken)
            && s.spec.slot == Some(Predicted) && s.clients == FirstClients(overtaken)
  {
    trace, steps := FirstWritten(overtaken);
    var step := Write(BookStep);
    OneResult(map[], trace[|steps|].worker, Blind(1), FirstResult(overtaken));
    trace := Extend(trace, steps, step); steps := steps + [step];
    step := Write(PublishStep);
    trace := Extend(trace, steps, step); steps := steps + [step];
    step := Write(ReleaseStep);
    OneBytes(Blind(1));
    trace := Extend(trace, steps, step); steps := steps + [step];
  }

  // ---- the second request is promoted ---------------------------------------------------------

  lemma PromotesSlot(s: State)
    requires s.spec.slot == Some(Predicted) && s.flow.q == QueueState([Blind(2)], 1, 1, 1)
    requires s.clients.flagged == {} && !s.modes.pipelined
    ensures var s' := BeginCollect(s, 10);
            && s'.worker == Selected([Blind(2)], Some(Prediction), false)
            && s'.flow.q.requests == [] && s'.flow.active == s.flow.active + 1
            && s'.flow.publications == s.flow.publications && s'.spec.m.promotedEpochs >= 1
            && s'.store == s.store && s'.clients == s.clients
  {
    assert StillQueued(s.flow.q.requests, s.clients.flagged, [Blind(2)]);
    assert PromotionObstacle(s, 10) == None;
    assert [Blind(2)][1..] == [];
  }

  ghost predicate SecondAlone(s: State) {
    s.flow.q.requests == [] && s.flow.active == 1 && s.flow.publications == 0 && s.spec.m.promotedEpochs >= 1
  }

  /** The slot is promoted instead of collecting again. */
  lemma SecondPromoted(overtaken: bool) returns (trace: seq<State>, steps: seq<Step>)
    ensures Run(Bounds, trace, steps) && SecondAlone(trace[|steps|])
    ensures var s := trace[|steps|];
            && s.worker == Selected([Blind(2)], Some(Prediction), false)
            && s.store == After(overtaken) && s.clients == FirstClients(overtaken)
  {
    trace, steps := FirstDone(overtaken);
    var s, step := trace[|steps|], Select(BeginCollectStep(10));
    assert Enabled(Bounds, s, step) && Apply(Bounds, s, step) == BeginCollect(s, 10);
    PromotesSlot(s);
    trace := Extend(trace, steps, step); steps := steps + [step];
  }

  function BothClients(overtaken: bool): Clients {
    var c := FirstClients(overtaken);
    c.(epochs := c.epochs + [None], handles := c.handles[2 := Handle(None, Some((1, 0)))])
  }

  /** Bound and, since its dependency was captured at the old base, not checked. */
  lemma SecondReady(overtaken: bool) returns (trace: seq<State>, steps: seq<Step>)
    ensures Run(Bounds, trace, steps) && SecondAlone(trace[|steps|])
    ensures var s := trace[|steps|];
            && s.worker == Ready([Blind(2)], Some(Prediction), true, false, false, Some(1))
            && s.store == After(overtaken) && s.clients == BothClients(overtaken)
  {
    trace, steps := SecondPromoted(overtaken);
    var step := Select(OverlayStep);
    trace := Extend(trace, steps, step); steps := steps + [step];
    step := Select(BindStep);
    trace := Extend(trace, steps, step); steps := steps + [step];
    step := Write(CheckStep(true));
    trace := Extend(trace, steps, step); steps := steps + [step];
  }

  /** The predicted write lands on the sequence it was given in advance. */
  lemma SecondWritten(overtaken: bool) returns (trace: seq<State>, steps: seq<Step>)
    ensures Run(Bounds, trace, steps + [Write(WriteDecidedStep(Lands))]) && SecondAlone(trace[|steps| + 1])
    ensures trace[|steps|].store == After(overtaken)
    ensures trace[|steps|].worker == Ready([Blind(2)], Some(Prediction), true, false, false, Some(1))
    ensures var s := trace[|steps| + 1];
            && s.worker == Written([Blind(2)], Some(Prediction), false, GroupOk([Stored(2)]), Some(1))
            && 2 in s.store.txns && s.store.txns[2] == 2 && s.clients == BothClients(overtaken)
  {
    trace, steps := SecondReady(overtaken);
    assert AllTrue(1) == [true];
    OneRequest(Blind(2), After(overtaken), true);
    trace := Extend(trace, steps, Write(WriteDecidedStep(Lands)));
  }

  lemma SecondBooked() returns (trace: seq<State>, steps: seq<Step>)
    ensures Run(Bounds, trace, steps)
    ensures var s := trace[|steps|];
            && s.flow.q.requests == [] && s.flow.active == 0 && s.flow.publications == 1
            && s.spec.m.promotedEpochs >= 1 && s.worker == Booked([Blind(2)], [Committed(2)], Some(1))
            && s.clients == BothClients(false).(results := map[1 := Stored(1), 2 := Stored(2)])
  {
    trace, steps := SecondWritten(false);
    steps := steps + [Write(WriteDecidedStep(Lands))];
    OneResult(map[1 := Stored(1)], trace[|steps|].worker, Blind(2), Stored(2));
    trace := Extend(trace, steps, Write(BookStep));
    steps := steps + [Write(BookStep)];
  }

  /** Both requests end committed, in admission order, and the pipeline drains. */
  lemma BothPathsCommit() returns (trace: seq<State>, steps: seq<Step>)
    ensures Run(Bounds, trace, steps)
    ensures var s := trace[|steps|];
            && Drained(s) && s.spec.m.promotedEpochs >= 1
            && Terminal(s.clients, Blind(1)) == Some(Committed(1))
            && Terminal(s.clients, Blind(2)) == Some(Committed(2))
  {
    trace, steps := SecondBooked();
    var step := Write(PublishStep);
    trace := Extend(trace, steps, step); steps := steps + [step];
    step := Write(ReleaseStep);
    trace := Extend(trace, steps, step); steps := steps + [step];
  }

  /**
   The first request is refused because a commit from elsewhere wrote its fact; the second, whose
   fact that commit wrote too, is written as predicted, where the general path would refuse it.
   */
  lemma UncheckedCanDisagree() returns (trace: seq<State>, steps: seq<Step>)
    ensures Run(Bounds, trace, steps + [Write(WriteDecidedStep(Lands))])
    ensures var s, s' := trace[|steps|], trace[|steps| + 1];
            && s.worker.Ready? && s.worker.group == [Blind(2)] && !AllHold(s.store, Blind(2))
            && 2 in s'.store.txns && s' != OnGeneralPath(s, Lands)
  {
    trace, steps := SecondWritten(true);
    Verdict(true, 2);
    var s := trace[|steps|];
    assert AllTrue(1) == [true];
    OneRequest(Blind(2), s.store, false);
    assert 2 !in OnGeneralPath(s, Lands).store.txns;
  }
}
