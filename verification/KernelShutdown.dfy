/**
 `Database::Close` and the commit pipeline as one system: commit calls reach the pipeline only
 between registration and `EndCommit`, and the close call waits for the calls, drains the
 pipeline, prepares the store and stops the pipeline, in that order.

 No step of this system looks at the pipeline's `quiesced` mark. That the mark is set on a
 drained pipeline only, and that nobody submits behind it, is proved from the close protocol.
 */
module KernelShutdown {
  import opened Common
  import opened Requests
  import opened AppendQueues
  import C = CloseProtocol
  import K = CommitKernel
  import opened KernelTheorems
  import opened KernelOutcomes

  /** `drained`: the close call has returned from `DrainAppendCommitPipeline`. */
  datatype State = State(close: C.State, kernel: K.State, drained: bool)

  datatype Step = Calls(c: C.Step) | DrainPipeline(t: nat) | Pipeline(k: K.Step)

  ghost predicate Init(s: State) {
    C.Init(s.close) && K.Init(s.kernel) && !s.drained
  }

  /** The commit call of request `id` is registered, saw the database open, and has not ended. */
  ghost predicate Calling(s: State, id: nat) {
    C.At(s.close, id, C.Admitted)
  }

  ghost predicate TearingDown(s: State) {
    exists t :: C.ClosingAt(s.close, t, C.TearingDown)
  }

  /** A call ends only after its own cancellation; the closer follows the order of `Close`. */
  ghost predicate CallsEnabled(s: State, c: C.Step) {
    && C.Enabled(s.close, c)
    && match c
       case EndCommit(t) => t !in s.kernel.clients.cancelling && t !in s.kernel.clients.reporting
       case PrepareClose(_) => s.drained
       case RollBack(t) => C.ClosingAt(s.close, t, C.TearingDown) ==> s.kernel.modes.stopping
       case StoreClosed(_) => s.kernel.modes.stopping
       case _ => true
  }

  /** Submission and the start of a cancellation happen inside the call, before the executor is stopped. */
  ghost predicate ByCaller(s: State, c: K.ClientStep) {
    match c
    case AdmitStep(r) => Calling(s, r.id)
    case MarkCancelledStep(id) => Calling(s, id) && !s.kernel.modes.stopping
    case RefuseStep(id) => Calling(s, id) && !s.kernel.modes.stopping
    case CancelStep(_, _) => true
    case ReportCancelledStep(_) => true
  }

  /** The pipeline is stopped and its executor swept by the close call that tears down. */
  ghost predicate Allowed(s: State, k: K.Step) {
    match k
    case Client(c) => ByCaller(s, c)
    case Other(QuiesceStep) => false
    case Other(StopStep) => TearingDown(s)
    case Other(SweepStep(_)) => TearingDown(s)
    case _ => true
  }

  function Marked(k: K.State, quiesced: bool): K.State {
    k.(modes := k.modes.(quiesced := quiesced))
  }

  predicate IsSweep(k: K.Step) { k.Other? && k.o.SweepStep? }

  ghost predicate Enabled(b: QueueBounds, s: State, step: Step) {
    match step
    case Calls(c) => CallsEnabled(s, c)
    case DrainPipeline(t) => C.ClosingAt(s.close, t, C.Drained) && K.Drained(s.kernel)
    case Pipeline(k) => Allowed(s, k) && K.Enabled(b, Marked(s.kernel, IsSweep(k)), k)
  }

  ghost function Apply(b: QueueBounds, s: State, step: Step): State
    requires Enabled(b, s, step)
  {
    match step
    case Calls(c) =>
      State(C.Apply(s.close, c), if c.PrepareClose? then Marked(s.kernel, true) else s.kernel,
            s.drained && !c.RollBack? && !c.ClearClosing?)
    case DrainPipeline(_) => s.(drained := true)
    case Pipeline(k) =>
      s.(kernel := Marked(K.Apply(b, Marked(s.kernel, IsSweep(k)), k), s.kernel.modes.quiesced))
  }

  ghost predicate Run(b: QueueBounds, trace: seq<State>, steps: seq<Step>) {
    && |trace| == |steps| + 1 && Init(trace[0])
    && forall i :: 0 <= i < |steps| ==> Enabled(b, trace[i], steps[i]) && trace[i + 1] == Apply(b, trace[i], steps[i])
  }

  // ---- how the two halves fit ---------------------------------------------------------------

  ghost predicate CallersPresent(s: State) {
    forall id :: id in s.kernel.clients.cancelling || id in s.kernel.clients.reporting ==> Calling(s, id)
  }

  ghost predicate DrainHolds(s: State) {
    s.drained ==> C.PastDrain(s.close) && K.Drained(s.kernel)
  }

  /** Past the point of no return the pipeline is marked; a mark that outlives its closer is on a stopped pipeline. */
  ghost predicate MarkHolds(s: State) {
    && (forall t :: t in s.close.closers && (s.close.closers[t].TearingDown? || s.close.closers[t].ClosedStored?) ==>
          s.kernel.modes.quiesced && s.drained)
    && (s.kernel.modes.quiesced ==> s.kernel.modes.stopping || TearingDown(s))
    && (s.close.closed ==> s.kernel.modes.stopping && s.kernel.modes.quiesced)
  }

  ghost predicate Coupled(s: State) {
    C.Inv(s.close) && CallersPresent(s) && DrainHolds(s) && MarkHolds(s)
  }

  /** Nobody is inside a commit call once the pipeline is marked, unless it has also been stopped. */
  lemma MarkedMeansNoCallers(s: State, id: nat)
    requires Coupled(s) && s.kernel.modes.quiesced && !s.kernel.modes.stopping
    ensures !Calling(s, id)
  {
    var t :| C.ClosingAt(s.close, t, C.TearingDown);
    assert C.PastDrain(s.close);
  }

  /** Every pipeline step of the composed system is a step of the pipeline alone. */
  lemma {:induction false} PipelineProjects(b: QueueBounds, s: State, k: K.Step)
    requires Coupled(s) && Enabled(b, s, Pipeline(k))
    ensures K.Enabled(b, s.kernel, k) && Apply(b, s, Pipeline(k)).kernel == K.Apply(b, s.kernel, k)
  {
    match k
    case Client(c) => ClientProjects(b, s, c);
    case Select(w) => SelectProjects(s.kernel, w);
    case Write(x) => WriteProjects(s.kernel, x);
    case Other(o) => OtherProjects(s, o);
  }

  lemma {:induction false} ClientProjects(b: QueueBounds, s: State, c: K.ClientStep)
    requires Coupled(s) && ByCaller(s, c) && K.ClientEnabled(b, Marked(s.kernel, false), c)
    ensures K.ClientEnabled(b, s.kernel, c)
    ensures Marked(K.ClientApply(b, Marked(s.kernel, false), c), s.kernel.modes.quiesced) ==
            K.ClientApply(b, s.kernel, c)
  {
    if s.kernel.modes.quiesced && !s.kernel.modes.stopping {
      match c
      case AdmitStep(r) => MarkedMeansNoCallers(s, r.id);
      case MarkCancelledStep(id) => MarkedMeansNoCallers(s, id);
      case RefuseStep(id) => MarkedMeansNoCallers(s, id);
      case _ =>
    }
  }

  lemma {:induction false} SelectProjects(k: K.State, w: K.WorkerStep)
    requires K.SelectEnabled(Marked(k, false), w)
    ensures K.SelectEnabled(k, w)
    ensures Marked(K.SelectApply(Marked(k, false), w), k.modes.quiesced) == K.SelectApply(k, w)
  {
    match w case BeginCollectStep(_) => case CollectStep(_, _) => case BindStep => case _ =>
  }

  lemma {:induction false} WriteProjects(k: K.State, x: K.WriteStep)
    requires K.WriteEnabled(Marked(k, false), x)
    ensures K.WriteEnabled(k, x)
    ensures Marked(K.WriteApply(Marked(k, false), x), k.modes.quiesced) == K.WriteApply(k, x)
  {
    match x case WriteDecidedStep(_) => case WriteGeneralStep(_, _) => case BookStep => case _ =>
  }

  lemma {:induction false} OtherProjects(s: State, o: K.OtherStep)
    requires Coupled(s) && Allowed(s, K.Other(o)) && K.OtherEnabled(Marked(s.kernel, o.SweepStep?), o)
    ensures K.OtherEnabled(s.kernel, o)
    ensures Marked(K.OtherApply(Marked(s.kernel, o.SweepStep?), o), s.kernel.modes.quiesced) ==
            K.OtherApply(s.kernel, o)
  {
    if o.SweepStep? {
      var t :| C.ClosingAt(s.close, t, C.TearingDown);
      assert s.kernel.modes.quiesced;
    }
  }

  /** When the store agrees to close, the pipeline is drained and no cancellation is under way. */
  lemma PrepareProjects(b: QueueBounds, s: State, t: nat)
    requires Coupled(s) && CallsEnabled(s, C.PrepareClose(t))
    ensures K.OtherEnabled(s.kernel, K.QuiesceStep) && Marked(s.kernel, true) == K.OtherApply(s.kernel, K.QuiesceStep)
  {
    assert t in s.close.closers && C.PastDrain(s.close);
    forall id ensures !Calling(s, id) { }
  }

  // ---- every step keeps the fit -------------------------------------------------------------

  lemma {:induction false} CloseKeepsInv(c: C.State, step: C.Step)
    requires C.Inv(c) && C.Enabled(c, step)
    ensures C.Inv(C.Apply(c, step))
  {
    C.CounterStep(c, step);
    C.CloserStep(c, step);
    if C.IsCommitStep(step) { C.CommitStepAdmitsNone(c, step); } else { C.CloseStepAdmitsNone(c, step); }
  }

  lemma {:induction false} CallsKeepCallers(b: QueueBounds, s: State, c: C.Step)
    requires CallersPresent(s) && CallsEnabled(s, c)
    ensures CallersPresent(Apply(b, s, Calls(c)))
  {
  }

  lemma {:induction false} CallsKeepDrain(b: QueueBounds, s: State, c: C.Step)
    requires DrainHolds(s) && CallsEnabled(s, c)
    ensures DrainHolds(Apply(b, s, Calls(c)))
  {
    var close' := C.Apply(s.close, c);
    if s.drained && !c.RollBack? && !c.ClearClosing? {
      var t :| t in s.close.closers && !s.close.closers[t].Draining?;
      assert t in close'.closers && !close'.closers[t].Draining?;
    }
  }

  lemma {:induction false} CallsKeepMark(b: QueueBounds, s: State, c: C.Step)
    requires Coupled(s) && CallsEnabled(s, c)
    ensures MarkHolds(Apply(b, s, Calls(c)))
  {
    var s' := Apply(b, s, Calls(c));
    if TearingDown(s) {
      var t :| C.ClosingAt(s.close, t, C.TearingDown);
      assert c.StoreClosed? || c.RollBack? || C.ClosingAt(s'.close, t, C.TearingDown);
    }
    if c.PrepareClose? { assert C.ClosingAt(s'.close, c.t, C.TearingDown); }
  }

  lemma {:induction false} CallsKeepCoupled(b: QueueBounds, s: State, c: C.Step)
    requires Coupled(s) && CallsEnabled(s, c)
    ensures Coupled(Apply(b, s, Calls(c)))
  {
    CloseKeepsInv(s.close, c);
    CallsKeepCallers(b, s, c);
    CallsKeepDrain(b, s, c);
    CallsKeepMark(b, s, c);
  }

  /** A pipeline step cancels only for its own caller and never clears a mode. */
  lemma {:induction false} PipelineFrame(b: QueueBounds, k: K.State, step: K.Step)
    requires K.Enabled(b, k, step)
    ensures k.modes.stopping ==> K.Apply(b, k, step).modes.stopping
    ensures var k' := K.Apply(b, k, step);
            forall id :: (id in k'.clients.cancelling || id in k'.clients.reporting)
                         && id !in k.clients.cancelling && id !in k.clients.reporting ==>
              step == K.Client(K.MarkCancelledStep(id))
  {
    match step
    case Client(c) => match c { case AdmitStep(_) => case CancelStep(_, _) => case _ => }
    case Select(w) => match w { case BeginCollectStep(_) => case CollectStep(_, _) => case BindStep => case _ => }
    case Write(x) => match x { case WriteDecidedStep(_) => case WriteGeneralStep(_, _) => case BookStep => case _ => }
    case Other(_) =>
  }

  lemma {:induction false} PipelineKeepsCoupled(b: QueueBounds, s: State, k: K.Step)
    requires Coupled(s) && Inv(b, s.kernel) && Enabled(b, s, Pipeline(k))
    ensures Coupled(Apply(b, s, Pipeline(k)))
  {
    PipelineProjects(b, s, k);
    PipelineFrame(b, s.kernel, k);
    if s.drained { DrainedStays(b, s.kernel, k); }
  }

  lemma {:induction false} StepKeepsCoupled(b: QueueBounds, s: State, step: Step)
    requires Coupled(s) && Inv(b, s.kernel) && Enabled(b, s, step)
    ensures Coupled(Apply(b, s, step))
  {
    match step
    case Calls(c) => CallsKeepCoupled(b, s, c);
    case DrainPipeline(t) => assert C.PastDrain(s.close);
    case Pipeline(k) => PipelineKeepsCoupled(b, s, k);
  }

  // ---- the composed system runs the pipeline ----------------------------------------------------

  /** The pipeline step inside a step of the composed system. */
  function PipelinePart(step: Step): Option<K.Step> {
    match step
    case Calls(PrepareClose(_)) => Some(K.Other(K.QuiesceStep))
    case Pipeline(k) => Some(k)
    case _ => None
  }

  /** Each step is a step of the pipeline with all its guards, or leaves the pipeline alone. */
  ghost predicate Projects(b: QueueBounds, k: K.State, part: Option<K.Step>, k': K.State) {
    match part
    case Some(step) => K.Enabled(b, k, step) && k' == K.Apply(b, k, step)
    case None => k' == k
  }

  lemma {:induction false} StepProjects(b: QueueBounds, s: State, step: Step)
    requires Coupled(s) && Enabled(b, s, step)
    ensures Projects(b, s.kernel, PipelinePart(step), Apply(b, s, step).kernel)
  {
    match step
    case Calls(c) => if c.PrepareClose? { PrepareProjects(b, s, c.t); }
    case DrainPipeline(_) =>
    case Pipeline(k) => PipelineProjects(b, s, k);
  }

  lemma ProjectsKeepsInv(b: QueueBounds, k: K.State, part: Option<K.Step>, k': K.State)
    requires Inv(b, k) && Projects(b, k, part, k')
    ensures Inv(b, k')
  {
    if part.Some? { StepKeepsInv(b, k, part.value); }
  }

  lemma {:induction false} InitCoupled(b: QueueBounds, s: State)
    requires Init(s)
    ensures Coupled(s) && Inv(b, s.kernel)
  {
    InitInv(b, s.kernel);
    assert C.RegisteredCalls(s.close) == {};
  }

  lemma {:induction false} RunCoupled(b: QueueBounds, trace: seq<State>, steps: seq<Step>, i: nat)
    requires Run(b, trace, steps) && i < |trace|
    ensures Coupled(trace[i]) && Inv(b, trace[i].kernel)
  {
    if i == 0 {
      InitCoupled(b, trace[0]);
    } else {
      RunCoupled(b, trace, steps, i - 1);
      ComposedStep(b, trace, steps, i - 1);
    }
  }

  lemma ComposedStep(b: QueueBounds, trace: seq<State>, steps: seq<Step>, i: nat)
    requires Run(b, trace, steps) && i < |steps| && Coupled(trace[i]) && Inv(b, trace[i].kernel)
    ensures Coupled(trace[i + 1]) && Inv(b, trace[i + 1].kernel)
    ensures Projects(b, trace[i].kernel, PipelinePart(steps[i]), trace[i + 1].kernel)
  {
    var s, step := trace[i], steps[i];
    assert Enabled(b, s, step) && trace[i + 1] == Apply(b, s, step);
    StepKeepsCoupled(b, s, step);
    StepProjects(b, s, step);
    ProjectsKeepsInv(b, s.kernel, PipelinePart(step), trace[i + 1].kernel);
  }

  /**
   In every run of the composed system each step passes the pipeline's own guards: the store
   prepares to close only on a drained pipeline with no cancellation under way, nobody
   submits, refuses or cancels behind that point, and handles are swept only after it.
   */
  lemma CloseRespectsPipeline(b: QueueBounds, trace: seq<State>, steps: seq<Step>, i: nat)
    requires Run(b, trace, steps) && i < |steps|
    ensures Projects(b, trace[i].kernel, PipelinePart(steps[i]), trace[i + 1].kernel)
  {
    RunCoupled(b, trace, steps, i);
    ComposedStep(b, trace, steps, i);
  }

  lemma RunExtends(b: QueueBounds, trace: seq<K.State>, steps: seq<K.Step>, step: K.Step)
    requires K.Run(b, trace, steps) && K.Enabled(b, trace[|steps|], step)
    ensures K.Run(b, trace + [K.Apply(b, trace[|steps|], step)], steps + [step])
  {
    var trace', steps' := trace + [K.Apply(b, trace[|steps|], step)], steps + [step];
    forall i | 0 <= i < |steps'|
      ensures K.Enabled(b, trace'[i], steps'[i]) && trace'[i + 1] == K.Apply(b, trace'[i], steps'[i])
    {
      if i < |steps| { assert trace'[i] == trace[i] && trace'[i + 1] == trace[i + 1] && steps'[i] == steps[i]; }
    }
  }

  lemma ExtendBy(b: QueueBounds, trace: seq<K.State>, steps: seq<K.Step>, part: Option<K.Step>, last: K.State)
    returns (trace': seq<K.State>, steps': seq<K.Step>)
    requires K.Run(b, trace, steps) && Projects(b, trace[|steps|], part, last)
    ensures K.Run(b, trace', steps') && |steps| <= |steps'| && trace'[|steps'|] == last
    ensures forall k :: 0 <= k < |trace| ==> trace'[k] == trace[k]
  {
    trace', steps' := trace, steps;
    if part.Some? {
      RunExtends(b, trace, steps, part.value);
      trace', steps' := trace + [last], steps + [part.value];
    }
  }

  /** Every state of the pipeline inside a run of the composed system is reached by the pipeline alone. */
  lemma {:induction false} PipelineRun(b: QueueBounds, trace: seq<State>, steps: seq<Step>, i: nat)
    returns (ktrace: seq<K.State>, ksteps: seq<K.Step>)
    requires Run(b, trace, steps) && i < |trace|
    ensures K.Run(b, ktrace, ksteps) && ktrace[|ksteps|] == trace[i].kernel
  {
    if i == 0 {
      ktrace, ksteps := [trace[0].kernel], [];
    } else {
      ktrace, ksteps := PipelineRun(b, trace, steps, i - 1);
      CloseRespectsPipeline(b, trace, steps, i - 1);
      ktrace, ksteps := ExtendBy(b, ktrace, ksteps, PipelinePart(steps[i - 1]), trace[i].kernel);
    }
  }

  // ---- what closing means for clients -------------------------------------------------------------

  lemma OutcomeKeptByStep(b: QueueBounds, trace: seq<State>, steps: seq<Step>, i: nat, id: nat)
    requires Run(b, trace, steps) && i < |steps| && K.WaitValue(trace[i].kernel.clients, id).Some?
    ensures K.WaitValue(trace[i + 1].kernel.clients, id) == K.WaitValue(trace[i].kernel.clients, id)
  {
    var ktrace, ksteps := PipelineRun(b, trace, steps, i);
    CloseRespectsPipeline(b, trace, steps, i);
    var ktrace', ksteps' := ExtendBy(b, ktrace, ksteps, PipelinePart(steps[i]), trace[i + 1].kernel);
    HandleOutcomeIsFinal(b, ktrace', ksteps', |ksteps|, |ksteps'|, id);
  }

  /** No step of a commit call, of a close call or of the pipeline changes an outcome a handle has shown. */
  lemma {:induction false} OutcomesSurviveClose(b: QueueBounds, trace: seq<State>, steps: seq<Step>,
                                                i: nat, j: nat, id: nat)
    requires Run(b, trace, steps) && i <= j < |trace| && K.WaitValue(trace[i].kernel.clients, id).Some?
    ensures K.WaitValue(trace[j].kernel.clients, id) == K.WaitValue(trace[i].kernel.clients, id)
    decreases j - i
  {
    if i < j {
      OutcomeKeptByStep(b, trace, steps, i, id);
      OutcomesSurviveClose(b, trace, steps, i + 1, j, id);
    }
  }

  /**
   Once the store has agreed to close, and for good after a successful close, the pipeline is
   empty and every request ever admitted, cancelled ones included, shows the outcome the
   commit log gives it.
   */
  lemma CloseAnswersEveryRequest(b: QueueBounds, trace: seq<State>, steps: seq<Step>, i: nat, r: Request)
    requires Run(b, trace, steps) && i < |trace| && (TearingDown(trace[i]) || trace[i].close.closed)
    requires r in trace[i].kernel.flow.admitted
    ensures K.Drained(trace[i].kernel) && K.Terminal(trace[i].kernel.clients, r).Some?
    ensures TrueOutcome(trace[i].kernel, r.id, K.Terminal(trace[i].kernel.clients, r).value)
  {
    RunCoupled(b, trace, steps, i);
    assert trace[i].kernel.modes.quiesced;
    var ktrace, ksteps := PipelineRun(b, trace, steps, i);
    QuiescedIsDrained(b, ktrace, ksteps, |ksteps|);
    QuiescedDecidesAdmitted(b, ktrace, ksteps, |ksteps|, r);
    OutcomeIsTrue(b, ktrace, ksteps, |ksteps|, r);
  }

  /** From the moment the store agreed to close until a failed close reopens, no commit call is inside. */
  lemma NoCallsWhileTearingDown(b: QueueBounds, trace: seq<State>, steps: seq<Step>, i: nat, id: nat)
    requires Run(b, trace, steps) && i < |trace| && (TearingDown(trace[i]) || trace[i].close.closed)
    ensures !Calling(trace[i], id)
    ensures id !in trace[i].kernel.clients.cancelling && id !in trace[i].kernel.clients.reporting
  {
    RunCoupled(b, trace, steps, i);
    assert TearingDown(trace[i]) ==> C.PastDrain(trace[i].close);
  }
}
