/**
 The submission executor joined to the database: tickets carry requests into the pipeline, a
 ticket that fails tells its handle before it is released, and `Close` stops the executor
 before the pipeline.
 */
module SubmissionShutdown {
  import opened Common
  import opened Requests
  import opened AppendQueues
  import C = CloseProtocol
  import K = CommitKernel
  import KernelTheorems
  import KernelOutcomes
  import D = KernelShutdown
  import X = SubmissionExecutor

  /** Queue bounds, mailbox bounds and the number of executor workers. */
  datatype Config = Config(queue: QueueBounds, mailbox: X.Bounds, workers: nat)

  /** `request` maps each accepted ticket to the request it carries. */
  datatype State = State(x: X.State, d: D.State, request: map<nat, nat>)

  /** `id` is the request of a submission; the other executor steps do not use it. */
  datatype Step = Executor(e: X.Step, id: nat) | Database(b: D.Step)

  ghost predicate Init(s: State) { X.Init(s.x) && D.Init(s.d) && s.request == map[] }

  /** The handle was completed, or an epoch completes it. */
  predicate Told(c: K.Clients, id: nat) {
    K.HandleOf(c, id).result.Some? || K.HandleOf(c, id).bound.Some?
  }

  ghost predicate WasAdmitted(s: State, id: nat) { id in Ids(s.d.kernel.flow.admitted) }

  /** The fail callback of the ticket has run. */
  ghost predicate Failed(s: State, t: nat) { t in s.request ==> Told(s.d.kernel.clients, s.request[t]) }

  ghost predicate HandedOff(s: State, t: nat) { t in s.request ==> WasAdmitted(s, s.request[t]) }

  ghost predicate ExecutorEnabled(cf: Config, s: State, e: X.Step, id: nat) {
    && X.Enabled(cf.workers, s.x, e)
    && match e
       case Submit(_) => D.Calling(s.d, id) && !WasAdmitted(s, id) && id !in s.request.Values
       case ReleaseNow(t) => HandedOff(s, t)
       case CheckCancelled(w) => s.x.workers[w].id in s.x.m.cancelled ==> Failed(s, s.x.workers[w].id)
       case FinishHandoff(w, ok) => if ok then HandedOff(s, s.x.workers[w].id) else Failed(s, s.x.workers[w].id)
       case BeginStop => D.TearingDown(s.d)
       case FailPending => Failed(s, s.x.stop.pending[0])
       case Sweep(t) => Failed(s, t)
       case _ => true
  }

  ghost predicate Handing(s: State, id: nat) {
    exists w :: w in s.x.workers && s.x.workers[w].HandingOff? && s.x.workers[w].id in s.request
                && s.request[s.x.workers[w].id] == id
  }

  /** Asynchronous requests enter the queue in the hand-off of their ticket; the executor stops first. */
  ghost predicate DatabaseEnabled(cf: Config, s: State, b: D.Step) {
    && D.Enabled(cf.queue, s.d, b)
    && match b
       case Pipeline(Client(AdmitStep(r))) => if r.handled then Handing(s, r.id) else r.id !in s.request.Values
       case Pipeline(Other(StopStep)) => s.x.stop.Stopped?
       case _ => true
  }

  ghost predicate Enabled(cf: Config, s: State, step: Step) {
    match step
    case Executor(e, id) => ExecutorEnabled(cf, s, e, id)
    case Database(b) => DatabaseEnabled(cf, s, b)
  }

  ghost function Apply(cf: Config, s: State, step: Step): State
    requires Enabled(cf, s, step)
  {
    match step
    case Executor(e, id) =>
      var x' := X.Apply(cf.workers, cf.mailbox, s.x, e);
      s.(x := x', request := if x'.m.nextId == s.x.m.nextId then s.request else s.request[s.x.m.nextId := id])
    case Database(b) => s.(d := D.Apply(cf.queue, s.d, b))
  }

  ghost predicate Run(cf: Config, trace: seq<State>, steps: seq<Step>) {
    && |trace| == |steps| + 1 && Init(trace[0])
    && forall i :: 0 <= i < |steps| ==> Enabled(cf, trace[i], steps[i]) && trace[i + 1] == Apply(cf, trace[i], steps[i])
  }

  // ---- the invariant ------------------------------------------------------------------------

  ghost predicate Carried(s: State) {
    forall t :: 1 <= t < s.x.m.nextId <==> t in s.request
  }

  /** A ticket leaves the table only after its request was admitted or its handle told. */
  ghost predicate Accounted(s: State) {
    forall t :: t in s.request && t !in s.x.m.tickets ==>
      WasAdmitted(s, s.request[t]) || Told(s.d.kernel.clients, s.request[t])
  }

  ghost predicate AllAsync(s: State) {
    forall r :: r in s.d.kernel.flow.admitted && r.id in s.request.Values ==> r.handled
  }

  ghost predicate StopOrder(s: State) {
    && (!s.x.stop.NotStopped? ==> s.d.kernel.modes.quiesced)
    && (s.d.kernel.modes.stopping ==> s.x.stop.Stopped?)
  }

  ghost predicate Joined(cf: Config, s: State) {
    && X.Inv(cf.workers, cf.mailbox, s.x) && Carried(s) && Accounted(s) && AllAsync(s) && StopOrder(s)
    && D.Coupled(s.d) && KernelTheorems.Inv(cf.queue, s.d.kernel)
  }

  // ---- executor steps -------------------------------------------------------------------------

  /** The ticket a step takes out of the table, if any. */
  function Removes(s: X.State, e: X.Step): Option<nat> {
    match e
    case ReleaseNow(t) => Some(t)
    case CheckCancelled(w) =>
      if w in s.workers && s.workers[w].id in s.m.cancelled then Some(s.workers[w].id) else None
    case FinishHandoff(w, _) => if w in s.workers then Some(s.workers[w].id) else None
    case FailPending => if s.stop.Failing? && s.stop.pending != [] then Some(s.stop.pending[0]) else None
    case Sweep(t) => Some(t)
    case _ => None
  }

  lemma {:induction false} OnlyRemoves(cf: Config, x: X.State, e: X.Step, t: nat)
    requires X.Enabled(cf.workers, x, e) && t in x.m.tickets && Removes(x, e) != Some(t)
    ensures t in X.Apply(cf.workers, cf.mailbox, x, e).m.tickets
  {
    match e case CheckCancelled(_) => case FinishHandoff(_, _) => case _ =>
  }

  /** Only an accepted submission hands out an id, and its ticket is in the table. */
  lemma {:induction false} OnlySubmits(cf: Config, x: X.State, e: X.Step)
    requires X.Enabled(cf.workers, x, e)
    ensures var x' := X.Apply(cf.workers, cf.mailbox, x, e);
            || x'.m.nextId == x.m.nextId
            || (e.Submit? && x'.m.nextId == x.m.nextId + 1 && x.m.nextId in x'.m.tickets)
  {
    match e case CheckCancelled(_) => case FinishHandoff(_, _) => case _ =>
  }

  lemma {:induction false} StopsOnce(cf: Config, x: X.State, e: X.Step)
    requires X.Enabled(cf.workers, x, e)
    ensures var x' := X.Apply(cf.workers, cf.mailbox, x, e);
            && (x.stop.Stopped? ==> x'.stop.Stopped?)
            && (x.stop.NotStopped? && !x'.stop.NotStopped? ==> e == X.BeginStop)
  {
    match e case CheckCancelled(_) => case FinishHandoff(_, _) => case _ =>
  }

  lemma {:induction false} ExecutorAccounts(cf: Config, s: State, e: X.Step, id: nat)
    requires Carried(s) && Accounted(s) && s.x.m.nextId >= 1 && ExecutorEnabled(cf, s, e, id)
    ensures Carried(Apply(cf, s, Executor(e, id))) && Accounted(Apply(cf, s, Executor(e, id)))
  {
    var s' := Apply(cf, s, Executor(e, id));
    OnlySubmits(cf, s.x, e);
    forall t | t in s'.request && t !in s'.x.m.tickets
      ensures WasAdmitted(s', s'.request[t]) || Told(s'.d.kernel.clients, s'.request[t])
    {
      assert t in s.request && s'.request[t] == s.request[t];
      if t in s.x.m.tickets && Removes(s.x, e) != Some(t) { OnlyRemoves(cf, s.x, e, t); }
    }
  }

  lemma {:induction false} ExecutorStopOrder(cf: Config, s: State, e: X.Step, id: nat)
    requires StopOrder(s) && D.Coupled(s.d) && ExecutorEnabled(cf, s, e, id)
    ensures StopOrder(Apply(cf, s, Executor(e, id)))
  {
    StopsOnce(cf, s.x, e);
    if e == X.BeginStop {
      var t :| C.ClosingAt(s.d.close, t, C.TearingDown);
    }
  }

  lemma {:induction false} ExecutorJoined(cf: Config, s: State, e: X.Step, id: nat)
    requires Joined(cf, s) && ExecutorEnabled(cf, s, e, id)
    ensures Joined(cf, Apply(cf, s, Executor(e, id)))
  {
    X.StepKeepsInv(cf.workers, cf.mailbox, s.x, e);
    ExecutorAccounts(cf, s, e, id);
    ExecutorStopOrder(cf, s, e, id);
    OnlySubmits(cf, s.x, e);
    AsyncStays(s, Apply(cf, s, Executor(e, id)), id);
  }

  lemma AsyncStays(s: State, s': State, id: nat)
    requires AllAsync(s) && s'.d == s.d
    requires s'.request == s.request || (!WasAdmitted(s, id) && s'.request.Values <= s.request.Values + {id})
    ensures AllAsync(s')
  {
    forall r | r in s'.d.kernel.flow.admitted && r.id in s'.request.Values ensures r.handled {
      KernelOutcomes.AdmittedId(s.d.kernel.flow.admitted, r);
    }
  }

  // ---- database steps -------------------------------------------------------------------------

  /** First writer wins: a handle that was told stays told. */
  lemma {:induction false} ToldStays(b: QueueBounds, k: K.State, step: K.Step, id: nat)
    requires K.Enabled(b, k, step) && Told(k.clients, id)
    ensures Told(K.Apply(b, k, step).clients, id)
  {
    if KernelOutcomes.Touches(k, step) != Some(id) {
      KernelOutcomes.OnlyTouched(b, k, step, id);
    } else {
      match step
      case Client(ReportCancelledStep(_)) =>
      case Client(RefuseStep(_)) =>
      case Select(BindStep) =>
      case Other(SweepStep(_)) =>
      case _ =>
    }
  }

  lemma {:induction false} ModesStay(b: QueueBounds, k: K.State, step: K.Step)
    requires K.Enabled(b, k, step)
    ensures k.modes.quiesced ==> K.Apply(b, k, step).modes.quiesced
    ensures K.Apply(b, k, step).modes.stopping ==> k.modes.stopping || step == K.Other(K.StopStep)
  {
    match step
    case Client(c) => match c { case AdmitStep(_) => case CancelStep(_, _) => case _ => }
    case Select(w) => match w { case BeginCollectStep(_) => case CollectStep(_, _) => case BindStep => case _ => }
    case Write(x) => match x { case WriteDecidedStep(_) => case WriteGeneralStep(_, _) => case _ => }
    case Other(_) =>
  }

  lemma {:induction false} OnlyAdmits(b: QueueBounds, k: K.State, step: K.Step, r: Request)
    requires K.Enabled(b, k, step) && r in K.Apply(b, k, step).flow.admitted
    ensures r in k.flow.admitted || step == K.Client(K.AdmitStep(r))
  {
    if !(step.Client? && step.c.AdmitStep?) { KernelOutcomes.SameAdmitted(b, k, step); }
  }

  /** What the pipeline's part of a step does to admissions, told handles and modes. */
  ghost predicate Moved(k: K.State, part: Option<K.Step>, k': K.State) {
    && (forall r :: r in k.flow.admitted ==> r in k'.flow.admitted)
    && (forall r :: r in k'.flow.admitted ==> r in k.flow.admitted || part == Some(K.Client(K.AdmitStep(r))))
    && (forall id :: Told(k.clients, id) ==> Told(k'.clients, id))
    && (k.modes.quiesced ==> k'.modes.quiesced)
    && (k'.modes.stopping ==> k.modes.stopping || part == Some(K.Other(K.StopStep)))
  }

  lemma ProjectsMoved(b: QueueBounds, k: K.State, part: Option<K.Step>, k': K.State)
    requires D.Projects(b, k, part, k')
    ensures Moved(k, part, k')
  {
    if part.Some? {
      KernelOutcomes.FlowGrows(b, k, part.value);
      ModesStay(b, k, part.value);
      forall r | r in k'.flow.admitted ensures r in k.flow.admitted || part == Some(K.Client(K.AdmitStep(r))) {
        OnlyAdmits(b, k, part.value, r);
      }
      forall id | Told(k.clients, id) ensures Told(k'.clients, id) { ToldStays(b, k, part.value, id); }
    }
  }

  lemma MovedAccounts(s: State, s': State, part: Option<K.Step>)
    requires Carried(s) && Accounted(s) && s'.x == s.x && s'.request == s.request
    requires Moved(s.d.kernel, part, s'.d.kernel)
    ensures Carried(s') && Accounted(s')
  {
    forall t | t in s'.request && t !in s'.x.m.tickets
      ensures WasAdmitted(s', s'.request[t]) || Told(s'.d.kernel.clients, s'.request[t])
    {
      if WasAdmitted(s, s.request[t]) {
        var r := KernelOutcomes.AdmittedWith(s.d.kernel.flow.admitted, s.request[t]);
        KernelOutcomes.AdmittedId(s'.d.kernel.flow.admitted, r);
      }
    }
  }

  lemma {:induction false} DatabaseJoined(cf: Config, s: State, b: D.Step)
    requires Joined(cf, s) && DatabaseEnabled(cf, s, b)
    ensures Joined(cf, Apply(cf, s, Database(b)))
  {
    var s', part := Apply(cf, s, Database(b)), D.PipelinePart(b);
    D.StepKeepsCoupled(cf.queue, s.d, b);
    D.StepProjects(cf.queue, s.d, b);
    D.ProjectsKeepsInv(cf.queue, s.d.kernel, part, s'.d.kernel);
    ProjectsMoved(cf.queue, s.d.kernel, part, s'.d.kernel);
    MovedAccounts(s, s', part);
    assert AllAsync(s') && StopOrder(s');
  }

  lemma {:induction false} InitJoined(cf: Config, s: State)
    requires Init(s)
    ensures Joined(cf, s)
  {
    D.InitCoupled(cf.queue, s.d);
    X.InitInv(cf.workers, cf.mailbox, s.x);
  }

  lemma {:induction false} RunJoined(cf: Config, trace: seq<State>, steps: seq<Step>, i: nat)
    requires Run(cf, trace, steps) && i < |trace|
    ensures Joined(cf, trace[i])
  {
    if i == 0 {
      InitJoined(cf, trace[0]);
    } else {
      RunJoined(cf, trace, steps, i - 1);
      NextJoined(cf, trace, steps, i - 1);
    }
  }

  lemma NextJoined(cf: Config, trace: seq<State>, steps: seq<Step>, j: nat)
    requires Run(cf, trace, steps) && j < |steps| && Joined(cf, trace[j])
    ensures Joined(cf, trace[j + 1])
  {
    var s, step := trace[j], steps[j];
    assert Enabled(cf, s, step) && trace[j + 1] == Apply(cf, s, step);
    match step
    case Executor(e, id) => ExecutorJoined(cf, s, e, id);
    case Database(b) => DatabaseJoined(cf, s, b);
  }

  // ---- what it means ----------------------------------------------------------------------------

  lemma ExtendDatabase(b: QueueBounds, trace: seq<D.State>, steps: seq<D.Step>, step: D.Step)
    requires D.Run(b, trace, steps) && D.Enabled(b, trace[|steps|], step)
    ensures D.Run(b, trace + [D.Apply(b, trace[|steps|], step)], steps + [step])
  {
    var trace', steps' := trace + [D.Apply(b, trace[|steps|], step)], steps + [step];
    forall i | 0 <= i < |steps'|
      ensures D.Enabled(b, trace'[i], steps'[i]) && trace'[i + 1] == D.Apply(b, trace'[i], steps'[i])
    {
      if i < |steps| { assert trace'[i] == trace[i] && trace'[i + 1] == trace[i + 1] && steps'[i] == steps[i]; }
    }
  }

  /** The database inside a joined run is reached by a run of the database alone. */
  lemma {:induction false} DatabaseRun(cf: Config, trace: seq<State>, steps: seq<Step>, i: nat)
    returns (dtrace: seq<D.State>, dsteps: seq<D.Step>)
    requires Run(cf, trace, steps) && i < |trace|
    ensures D.Run(cf.queue, dtrace, dsteps) && dtrace[|dsteps|] == trace[i].d
  {
    if i == 0 {
      dtrace, dsteps := [trace[0].d], [];
    } else {
      dtrace, dsteps := DatabaseRun(cf, trace, steps, i - 1);
      assert Enabled(cf, trace[i - 1], steps[i - 1]) && trace[i] == Apply(cf, trace[i - 1], steps[i - 1]);
      if steps[i - 1].Database? {
        ExtendDatabase(cf.queue, dtrace, dsteps, steps[i - 1].b);
        dtrace, dsteps := dtrace + [trace[i].d], dsteps + [steps[i - 1].b];
      }
    }
  }

  /** Once the pipeline is marked, a request that was admitted or told shows an outcome. */
  lemma ToldMeansAnswered(b: QueueBounds, ktrace: seq<K.State>, ksteps: seq<K.Step>, id: nat)
    requires K.Run(b, ktrace, ksteps) && ktrace[|ksteps|].modes.quiesced
    requires var k := ktrace[|ksteps|];
             && (id in Ids(k.flow.admitted) || Told(k.clients, id))
             && (forall r :: r in k.flow.admitted && r.id == id ==> r.handled)
    ensures K.WaitValue(ktrace[|ksteps|].clients, id).Some?
  {
    var k := ktrace[|ksteps|];
    KernelOutcomes.OwnedInRun(b, ktrace, ksteps, |ksteps|);
    if id in Ids(k.flow.admitted) {
      var r := KernelOutcomes.AdmittedWith(k.flow.admitted, id);
      KernelOutcomes.QuiescedDecidesAdmitted(b, ktrace, ksteps, |ksteps|, r);
    }
  }

  /** When `Stop` has returned, every ticket the executor ever accepted has a handle with an outcome. */
  lemma StopAnswersEveryTicket(cf: Config, trace: seq<State>, steps: seq<Step>, i: nat, t: nat)
    requires Run(cf, trace, steps) && i < |trace| && trace[i].x.stop.Stopped? && 1 <= t < trace[i].x.m.nextId
    ensures t in trace[i].request && K.WaitValue(trace[i].d.kernel.clients, trace[i].request[t]).Some?
  {
    RunJoined(cf, trace, steps, i);
    var s := trace[i];
    assert t in s.request && t !in s.x.m.tickets && s.request[t] in s.request.Values;
    var dtrace, dsteps := DatabaseRun(cf, trace, steps, i);
    var ktrace, ksteps := D.PipelineRun(cf.queue, dtrace, dsteps, |dsteps|);
    ToldMeansAnswered(cf.queue, ktrace, ksteps, s.request[t]);
  }

  /** After a successful close no accepted ticket is left without an outcome. */
  lemma CloseAnswersEveryTicket(cf: Config, trace: seq<State>, steps: seq<Step>, i: nat, t: nat)
    requires Run(cf, trace, steps) && i < |trace| && trace[i].d.close.closed && 1 <= t < trace[i].x.m.nextId
    ensures t in trace[i].request && K.WaitValue(trace[i].d.kernel.clients, trace[i].request[t]).Some?
  {
    RunJoined(cf, trace, steps, i);
    StopAnswersEveryTicket(cf, trace, steps, i, t);
  }
}
