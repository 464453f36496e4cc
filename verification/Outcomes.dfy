/** What one reconcile comes to, said of what it read: the status it leaves, the error it returns, and whose annotations
    it patches. */
module Outcomes {
  import opened Wrappers
  import opened Fields
  import opened Objects
  import opened LimitadorTypes
  import opened StatusConditions
  import opened K8sObjects
  import opened Cluster
  import opened Reconcilers
  import opened Controller
  import opened Histories
  import opened Runs
  import opened Annotations
  import opened ReadySoundness
  import opened Failures
  import opened Idempotence

  // ---------- why a Deployment is not available ----------

  ghost predicate FirstAvailable(d: Object, c: DeploymentCondition) {
    var cs := d.status.conditions;
    exists i | 0 <= i < |cs| :: cs[i] == c && IsFirst(cs, "Available", i)
  }

  ghost predicate NoAvailable(d: Object) {
    forall c | c in d.status.conditions :: c.conditionType != "Available"
  }

  /** The message that goes with the first availability test `d` does not pass. */
  ghost predicate Because(d: Object, message: string) {
    var s := d.status;
    && (s.observedGeneration != d.generation ==> message == "Deployment still in progress")
    && (s.observedGeneration == d.generation && NoAvailable(d) ==> message == "Available condition not found")
    && (s.observedGeneration == d.generation ==> forall c | FirstAvailable(d, c) ::
          && (c.status != True ==> message == c.message)
          && (c.status == True && s.unavailableReplicas != 0 ==> message == "Deployment has unavailable replicas")
          && (c.status == True && s.unavailableReplicas == 0 ==> message == "Deployment has replicas not ready yet"))
  }

  lemma ReasonExactly(d: Object)
    ensures Unavailability(d).None? <==> Available(d)
    ensures Unavailability(d).Some? ==> Because(d, Unavailability(d).value)
  {
    AvailableIff(d);
    AvailableFound(d);
  }

  lemma AvailableFound(d: Object)
    ensures var found := FirstCondition(d.status.conditions, AVAILABLE);
      && (NoAvailable(d) <==> found.None?)
      && forall c :: FirstAvailable(d, c) <==> found == Some(c)
  {
    FirstConditionIsFirst(d.status.conditions, AVAILABLE);
  }

  /** No two messages go with one Deployment. */
  lemma OneReason(d: Object, m: string, n: string)
    requires Because(d, m) && Because(d, n)
    ensures m == n
  {
    AvailableFound(d);
    if d.status.observedGeneration == d.generation && !NoAvailable(d) {
      assert FirstAvailable(d, FirstCondition(d.status.conditions, AVAILABLE).value);
    }
  }

  // ---------- what a status says ----------

  datatype Verdict = Verdict(status: ConditionStatus, reason: string, message: string)

  predicate Says(c: Condition, v: Verdict) {
    && c.conditionType == "Ready" && c.observedGeneration == 0
    && c.status == v.status && c.reason == v.reason && c.message == v.message
  }

  ghost predicate Tells(s: LimitadorStatus, lim: Limitador, v: Verdict) {
    && s.observedGeneration == lim.generation
    && s.service == Some(LimitadorService("limitador-" + lim.name + "." + lim.namespace + ".svc.cluster.local",
                                          Ports.Ports(lim.HTTPPort(), lim.GRPCPort())))
    && exists c | c in s.conditions :: Says(c, v)
  }

  /** Tells `v`, and says of everything else what the status read said. */
  ghost predicate NextStatus(s: LimitadorStatus, lim: Limitador, v: Verdict) {
    && Tells(s, lim, v) && UniqueTypes(s.conditions)
    && forall c: Condition | c.conditionType != "Ready" :: c in s.conditions <==> c in lim.status.conditions
  }

  /** The verdict on what a read of the Deployment returned. */
  ghost predicate Judges(d: Option<Object>, lim: Limitador, v: Verdict) {
    if d.Some? && Available(d.value) then v == Verdict(True, "Ready", "Limitador is ready")
    else
      && v.status == False && v.reason == "LimitadorNotAvailable"
      && if d.None? then v.message == "limitador-" + lim.name + " not found" else Because(d.value, v.message)
  }

  function Failure(e: Error): Verdict {
    Verdict(False, "ReconcilliationError", e.message)
  }

  lemma OneVerdict(d: Option<Object>, lim: Limitador, u: Verdict, v: Verdict)
    requires Judges(d, lim, u) && Judges(d, lim, v)
    ensures u == v
  {
    hide Available, Because;
    if d.Some? && !Available(d.value) {
      OneReason(d.value, u.message, v.message);
    }
  }

  function Told(v: Verdict): Condition {
    Condition("Ready", v.status, 0, 0, v.reason, v.message)
  }

  lemma ReflectsTells(lim: Limitador, v: Verdict)
    requires UniqueTypes(lim.status.conditions)
    ensures Reflects(lim, Told(v)) <==> Tells(lim.status, lim, v)
  {
    var cs := lim.status.conditions;
    var i := IndexOf(cs, "Ready");
    if c :| c in cs && Says(c, v) {
      var j :| 0 <= j < |cs| && cs[j] == c;
      assert j == i;
    }
    if Reflects(lim, Told(v)) {
      assert cs[i] in cs && Says(cs[i], v);
    }
  }

  lemma NewStatusTells(lim: Limitador, v: Verdict, now: nat)
    requires UniqueTypes(lim.status.conditions)
    ensures NextStatus(NewStatus(lim, Told(v), now), lim, v)
  {
    hide SetCondition;
    var cs := lim.status.conditions;
    SetConditionKeepsOthers(cs, Told(v), now);
    var c :| c in SetCondition(cs, Told(v), now) && c.conditionType == "Ready" && c.status == v.status
      && c.reason == v.reason && c.message == v.message && c.observedGeneration == 0;
    assert Says(c, v);
  }

  // ---------- the status step ----------

  /** `s` went out as one status patch, whose failure is passed on. */
  predicate Sent(y: World, done: (World, Option<Error>), s: LimitadorStatus) {
    var reply := PatchStatus(y, s, y.now);
    done.0 == reply.0 &&
    done.1 == if reply.1.None? then None else Some(Failed("failed to update status: " + reply.1.value.message))
  }

  /** From `y` on: a status that tells `v` already is left alone, and otherwise one that does is sent. */
  ghost predicate Reports(y: World, done: (World, Option<Error>), lim: Limitador, v: Verdict) {
    if Tells(lim.status, lim, v) then done == (y, None)
    else exists s: LimitadorStatus :: NextStatus(s, lim, v) && Sent(y, done, s)
  }

  lemma WriteReports(y: World, lim: Limitador, v: Verdict)
    requires UniqueTypes(lim.status.conditions)
    ensures Reports(y, WriteStatus(y, lim, NewStatus(lim, Told(v), y.now)), lim, v)
  {
    hide NewStatus, PatchStatus, Tells, Steady, Reflects;
    var s := NewStatus(lim, Told(v), y.now);
    ReflectsTells(lim, v);
    NewStatusTells(lim, v, y.now);
    if Tells(lim.status, lim, v) {
      ReflectsSteady(lim, Told(v), y.now);
    } else {
      if Steady(lim, s) {
        SteadyReflects(lim, Told(v), y.now);
      }
      assert Sent(y, WriteStatus(y, lim, s), s);
    }
  }

  /** What a read of the Deployment finds. */
  function Found(y: World, lim: Limitador): Option<Object> {
    View(y, Key(Kind.Deployment, lim.namespace, "limitador-" + lim.name))
  }

  /** After a spec error the status step reports that error. After a clean spec it looks at the Deployment once: a read
      that fails ends the step with the error of the read, and otherwise the verdict on what was found is reported. */
  lemma StatusStepExactly(x: World, lim: Limitador, specErr: Option<Error>)
    requires UniqueTypes(lim.status.conditions)
    ensures specErr.Some? ==> Reports(x, StatusEffect(x, lim, specErr), lim, Failure(specErr.value))
    ensures specErr.None? ==>
      var done := StatusEffect(x, lim, specErr);
      match FaultOf(x)
      case Rejected(m) => done == (Before(x), Some(Failed(m)))
      case ReplyLost(m) => done == (Before(x), Some(Failed(m)))
      case NoFault =>
        var d := Found(Before(x), lim);
        exists v :: Judges(d, lim, v) && Reports(Note(Before(x), CheckedDeployment(d)), done, lim, v)
  {
    hide WriteStatus, NewStatus, Reports, Before, View, Available, Because, Unavailability;
    if specErr.Some? {
      WriteReports(x, lim, Failure(specErr.value));
    } else if FaultOf(x).NoFault? {
      var d := Found(Before(x), lim);
      var y := Note(Before(x), CheckedDeployment(d));
      var v := VerdictOn(d, lim);
      VerdictJudges(d, lim);
      WriteReports(y, lim, v);
      assert ReadyCondition(x, lim, specErr) == (y, Ok(Told(v)));
    }
  }

  function VerdictOn(d: Option<Object>, lim: Limitador): Verdict {
    if d.None? then Verdict(False, "LimitadorNotAvailable", "limitador-" + lim.name + " not found")
    else
      match Unavailability(d.value)
      case None => Verdict(True, "Ready", "Limitador is ready")
      case Some(reason) => Verdict(False, "LimitadorNotAvailable", reason)
  }

  lemma VerdictJudges(d: Option<Object>, lim: Limitador)
    ensures Judges(d, lim, VerdictOn(d, lim))
  {
    hide Available, Because, Unavailability;
    if d.Some? {
      ReasonExactly(d.value);
    }
  }

  // ---------- one reconcile ----------

  /** The resource is read and is not being deleted; the API server keeps its conditions as a list keyed by type. */
  ghost predicate Begins(w: World, lim: Limitador) {
    GetLimitador(w).1 == Ok(lim) && !lim.deleting && UniqueTypes(lim.status.conditions)
  }

  /** Without a resource, or with one that is being deleted, a reconcile does nothing and reports no error; a read that
      fails is its error. */
  lemma NothingToDo(w: World)
    ensures var r := ReconcileEffect(w);
      match FaultOf(w)
      case NoFault =>
        var seen := ViewResource(Before(w));
        seen.None? || seen.value.lim.deleting ==> r == Outcome(Before(w), RequestResult(false, 0), None)
      case Rejected(m) => r == Outcome(Before(w), RequestResult(false, 0), Some(Failed(m)))
      case ReplyLost(m) => r == Outcome(Before(w), RequestResult(false, 0), Some(Failed(m)))
    ensures Before(w).journal == w.journal
  {
    hide Before, ResourceEffect, Passes;
    BeforePasses(w);
    PassesJournal(w, Before(w));
  }

  predicate EndsWith(w: World, events: seq<Event>) {
    |events| <= |w.journal| && w.journal[|w.journal| - |events|..] == events
  }

  /** A spec pass without error ends by recording that it is complete. */
  lemma CleanSpecRecords(w: World, lim: Limitador)
    ensures SpecEffect(w, lim).error.None? ==>
      EndsWith(SpecEffect(w, lim).world, [SpecCompleted(lim.generation)])
  {
    hide Exec, SpecPlan, AnnotatePods;
  }

  /** The last things done were completing the spec and looking at the Deployment, and the status read told the verdict
      on it already. */
  ghost predicate ToldAlready(x: World, lim: Limitador, d: Option<Object>, v: Verdict) {
    EndsWith(x, [SpecCompleted(lim.generation), CheckedDeployment(d)]) && Tells(lim.status, lim, v)
  }

  /** The last things done were completing the spec, looking at the Deployment and writing a status that tells the
      verdict on it; and so does the stored status. */
  ghost predicate ToldNow(x: World, lim: Limitador, d: Option<Object>, v: Verdict, s: LimitadorStatus) {
    && |x.journal| > 0 && x.journal[|x.journal| - 1].WroteStatus? && x.journal[|x.journal| - 1].status == s
    && EndsWith(x.(journal := x.journal[..|x.journal| - 1]), [SpecCompleted(lim.generation), CheckedDeployment(d)])
    && NextStatus(s, lim, v)
    && StoredResource(x).Some? && Tells(StoredResource(x).value.lim.status, lim, v)
  }

  /** A reconcile that ends without error has told the truth about the Deployment it looked at: the status read said so
      already, or one saying so was written and is the stored one. */
  lemma SuccessIsReported(w: World, lim: Limitador)
    requires Begins(w, lim)
    ensures var x := ReconcileEffect(w).world; ReconcileEffect(w).error.None? ==>
      exists d, v :: Judges(d, lim, v) && (ToldAlready(x, lim, d, v) || exists s :: ToldNow(x, lim, d, v, s))
  {
    hide SpecEffect, StatusEffect, GetLimitador, Before, Reports, Judges, ToldAlready, ToldNow, View, Passes;
    if ReconcileEffect(w).error.None? {
      var spec := SpecEffect(GetLimitador(w).0, lim);
      var x := spec.world;
      var done := StatusEffect(x, lim, None);
      assert spec.error.None? && done.1.None?;
      CleanSpecRecords(GetLimitador(w).0, lim);
      StatusStepExactly(x, lim, None);
      BeforePasses(x);
      PassesJournal(x, Before(x));
      var d := Found(Before(x), lim);
      var v :| Judges(d, lim, v) && Reports(Note(Before(x), CheckedDeployment(d)), done, lim, v);
      ReportedWithoutError(Before(x), done, lim, d, v);
    }
  }

  lemma ReportedWithoutError(y: World, done: (World, Option<Error>), lim: Limitador, d: Option<Object>, v: Verdict)
    requires EndsWith(y, [SpecCompleted(lim.generation)])
    requires Reports(Note(y, CheckedDeployment(d)), done, lim, v) && done.1.None?
    ensures ToldAlready(done.0, lim, d, v) || exists s :: ToldNow(done.0, lim, d, v, s)
  {
    hide Before, Tells, NextStatus, MergeStatus, Passes, UniqueTypes;
    var z := Note(y, CheckedDeployment(d));
    assert EndsWith(z, [SpecCompleted(lim.generation), CheckedDeployment(d)]);
    if !Tells(lim.status, lim, v) {
      var s: LimitadorStatus :| NextStatus(s, lim, v) && Sent(z, done, s);
      BeforePasses(z);
      PassesJournal(z, Before(z));
      StatusStored(z, s);
      assert done.0.journal[..|done.0.journal| - 1] == z.journal;
      StoredTells(StoredResource(Before(z)).value, lim, s, v);
      assert ToldNow(done.0, lim, d, v, s);
    }
  }

  lemma StatusStored(z: World, s: LimitadorStatus)
    requires PatchStatus(z, s, z.now).1.None?
    ensures var x := PatchStatus(z, s, z.now).0;
      && StoredResource(Before(z)).Some?
      && x.journal == Before(z).journal + [WroteStatus(s, z.now)]
      && StoredResource(x) == Some(MergeStatus(StoredResource(Before(z)).value, s))
  {
    hide Before, MergeStatus;
  }

  lemma StoredTells(r: Resource, lim: Limitador, s: LimitadorStatus, v: Verdict)
    requires NextStatus(s, lim, v)
    ensures Tells(MergeStatus(r, s).lim.status, lim, v)
  {
    hide KeptConditions, UniqueTypes;
    var c :| c in s.conditions && Says(c, v);
    assert c in MergeStatus(r, s).lim.status.conditions;
  }

  /** After a clean spec the error of the status step is the error of the reconcile: that of the look at the Deployment,
      or that of the one status patch, with its prefix; and there is none when nothing has to be written or the patch
      gets through. */
  lemma StatusErrorIsReturned(w: World, lim: Limitador)
    requires Begins(w, lim)
    ensures var x := SpecEffect(Before(w), lim).world; var y := Before(x); var e := ReconcileEffect(w).error;
      SpecEffect(Before(w), lim).error.None? ==>
      match FaultOf(x)
      case Rejected(m) => e == Some(Failed(m))
      case ReplyLost(m) => e == Some(Failed(m))
      case NoFault =>
        var d := Found(y, lim);
        exists v :: Judges(d, lim, v) && e == StatusErrorFor(Note(y, CheckedDeployment(d)), lim, v)
    ensures forall d, u, v :: Judges(d, lim, u) && Judges(d, lim, v) ==> u == v
  {
    hide SpecEffect, StatusEffect, Before, Judges, View, Tells, Reports, NextStatus, MergeStatus;
    forall d, u, v | Judges(d, lim, u) && Judges(d, lim, v)
      ensures u == v
    {
      OneVerdict(d, lim, u, v);
    }
    ReadFirst(w, lim);
    var x := SpecEffect(Before(w), lim).world;
    StatusStepExactly(x, lim, None);
    if SpecEffect(Before(w), lim).error.None? && FaultOf(x).NoFault? {
      var y := Before(x);
      var d := Found(y, lim);
      var v :| Judges(d, lim, v) && Reports(Note(y, CheckedDeployment(d)), StatusEffect(x, lim, None), lim, v);
      ReportedError(y, d, StatusEffect(x, lim, None), lim, v);
    }
  }

  lemma ReadFirst(w: World, lim: Limitador)
    requires GetLimitador(w).1 == Ok(lim)
    ensures GetLimitador(w).0 == Before(w)
  {
    hide Before;
  }

  /** The error with which reporting `v` ends from `y` on. */
  ghost function StatusErrorFor(y: World, lim: Limitador, v: Verdict): Option<Error> {
    if Tells(lim.status, lim, v) then None
    else
      match FaultOf(y)
      case Rejected(m) => Some(Failed("failed to update status: " + m))
      case ReplyLost(m) => Some(Failed("failed to update status: " + m))
      case NoFault =>
        if StoredResource(Before(y)).Some? then None
        else Some(Failed("failed to update status: " + "limitador not found"))
  }

  lemma ReportedError(y: World, d: Option<Object>, done: (World, Option<Error>), lim: Limitador, v: Verdict)
    requires Reports(Note(y, CheckedDeployment(d)), done, lim, v)
    ensures done.1 == StatusErrorFor(Note(y, CheckedDeployment(d)), lim, v)
  {
    hide Before, Tells, NextStatus, MergeStatus;
    var z := Note(y, CheckedDeployment(d));
    if !Tells(lim.status, lim, v) {
      var s: LimitadorStatus :| NextStatus(s, lim, v) && Sent(z, done, s);
    }
  }

  // ---------- the claim step ----------

  /** With disk storage set, the claim that a read shows is left alone; it is created only when the read succeeds and
      shows none, and a read that fails ends the step. */
  lemma ClaimStepExactly(w: World, lim: Limitador)
    requires lim.spec.storage.Some? && lim.spec.storage.value.disk.Some?
    ensures var out := Perform(w, ClaimActionFor(PvcManifest(lim))); var y := Before(w);
      var k := Key(PersistentVolumeClaim, lim.namespace, "limitador-" + lim.name);
      match FaultOf(w)
      case Rejected(m) => out == (y, Some(Failed(m)))
      case ReplyLost(m) => out == (y, Some(Failed(m)))
      case NoFault => out == if View(y, k).Some? then (y, None) else Create(y, k, PvcManifest(lim).Desired())
  {
    hide Before, View, Create, PvcManifest, ClaimActionFor, Manifest.Desired;
    ClaimWanted(lim);
  }

  // ---------- the pod step ----------

  /** Exactly the pods of the namespace that a read shows with the two selector labels are listed. */
  lemma PodsListed(y: World, lim: Limitador, k: Key)
    ensures (exists p :: p in Listed(y, lim) && p.key == k) <==>
      && k in y.roster && k.kind == Pod && k.namespace == lim.namespace && View(y, k).Some?
      && var labels := At(At(Root, Metadata), Segment.Labels); var fields := View(y, k).value.content.fields;
         && At(labels, App) in fields && fields[At(labels, App)] == Text("limitador")
         && At(labels, LimitadorResource) in fields && fields[At(labels, LimitadorResource)] == Text(lim.name)
  {
    hide View, ListedFrom;
    var selector := SelectorLabels(LABELS, lim);
    ListedAreSelected(y, y.roster, lim.namespace, selector);
    if k in y.roster && k.kind == Pod && k.namespace == lim.namespace && View(y, k).Some?
       && Selected(View(y, k).value, selector) {
      ListedBefore(y, y.roster, lim.namespace, selector, k);
    }
    if p :| p in Listed(y, lim) && p.key == k {
      assert Selected(p.state, selector);
    }
  }

  /** No pod is listed, or the resource asks for a number of pods and another number is listed. */
  predicate Waits(lim: Limitador, pods: nat) {
    pods == 0 || (lim.spec.replicas.Some? && pods != lim.GetReplicas())
  }

  /** The pod step waits, asking to be called again and touching nothing, when no pod is listed, another number than the
      resource asks for, or no ConfigMap; and otherwise patches the pods that are not annotated with its version, in
      list order up to the first patch that fails. */
  lemma PodStepExactly(w: World, lim: Limitador)
    ensures var out := AnnotatePods(w, lim); var y := Before(w);
      match FaultOf(w)
      case Rejected(m) => out == StepOutcome(y, Some(Failed(m)), RequestResult(false, 0))
      case ReplyLost(m) => out == StepOutcome(y, Some(Failed(m)), RequestResult(false, 0))
      case NoFault =>
        if Waits(lim, |Listed(y, lim)|) then out == StepOutcome(y, None, RequestResult(true, 0))
        else AnnotatesFrom(y, lim, Listed(y, lim), out)
  {
    hide Before, View, ListedFrom, SelectorLabels, Exec, PodPlan, PatchedFirst, Stale, Passes;
    var y := Before(w);
    var pods := Listed(y, lim);
    BeforePasses(y);
    PassesJournal(y, Before(y));
    ListedAreSelected(y, y.roster, lim.namespace, SelectorLabels(LABELS, lim));
    if FaultOf(w).NoFault? && !Waits(lim, |pods|) && FaultOf(y).NoFault? {
      var cm := View(Before(y), ConfigMapKey(lim));
      if cm.Some? {
        LoopPatchesExactlyStale(Before(y), pods, cm.value.version);
      }
    }
  }

  ghost predicate AnnotatesFrom(y: World, lim: Limitador, pods: seq<ListedPod>, out: StepOutcome) {
    var z := Before(y);
    match FaultOf(y)
    case Rejected(m) => out == StepOutcome(z, Some(Failed(m)), RequestResult(false, 0))
    case ReplyLost(m) => out == StepOutcome(z, Some(Failed(m)), RequestResult(false, 0))
    case NoFault =>
      match View(z, Key(ConfigMap, lim.namespace, "limitador-limits-config-" + lim.name))
      case None => out == StepOutcome(z, None, RequestResult(true, 0))
      case Some(cm) =>
        && out.result == RequestResult(false, 0)
        && exists k: nat :: PatchedFirst(z, (out.world, out.error), Stale(pods, cm.version), cm.version, k)
  }
}
