/**
 Failures are recorded: whenever the cluster of a live object cannot be read, or a call behind the gate does
 not succeed, the status that the worker then writes says so, and says nothing else that is new. A cluster
 that is not ready, and a deletion that fails, leave no trace in the object.
 */
module Failure {
  import opened Api
  import opened Broker
  import opened Protocol
  import opened Invariant

  // ---------------------------------------------------------------- the status under work

  /** Behind the gate of a live object. */
  predicate Working(stage: Stage) {
    match stage
    case Credentials | Password | Connect | Health | Exists | Create | Grow | Alter | Upsert => true
    case _ => false
  }

  /** Until the reconcile comes to its end, the status in the worker's copy is the one that was read, except
      that behind the gate it says that the worker is progressing. */
  ghost predicate StatusKept(pc: PC, r: Object) {
    pc.At? && (pc.stage.GateCluster? || Working(pc.stage)) ==>
      && SameVersion(pc.obj, r) && !r.deleting
      && pc.obj.status.observedGeneration == r.status.observedGeneration
      && pc.obj.status.detail == r.status.detail
      && FindStatusCondition(pc.obj.status.conditions, Progressing) ==
           (if pc.stage.GateCluster? then FindStatusCondition(r.status.conditions, Progressing)
            else Some(Condition(Progressing, true, r.generation)))
  }

  ghost predicate Kept(s: Sys) {
    s.pc.At? ==> s.seen < |s.history| && s.history[s.seen].Some? && StatusKept(s.pc, s.history[s.seen].value)
  }

  lemma KeptLook(c: Config, s: Sys, ch: Choice)
    requires Kept(s) && Reading(s.pc)
    ensures Kept(s.(pc := AfterLook(c, s.pc, s.entity, ch)))
  {
    FindAfterSet(s.pc.obj.status.conditions, Condition(Progressing, true, s.pc.obj.generation), Progressing);
  }

  lemma KeptBroker(c: Config, s: Sys, out: Outcome)
    requires Kept(s) && Writing(s.pc)
    ensures Kept(StepBroker(c, s, out))
  {
  }

  lemma KeptStep(c: Config, s: Sys, ch: Choice)
    requires Kept(s)
    ensures Kept(Step(c, s, ch))
  {
    if IsEnv(ch) {
      assert s.history <= StepEnv(c, s, ch).history;
    } else if ch.Crash? || ch.Read? {
    } else if Reading(s.pc) {
      KeptLook(c, s, ch);
    } else if ch.Call? && Writing(s.pc) {
      KeptBroker(c, s, ch.outcome);
    }
  }

  lemma {:induction false} KeptRun(c: Config, s: Sys, cs: seq<Choice>)
    requires Initial(c, s)
    ensures Sane(c, Run(c, s, cs)) && Kept(Run(c, s, cs))
  {
    SaneRun(c, s, cs);
    if cs != [] {
      KeptRun(c, s, cs[..|cs| - 1]);
      KeptStep(c, Run(c, s, cs[..|cs| - 1]), cs[|cs| - 1]);
    }
  }

  // ---------------------------------------------------------------- what goes wrong

  /** The topic that was found may not be brought to the spec. */
  ghost predicate NotAllowed(s: Spec, e: Option<Entity>) {
    s.TopicSpec? && e.Some? && e.value.Topic? &&
      (|| !s.assumeOwnership
       || e.value.replication != DesiredReplication(s)
       || e.value.partitions > (if s.partitions == 0 then 1 else s.partitions))
  }

  /** The cluster cannot be read, or a call behind the gate does not succeed. */
  ghost predicate GoesWrong(c: Config, s: Sys, ch: Choice) {
    s.pc.At? && match s.pc.stage
      case GateCluster => ch == ClusterIs(None)
      case Password =>
        ch.SecretIs? && s.pc.obj.spec.UserSpec?
        && (ch.data.None? ||
            (if s.pc.obj.spec.secretKey == "" then "password" else s.pc.obj.spec.secretKey) !in ch.data.value)
      case Credentials | Connect | Health => ch.Call? && !ch.outcome.Ok?
      case Exists => ch.Call? && (!ch.outcome.Ok? || NotAllowed(s.pc.obj.spec, s.entity))
      case Create | Grow | Alter | Upsert =>
        ch.Call? && Writing(s.pc) && (!ch.outcome.Ok? || !ReplyTo(c, s.pc, s.entity).Accepted?)
      case _ => false
  }

  /** `now` records a failure of a reconcile that had read `r`: the object is degraded and not ready, at its
      generation; whatever else the status said still stands. */
  ghost predicate Recorded(now: Object, r: Object, behindGate: bool) {
    var cs := now.status.conditions;
    && FindStatusCondition(cs, Degraded) == Some(Condition(Degraded, true, r.generation))
    && FindStatusCondition(cs, Ready) == Some(Condition(Ready, false, r.generation))
    && FindStatusCondition(cs, Progressing) ==
         (if behindGate then Some(Condition(Progressing, true, r.generation))
          else FindStatusCondition(r.status.conditions, Progressing))
    && now.generation == r.generation && now.spec == r.spec && !now.deleting
    && now.status.observedGeneration == r.status.observedGeneration && now.status.detail == r.status.detail
  }

  /** The worker is about to write a status that records a failure. */
  ghost predicate ToRecord(s: Sys, r: Object, behindGate: bool) {
    && s.pc.At? && s.pc.stage.Commit? && s.pc.obj.resourceVersion == r.resourceVersion && !r.deleting
    && Recorded(s.pc.obj, r, behindGate)
  }

  lemma FailRecords(o: Object, r: Object, behindGate: bool)
    requires o.generation == r.generation && o.spec == r.spec && !o.deleting
    requires o.status.observedGeneration == r.status.observedGeneration && o.status.detail == r.status.detail
    requires FindStatusCondition(o.status.conditions, Progressing) ==
      (if behindGate then Some(Condition(Progressing, true, r.generation))
       else FindStatusCondition(r.status.conditions, Progressing))
    ensures Recorded(Fail(o), r, behindGate)
  {
    var cs, d := o.status.conditions, Condition(Degraded, true, o.generation);
    forall t ensures FindStatusCondition(Fail(o).status.conditions, t) ==
      if t == Ready then Some(Condition(Ready, false, o.generation)) else if t == Degraded then Some(d)
      else FindStatusCondition(cs, t)
    {
      FindAfterSet(cs, d, t);
      FindAfterSet(SetStatusCondition(cs, d), Condition(Ready, false, o.generation), t);
    }
  }

  lemma WrongAborts(c: Config, s: Sys, ch: Choice)
    requires GoesWrong(c, s, ch)
    ensures var t := Step(c, s, ch);
      t.history == s.history && t.seen == s.seen && t.pc == At(Commit, Fail(s.pc.obj), "")
  {
  }

  /** Whatever goes wrong, the next thing that the worker does is to record it. */
  lemma WrongIsToRecord(c: Config, s: Sys, ch: Choice)
    requires Kept(s) && GoesWrong(c, s, ch)
    ensures var t, r := Step(c, s, ch), s.history[s.seen].value;
      && t.history == s.history && t.seen == s.seen
      && ToRecord(t, r, !s.pc.stage.GateCluster?)
  {
    WrongAborts(c, s, ch);
    FailRecords(s.pc.obj, s.history[s.seen].value, !s.pc.stage.GateCluster?);
  }

  lemma {:induction false} OthersAct(c: Config, s: Sys, acts: seq<Choice>)
    requires forall i :: 0 <= i < |acts| ==> IsEnv(acts[i])
    ensures var u := Run(c, s, acts); u.pc == s.pc && u.seen == s.seen && s.history <= u.history
  {
    if acts != [] {
      OthersAct(c, s, acts[..|acts| - 1]);
      assert Run(c, s, acts[..|acts| - 1]).history <= Run(c, s, acts).history;
    }
  }

  lemma RecordGoesThrough(c: Config, u: Sys, r: Object, behindGate: bool, out: Outcome)
    requires ToRecord(u, r, behindGate) && !out.Failed?
    requires u.seen == |u.history| - 1 && u.history[u.seen] == Some(r)
    ensures var t := Step(c, u, Call(out));
      && t == u.(history := t.history, pc := Idle)
      && Current(t.history).Some? && Recorded(Current(t.history).value, r, behindGate)
  {
    assert Unchanged(u.history, u.pc.obj);
  }

  /** The law of recorded failures: in every run, after anything that goes wrong, and after anything that
      others do meanwhile, a status write that reaches the API server stores the failure, unless somebody
      has stored another version of the object; then it stores nothing. */
  lemma {:induction false} FailureIsRecorded(c: Config, init: Sys, cs: seq<Choice>, ch: Choice, acts: seq<Choice>,
                                             out: Outcome)
    requires Initial(c, init) && GoesWrong(c, Run(c, init, cs), ch) && !out.Failed?
    requires forall i :: 0 <= i < |acts| ==> IsEnv(acts[i])
    ensures var s := Run(c, init, cs);
      var u := Run(c, init, cs + [ch] + acts);
      var t := Run(c, init, cs + [ch] + acts + [Call(out)]);
      && s.seen < |s.history| && s.history[s.seen].Some?
      && t.pc.Idle? && t.entity == u.entity
      && (if |u.history| == s.seen + 1
          then Current(t.history).Some?
            && Recorded(Current(t.history).value, s.history[s.seen].value, !s.pc.stage.GateCluster?)
          else t.history == u.history)
  {
    var s := Run(c, init, cs);
    var u := Run(c, init, cs + [ch] + acts);
    KeptRun(c, init, cs);
    WrongIsToRecord(c, s, ch);
    RunAppend(c, init, cs, ch);
    RunConcat(c, init, cs + [ch], acts);
    OthersAct(c, Step(c, s, ch), acts);
    RunAppend(c, init, cs + [ch] + acts, Call(out));
    SaneRun(c, init, cs + [ch] + acts);
    RecordedOrConflict(c, u, s.history[s.seen].value, !s.pc.stage.GateCluster?, out);
  }

  lemma RecordedOrConflict(c: Config, u: Sys, r: Object, behindGate: bool, out: Outcome)
    requires Sane(c, u) && ToRecord(u, r, behindGate) && !out.Failed? && u.history[u.seen] == Some(r)
    ensures var t := Step(c, u, Call(out));
      && t.pc.Idle? && t.entity == u.entity
      && (if |u.history| == u.seen + 1
          then Current(t.history).Some? && Recorded(Current(t.history).value, r, behindGate)
          else t.history == u.history)
  {
    if |u.history| == u.seen + 1 {
      RecordGoesThrough(c, u, r, behindGate, out);
    } else {
      assert !Unchanged(u.history, u.pc.obj);
    }
  }

  // ---------------------------------------------------------------- what leaves no trace

  /** A cluster that is not ready ends the reconcile, of a live object or of a dying one, and stores nothing. */
  lemma UnreadyStoresNothing(c: Config, s: Sys, conditions: seq<Condition>)
    requires s.pc.At? && (s.pc.stage.GateCluster? || s.pc.stage.DelCluster?)
    requires forall i :: 0 <= i < |conditions| && conditions[i].ctype == Ready ==> !conditions[i].status
    ensures Step(c, s, ClusterIs(Some(conditions))) == s.(pc := Idle)
  {
    NoReadyEntry(conditions);
  }

  lemma {:induction false} NoReadyEntry(conditions: seq<Condition>)
    requires forall i :: 0 <= i < |conditions| && conditions[i].ctype == Ready ==> !conditions[i].status
    ensures !IsTrue(conditions, Ready)
  {
    if conditions != [] && conditions[0].ctype != Ready {
      NoReadyEntry(conditions[1..]);
    }
  }

  /** And so does a deletion whose cluster cannot be read, or one of whose calls does not succeed. */
  lemma FailedDeletionStoresNothing(c: Config, s: Sys, ch: Choice)
    requires s.pc.At? && match s.pc.stage
      case DelCluster => ch == ClusterIs(None)
      case DelCredentials | DelConnect | DelRemove => ch.Call? && !ch.outcome.Ok?
      case _ => false
    ensures var t := Step(c, s, ch);
      && t.pc.Idle? && t.history == s.history
      && (t.entity == s.entity || (s.pc.stage.DelRemove? && ch == Call(Lost) && t.entity.None?))
  {
  }
}
