/**
 A topic whose update is refused is never reported ready. In particular, without assumed ownership the
 operator can lock itself out: if it creates a topic and the following status write is lost, it finds
 its own topic as a stranger's, and the object is never ready again until its spec is edited or it is
 deleted. This is why convergence needs assumed ownership.
 */
module Ownership {
  import opened Api
  import opened Broker
  import opened Protocol
  import opened Invariant
  import opened StatusDiscipline
  import opened Readiness
  import opened Growth
  import opened FastPath

  /** The topic exists, nothing readable may be applied to it, and no success is about to be stored. */
  ghost predicate LockedOut(c: Config, s: Sys, e: Entity) {
    && Sane(c, s) && HandsOff(s, e)
    && !LiveReady(Current(s.history))
    && (s.pc.At? && s.pc.stage.Commit? ==> !IsTrue(s.pc.obj.status.conditions, Ready))
  }

  lemma LockedOutLook(c: Config, s: Sys, ch: Choice, e: Entity)
    requires LockedOut(c, s, e) && Reading(s.pc)
    ensures var pc := AfterLook(c, s.pc, s.entity, ch);
      pc.At? && pc.stage.Commit? ==> !IsTrue(pc.obj.status.conditions, Ready)
  {
    AbortIsNotReady(s.pc);
    assert s.pc.obj.spec == s.history[s.seen].value.spec;
  }

  lemma LockedOutBroker(c: Config, s: Sys, out: Outcome, e: Entity)
    requires LockedOut(c, s, e) && Writing(s.pc)
    ensures var pc := StepBroker(c, s, out).pc;
      pc.At? && pc.stage.Commit? ==> !IsTrue(pc.obj.status.conditions, Ready)
  {
    AbortIsNotReady(s.pc);
    assert s.pc.stage.Create?;
  }

  lemma LockedOutStep(c: Config, s: Sys, ch: Choice, e: Entity)
    requires LockedOut(c, s, e) && Refusing(ch, e)
    ensures LockedOut(c, Step(c, s, ch), e)
  {
    SaneStep(c, s, ch);
    HandsOffStep(c, s, ch, e);
    if IsEnv(ch) {
      StillNotReadyEnv(c, s, ch);
    } else if ch.Crash? || ch.Read? {
    } else if Reading(s.pc) {
      LockedOutLook(c, s, ch, e);
    } else if ch.Call? && Writing(s.pc) {
      LockedOutBroker(c, s, ch.outcome, e);
    } else if ch.Call? && Storing(s.pc) {
      StillNotReadyApi(c, s, ch.outcome);
    }
  }

  lemma StillNotReadyEnv(c: Config, s: Sys, ch: Choice)
    requires Sane(c, s) && !LiveReady(Current(s.history)) && IsEnv(ch)
    ensures !LiveReady(Current(StepEnv(c, s, ch).history))
  {
    assert Current(s.history) == s.history[|s.history| - 1];
  }

  lemma StillNotReadyApi(c: Config, s: Sys, out: Outcome)
    requires Sane(c, s) && !LiveReady(Current(s.history)) && Storing(s.pc)
    requires s.pc.stage.Commit? ==> !IsTrue(s.pc.obj.status.conditions, Ready)
    ensures !LiveReady(Current(StepApi(s, out).history))
  {
  }

  /** From a lock-out, every run that introduces only refused specs leaves the topic as it is and never
      makes the object ready. */
  lemma {:induction false} RefusedIsNeverReady(c: Config, s: Sys, cs: seq<Choice>, e: Entity)
    requires LockedOut(c, s, e) && OnlyRefused(cs, e)
    ensures var t := Run(c, s, cs);
      LockedOut(c, t, e) && t.entity == Some(e) && !LiveReady(Current(t.history))
  {
    if cs != [] {
      RefusedIsNeverReady(c, s, cs[..|cs| - 1], e);
      LockedOutStep(c, Run(c, s, cs[..|cs| - 1]), cs[|cs| - 1], e);
    }
  }

  /** The worker has found no topic and is about to create one that it may not own later. */
  ghost predicate AboutToCreate(c: Config, s: Sys) {
    && Sane(c, s) && NoDeletion(s)
    && s.pc.At? && s.pc.stage.Create? && s.pc.obj.spec.TopicSpec?
    && s.entity.None? && s.seen == |s.history| - 1
    && !s.pc.obj.spec.assumeOwnership
    && DesiredPartitions(s.pc.obj.spec) >= 1 && DesiredReplication(s.pc.obj.spec) >= 1
  }

  lemma CreateSucceeds(c: Config, s: Sys)
    requires AboutToCreate(c, s)
    ensures var e := Topic(DesiredPartitions(s.pc.obj.spec), DesiredReplication(s.pc.obj.spec), s.pc.obj.spec.config);
      Step(c, s, Call(Ok)) == s.(entity := Some(e), mine := true, pc := Succeed(c, s.pc)) && Matches(s.pc.obj.spec, e)
  {
  }

  lemma StrangersTopic(c: Config, s: Sys, e: Entity)
    requires AboutToCreate(c, s) && e.Topic?
    requires Sane(c, s.(entity := Some(e), mine := true, pc := Idle))
    ensures LockedOut(c, s.(entity := Some(e), mine := true, pc := Idle), e)
  {
    assert s.history[s.seen].value.spec == s.pc.obj.spec && !ReadyNow(s.history[s.seen].value);
  }

  /** How the operator locks itself out: it creates the topic, and the status write fails. */
  lemma LostStatusWrite(c: Config, s: Sys)
    requires AboutToCreate(c, s)
    ensures var t := Run(c, s, [Call(Ok), Call(Failed)]);
      && t.entity.Some? && t.mine && t.pc.Idle?
      && Matches(s.pc.obj.spec, t.entity.value)
      && LockedOut(c, t, t.entity.value)
  {
    RunTwo(c, s, Call(Ok), Call(Failed));
    CreateSucceeds(c, s);
    var e := Topic(DesiredPartitions(s.pc.obj.spec), DesiredReplication(s.pc.obj.spec), s.pc.obj.spec.config);
    var s1 := s.(entity := Some(e), mine := true, pc := Succeed(c, s.pc));
    assert Step(c, s1, Call(Failed)) == s1.(pc := Idle);
    SaneStep(c, s, Call(Ok));
    SaneStep(c, s1, Call(Failed));
    StrangersTopic(c, s, e);
  }

  const READY_CLUSTER := [Condition(Ready, true, 0)]

  /** A new object, and one reconcile up to and with its existence check. */
  function UpToTheCheck(c: Config, spec: Spec): seq<Choice> {
    [EnvCreate(spec, {Finalizer(c)}), Read(1)]
    + ([ClusterIs(Some(READY_CLUSTER)), Call(Ok)] + WHOLE_CHECK)
  }

  lemma FirstRead(c: Config, init: Sys, spec: Spec)
    requires Initial(c, init) && KeyOf(c.namespace, c.name, spec) == c.key
    ensures var o := Object(1, 1, 1, false, {Finalizer(c)}, spec, EMPTY_STATUS);
      Run(c, init, [EnvCreate(spec, {Finalizer(c)}), Read(1)])
      == init.(history := [None, Some(o)], seen := 1, pc := At(GateCluster, o, ""))
  {
    RunTwo(c, init, EnvCreate(spec, {Finalizer(c)}), Read(1));
  }

  lemma ThroughTheCheck(c: Config, s: Sys, o: Object)
    requires s.pc == At(GateCluster, o, "") && o.spec.TopicSpec?
    ensures Run(c, s, [ClusterIs(Some(READY_CLUSTER)), Call(Ok)] + WHOLE_CHECK)
         == s.(pc := AfterExists(c, At(Exists, Progress(o), ""), s.entity))
  {
    ThroughTheGate(c, s, o, READY_CLUSTER);
    ToTheCheck(c, s.(pc := At(Connect, Progress(o), "")));
    RunConcat(c, s, [ClusterIs(Some(READY_CLUSTER)), Call(Ok)], WHOLE_CHECK);
  }

  lemma CreateIsReached(c: Config, init: Sys, spec: Spec)
    requires Initial(c, init) && KeyOf(c.namespace, c.name, spec) == c.key && init.entity.None?
    requires spec.TopicSpec? && !spec.assumeOwnership && DesiredPartitions(spec) >= 1 && DesiredReplication(spec) >= 1
    ensures var s := Run(c, init, UpToTheCheck(c, spec)); AboutToCreate(c, s) && s.pc.obj.spec == spec
  {
    var o := Object(1, 1, 1, false, {Finalizer(c)}, spec, EMPTY_STATUS);
    FirstRead(c, init, spec);
    ThroughTheCheck(c, init.(history := [None, Some(o)], seen := 1, pc := At(GateCluster, o, "")), o);
    RunConcat(c, init, [EnvCreate(spec, {Finalizer(c)}), Read(1)],
              [ClusterIs(Some(READY_CLUSTER)), Call(Ok)] + WHOLE_CHECK);
    SaneRun(c, init, UpToTheCheck(c, spec));
  }

  /** The operator's own calls, and what others may do without editing, deleting or touching the topic. */
  predicate Undirected(ch: Choice) {
    !IsEnv(ch) || ch.EnvFinalizers? || ch.ForeignCreate?
  }

  lemma LockOutFrom(c: Config, s: Sys, more: seq<Choice>)
    requires AboutToCreate(c, s)
    requires forall i :: 0 <= i < |more| ==> Undirected(more[i])
    ensures var t := Run(c, Run(c, s, [Call(Ok), Call(Failed)]), more);
      t.entity.Some? && Matches(s.pc.obj.spec, t.entity.value) && !LiveReady(Current(t.history))
  {
    LostStatusWrite(c, s);
    var t := Run(c, s, [Call(Ok), Call(Failed)]);
    var e := t.entity.value;
    assert forall i :: 0 <= i < |more| ==> Undirected(more[i]) ==> Refusing(more[i], e);
    RefusedIsNeverReady(c, t, more, e);
  }

  /** Assumed ownership is needed, for every spec: without it, one failed call after the object was made
      is enough for it never to be ready again, although the topic is just what the spec asks for. */
  lemma {:induction false} LockOut(c: Config, init: Sys, spec: Spec, more: seq<Choice>)
    requires Initial(c, init) && KeyOf(c.namespace, c.name, spec) == c.key && init.entity.None?
    requires spec.TopicSpec? && !spec.assumeOwnership && DesiredPartitions(spec) >= 1 && DesiredReplication(spec) >= 1
    requires forall i :: 0 <= i < |more| ==> Undirected(more[i])
    ensures var t := Run(c, init, UpToTheCheck(c, spec) + [Call(Ok), Call(Failed)] + more);
      t.entity.Some? && Matches(spec, t.entity.value) && !LiveReady(Current(t.history))
  {
    var start, stop := UpToTheCheck(c, spec), [Call(Ok), Call(Failed)];
    CreateIsReached(c, init, spec);
    LockOutFrom(c, Run(c, init, start), more);
    RunConcat(c, init, start, stop);
    RunConcat(c, init, start + stop, more);
  }
}
