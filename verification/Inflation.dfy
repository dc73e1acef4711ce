/**
 What becomes of a topic with fewer partitions than the spec asks for, if the call that raises the count adds
 its argument to it. If the answer arrives, the object is reported ready although the topic has too many
 partitions. If the answer is lost, every later reconcile is refused, and the object is never ready again.
 So what `Readiness` and `Convergence` ask for, that nothing is ever added, cannot be dropped.
 */
module Inflation {
  import opened Api
  import opened Broker
  import opened Protocol
  import opened Invariant
  import opened StatusDiscipline
  import opened Readiness
  import opened Growth
  import opened Convergence
  import opened FastPath
  import opened Ownership

  /** The worker has found a topic that is too small, and is about to raise its partition count. */
  ghost predicate AboutToGrow(c: Config, s: Sys) {
    && Sane(c, s) && NoDeletion(s)
    && s.pc.At? && s.pc.stage.Grow? && s.pc.obj.spec.TopicSpec? && s.seen == |s.history| - 1
    && s.entity.Some? && s.entity.value.Topic?
    && s.entity.value.replication == DesiredReplication(s.pc.obj.spec)
    && s.entity.value.partitions < DesiredPartitions(s.pc.obj.spec)
    && Raised(c.service.adds, s.entity.value.partitions, DesiredPartitions(s.pc.obj.spec)).Some?
  }

  ghost function AfterRaising(c: Config, s: Sys): Entity
    requires AboutToGrow(c, s)
  {
    var e := s.entity.value;
    e.(partitions := Raised(c.service.adds, e.partitions, DesiredPartitions(s.pc.obj.spec)).value)
  }

  // ---------------------------------------------------------------- the answer arrives

  lemma RaiseAnswered(c: Config, s: Sys)
    requires AboutToGrow(c, s)
    ensures Step(c, s, Call(Ok)) == s.(entity := Some(AfterRaising(c, s)), mine := true, pc := AfterGrow(c, s.pc))
  {
  }

  lemma ConfigAnswered(c: Config, s: Sys)
    requires Writing(s.pc) && s.pc.stage.Alter? && s.entity.Some? && s.entity.value.Topic?
    ensures var e := s.entity.value;
      Step(c, s, Call(Ok))
      == s.(entity := Some(e.(config := e.config + s.pc.obj.spec.config)), mine := true, pc := Succeed(c, s.pc))
  {
  }

  /** The status write at the end, after which no more calls are made. */
  lemma SuccessStored(c: Config, s: Sys)
    requires Sane(c, s) && s.pc.At? && s.pc.stage.Commit? && ReadyNow(s.pc.obj) && s.seen == |s.history| - 1
    ensures var t := Step(c, s, Call(Ok));
      && t.entity == s.entity && t.pc.Idle? && Step(c, t, Call(Ok)) == t
      && LiveReady(Current(t.history)) && Current(t.history).value.spec == s.pc.obj.spec
      && Current(t.history).value.status == s.pc.obj.status
  {
    FreshCopy(c, s);
    CommitStores(c, s);
    assert Step(c, s, Call(Ok)) == s.(history := UpdateStatus(s.history, s.pc.obj), pc := Idle);
  }

  /** An undisturbed growth always ends in Ready. What it says is true exactly if the call sets the count. */
  lemma {:induction false} GrowthOutcome(c: Config, s: Sys)
    requires AboutToGrow(c, s)
    ensures var t, spec := Run(c, s, WHOLE_CHECK), s.pc.obj.spec;
      && t.pc.Idle? && LiveReady(Current(t.history)) && Current(t.history).value.spec == spec
      && Current(t.history).value.status.detail == DetailOf(c, spec)
      && t.entity.Some? && t.entity.value.Topic? && t.entity.value.partitions == AfterRaising(c, s).partitions
      && (Matches(spec, t.entity.value) <==> !c.service.adds)
  {
    RunThree(c, s, Call(Ok), Call(Ok), Call(Ok));
    RaiseAnswered(c, s);
    SaneStep(c, s, Call(Ok));
    SuccessIsReady(c, s.pc.obj);
    var s1 := Step(c, s, Call(Ok));
    if s.pc.obj.spec.config == map[] {
      SuccessStored(c, s1);
    } else {
      ConfigAnswered(c, s1);
      SaneStep(c, s1, Call(Ok));
      SuccessStored(c, Step(c, s1, Call(Ok)));
    }
  }

  // ---------------------------------------------------------------- the answer is lost

  /** The raised topic is one that the worker refuses to update. */
  lemma LostGrowth(c: Config, s: Sys)
    requires AboutToGrow(c, s) && c.service.adds
    ensures var t := Step(c, s, Call(Lost)); t.entity == Some(AfterRaising(c, s)) && LockedOut(c, t, AfterRaising(c, s))
  {
    SaneStep(c, s, Call(Lost));
    AbortIsNotReady(s.pc);
    assert Step(c, s, Call(Lost)) == s.(entity := Some(AfterRaising(c, s)), mine := true, pc := Abort(s.pc));
    assert s.history[s.seen].value.spec == s.pc.obj.spec && !ReadyNow(s.history[s.seen].value);
  }

  lemma {:induction false} LostForever(c: Config, s: Sys, more: seq<Choice>)
    requires AboutToGrow(c, s) && c.service.adds && OnlyRefused(more, AfterRaising(c, s))
    ensures var t := Run(c, Step(c, s, Call(Lost)), more);
      t.entity == Some(AfterRaising(c, s)) && !LiveReady(Current(t.history))
  {
    LostGrowth(c, s);
    RefusedIsNeverReady(c, Step(c, s, Call(Lost)), more, AfterRaising(c, s));
  }

  // ---------------------------------------------------------------- from the very beginning

  /** Somebody else has made the topic, too small for the spec. */
  ghost predicate TooSmall(c: Config, init: Sys, spec: Spec) {
    && Initial(c, init) && KeyOf(c.namespace, c.name, spec) == c.key
    && spec.TopicSpec? && spec.assumeOwnership
    && init.entity.Some? && init.entity.value.Topic?
    && init.entity.value.replication == DesiredReplication(spec)
    && init.entity.value.partitions < DesiredPartitions(spec)
    && Raised(c.service.adds, init.entity.value.partitions, DesiredPartitions(spec)).Some?
  }

  lemma GrowthIsReached(c: Config, init: Sys, spec: Spec)
    requires TooSmall(c, init, spec)
    ensures var s := Run(c, init, UpToTheCheck(c, spec));
      AboutToGrow(c, s) && s.pc.obj.spec == spec && s.entity == init.entity
  {
    var o := Object(1, 1, 1, false, {Finalizer(c)}, spec, EMPTY_STATUS);
    FirstRead(c, init, spec);
    ThroughTheCheck(c, init.(history := [None, Some(o)], seen := 1, pc := At(GateCluster, o, "")), o);
    RunConcat(c, init, [EnvCreate(spec, {Finalizer(c)}), Read(1)],
              [ClusterIs(Some(READY_CLUSTER)), Call(Ok)] + WHOLE_CHECK);
    SaneRun(c, init, UpToTheCheck(c, spec));
  }

  /** The first reconcile of such an object reports it as ready. That is true exactly if the call sets the
      count; if it adds, the topic has as many partitions too many as it had before. */
  lemma {:induction false} FirstGrowth(c: Config, init: Sys, spec: Spec)
    requires TooSmall(c, init, spec)
    ensures var t, was := Run(c, init, UpToTheCheck(c, spec) + WHOLE_CHECK), init.entity.value.partitions;
      && LiveReady(Current(t.history)) && Current(t.history).value.status.detail == DetailOf(c, spec)
      && t.entity.Some? && t.entity.value.Topic?
      && (Matches(spec, t.entity.value) <==> !c.service.adds)
      && (c.service.adds ==> t.entity.value.partitions == was + DesiredPartitions(spec))
  {
    GrowthIsReached(c, init, spec);
    RunConcat(c, init, UpToTheCheck(c, spec), WHOLE_CHECK);
    GrowthOutcome(c, Run(c, init, UpToTheCheck(c, spec)));
  }

  ghost function RaisedTopic(c: Config, init: Sys, spec: Spec): Entity
    requires TooSmall(c, init, spec) && c.service.adds
  {
    init.entity.value.(partitions := init.entity.value.partitions + DesiredPartitions(spec))
  }

  lemma LostFromTheStart(c: Config, init: Sys, spec: Spec)
    requires TooSmall(c, init, spec) && c.service.adds
    ensures var s := Run(c, init, UpToTheCheck(c, spec));
      && AboutToGrow(c, s) && AfterRaising(c, s) == RaisedTopic(c, init, spec)
      && Step(c, s, Call(Lost)) == Run(c, init, UpToTheCheck(c, spec) + [Call(Lost)])
  {
    GrowthIsReached(c, init, spec);
    RunAppend(c, init, UpToTheCheck(c, spec), Call(Lost));
  }

  /** If partitions are added and the answer is lost, the object is never ready, through any run that
      introduces only specs which ask for less than is there, or may not be applied to it. */
  lemma {:induction false} GrowthLockOut(c: Config, init: Sys, spec: Spec, more: seq<Choice>)
    requires TooSmall(c, init, spec) && c.service.adds && OnlyRefused(more, RaisedTopic(c, init, spec))
    ensures var t := Run(c, init, UpToTheCheck(c, spec) + [Call(Lost)] + more);
      t.entity == Some(RaisedTopic(c, init, spec)) && !LiveReady(Current(t.history))
  {
    LostFromTheStart(c, init, spec);
    RunConcat(c, init, UpToTheCheck(c, spec) + [Call(Lost)], more);
    LostForever(c, Run(c, init, UpToTheCheck(c, spec)), more);
  }

  /** For instance, from three partitions to six: nine, while the status says six; and never ready if the
      answer is lost. */
  lemma {:induction false} ThreeToSix(c: Config, init: Sys, spec: Spec, more: seq<Choice>)
    requires TooSmall(c, init, spec) && c.service.adds && init.entity.value.partitions == 3 && spec.partitions == 6
    requires forall i :: 0 <= i < |more| ==> Undirected(more[i])
    ensures var t := Run(c, init, UpToTheCheck(c, spec) + WHOLE_CHECK);
      && LiveReady(Current(t.history)) && Current(t.history).value.status.detail.TopicDetail?
      && Current(t.history).value.status.detail.partitions == 6
      && t.entity.Some? && t.entity.value.Topic? && t.entity.value.partitions == 9
    ensures var t := Run(c, init, UpToTheCheck(c, spec) + [Call(Lost)] + more);
      t.entity == Some(init.entity.value.(partitions := 9)) && !LiveReady(Current(t.history))
  {
    FirstGrowth(c, init, spec);
    assert forall i :: 0 <= i < |more| ==> Undirected(more[i]) ==> Refusing(more[i], RaisedTopic(c, init, spec));
    GrowthLockOut(c, init, spec, more);
  }
}
