/**
 Ready soundness: whenever the stored object says that its current generation is ready, the broker
 holds what its spec asks for. Somebody else may create entries at any time; they may not change the
 entry behind the operator's back. The one exception is the partition count of a topic, if the call that
 raises it adds its argument: then the count is exact as long as nothing is ever added, and never too
 small otherwise. `Inflation` has the other half.
 */
module Readiness {
  import opened Api
  import opened Broker
  import opened Protocol
  import opened Invariant
  import opened StatusDiscipline

  ghost predicate Holding(c: Config, o: Object) {
    !o.deleting && Finalizer(c) in o.finalizers
  }

  ghost predicate LiveReady(o: Option<Object>) {
    o.Some? && !o.value.deleting && ReadyNow(o.value)
  }

  /** What the stored object promises, and why the worker cannot break the promise: everything it
      can still read asks for the same. */
  ghost predicate Promise(c: Config, s: Sys, exact: bool) {
    LiveReady(Current(s.history)) ==>
      && s.entity.Some?
      && Meets(Current(s.history).value.spec, s.entity.value, exact)
      && forall i :: s.seen <= i < |s.history| ==>
           s.history[i].Some? && s.history[i].value.spec == Current(s.history).value.spec
           && Holding(c, s.history[i].value)
  }

  /** What the worker has established so far. */
  ghost predicate Established(pc: PC, e: Option<Entity>, exact: bool) {
    pc.At? ==>
      && (pc.stage.Grow? && pc.obj.spec.TopicSpec? ==>
            e.Some? && e.value.Topic? && e.value.replication == DesiredReplication(pc.obj.spec))
      && (pc.stage.Alter? && pc.obj.spec.TopicSpec? ==> e.Some? && SizeMatches(pc.obj.spec, e.value, exact))
      && (pc.stage.Commit? && IsTrue(pc.obj.status.conditions, Ready) ==>
            e.Some? && Meets(pc.obj.spec, e.value, exact))
  }

  ghost predicate Sound(c: Config, s: Sys, exact: bool) {
    Promise(c, s, exact) && Established(s.pc, s.entity, exact)
  }

  /** A partition count is raised by a call that adds to it. */
  predicate Inflates(c: Config, s: Sys, ch: Choice) {
    && c.service.adds
    && Writing(s.pc) && s.pc.stage.Grow? && ch.Call? && !ch.outcome.Failed?
    && ReplyTo(c, s.pc, s.entity).Accepted?
  }

  predicate NeverInflates(c: Config, s: Sys, cs: seq<Choice>) {
    cs == [] ||
      var front := cs[..|cs| - 1];
      NeverInflates(c, s, front) && !Inflates(c, Run(c, s, front), cs[|cs| - 1])
  }

  lemma EstablishedAfterLook(c: Config, pc: PC, e: Option<Entity>, ch: Choice, exact: bool)
    requires Reading(pc) && Established(pc, e, exact)
    requires e.Some? ==> Fits(e.value, c.key.entry)
    ensures Established(AfterLook(c, pc, e, ch), e, exact)
  {
    AbortIsNotReady(pc);
  }

  lemma EstablishedAfterWrite(c: Config, pc: PC, e: Option<Entity>, exact: bool)
    requires Writing(pc) && Established(pc, e, exact) && Sensible(c.service)
    requires pc.stage.Upsert? ==> !pc.obj.spec.TopicSpec?
    requires exact && pc.stage.Grow? ==> !c.service.adds
    requires e.Some? ==> Fits(e.value, c.key.entry)
    ensures var reply := ReplyTo(c, pc, e);
      reply.Accepted? && !pc.stage.DelRemove? ==> Established(AfterWrite(c, pc, true), reply.now, exact)
  {
  }

  /** Once the promise stands, whatever the worker is still doing leaves it standing. */
  lemma PromiseSurvivesWrite(c: Config, s: Sys, out: Outcome, exact: bool)
    requires Sane(c, s) && Promise(c, s, exact) && Writing(s.pc)
    requires exact ==> !Inflates(c, s, Call(out))
    ensures Promise(c, StepBroker(c, s, out), exact)
  {
    if LiveReady(Current(s.history)) {
      assert Holding(c, s.history[s.seen].value);
    }
  }

  lemma EstablishedByBroker(c: Config, s: Sys, out: Outcome, exact: bool)
    requires Writing(s.pc) && Established(s.pc, s.entity, exact) && Sensible(c.service)
    requires s.pc.stage.Upsert? ==> !s.pc.obj.spec.TopicSpec?
    requires s.entity.Some? ==> Fits(s.entity.value, c.key.entry)
    requires exact ==> !Inflates(c, s, Call(out))
    ensures var t := StepBroker(c, s, out); Established(t.pc, t.entity, exact)
  {
    if !Works(c, s.pc, s.entity, out) {
      AbortIsNotReady(s.pc);
    } else if !s.pc.stage.DelRemove? {
      EstablishedAfterWrite(c, s.pc, s.entity, exact);
    }
  }

  lemma SoundBroker(c: Config, s: Sys, out: Outcome, exact: bool)
    requires Sane(c, s) && Sound(c, s, exact) && Writing(s.pc)
    requires exact ==> !Inflates(c, s, Call(out))
    ensures Sound(c, StepBroker(c, s, out), exact)
  {
    PromiseSurvivesWrite(c, s, out, exact);
    EstablishedByBroker(c, s, out, exact);
  }

  lemma SoundApi(c: Config, s: Sys, out: Outcome, exact: bool)
    requires Sane(c, s) && Sound(c, s, exact) && Storing(s.pc)
    ensures Sound(c, StepApi(s, out), exact)
  {
    var h, h' := s.history, StepApi(s, out).history;
    if h' != h {
      StoreEffect(c, s, out);
      assert h' == h + [Current(h')];
    }
  }

  lemma SoundEnv(c: Config, s: Sys, ch: Choice, exact: bool)
    requires Sane(c, s) && Sound(c, s, exact) && IsEnv(ch) && !ch.ForeignChange?
    ensures Sound(c, StepEnv(c, s, ch), exact)
  {
    var h, h' := s.history, StepEnv(c, s, ch).history;
    if h' != h {
      assert h' == h + [Current(h')];
    }
  }

  lemma SoundStep(c: Config, s: Sys, ch: Choice, exact: bool)
    requires Sane(c, s) && Sound(c, s, exact) && !ch.ForeignChange?
    requires exact ==> !Inflates(c, s, ch)
    ensures Sound(c, Step(c, s, ch), exact)
  {
    if IsEnv(ch) {
      SoundEnv(c, s, ch, exact);
    } else if ch.Crash? || ch.Read? {
    } else if Reading(s.pc) {
      EstablishedAfterLook(c, s.pc, s.entity, ch, exact);
    } else if ch.Call? && Writing(s.pc) {
      SoundBroker(c, s, ch.outcome, exact);
    } else if ch.Call? && Storing(s.pc) {
      SoundApi(c, s, ch.outcome, exact);
    }
  }

  ghost predicate NobodyMeddles(cs: seq<Choice>) {
    forall i :: 0 <= i < |cs| ==> !cs[i].ForeignChange?
  }

  lemma {:induction false} SoundRun(c: Config, s: Sys, cs: seq<Choice>, exact: bool)
    requires Initial(c, s) && NobodyMeddles(cs) && (exact ==> NeverInflates(c, s, cs))
    ensures Sane(c, Run(c, s, cs)) && Sound(c, Run(c, s, cs), exact)
  {
    SaneRun(c, s, cs);
    if cs != [] {
      SoundRun(c, s, cs[..|cs| - 1], exact);
      SoundStep(c, Run(c, s, cs[..|cs| - 1]), cs[|cs| - 1], exact);
    }
  }

  /** Ready soundness, for all three kinds and for every spec the types admit: what a ready status says is
      true, except that a topic may have too many partitions if its count was ever raised by adding. */
  lemma ReadySoundness(c: Config, init: Sys, cs: seq<Choice>)
    requires Initial(c, init) && NobodyMeddles(cs)
    ensures var s := Run(c, init, cs);
      LiveReady(Current(s.history)) ==>
        s.entity.Some? && Meets(Current(s.history).value.spec, s.entity.value, NeverInflates(c, init, cs))
  {
    SoundRun(c, init, cs, NeverInflates(c, init, cs));
  }

  lemma MatchingCounts(s: Spec, e: Entity, exact: bool)
    requires s.TopicSpec? && SizeMatches(s, e, exact) && e.replication >= 1
    ensures var asked := if s.partitions == 0 then 1 else s.partitions;
      asked >= 1 ==> e.partitions >= asked && (exact ==> e.partitions == asked)
    ensures e.replication == s.replicationFactor <==> 1 <= s.replicationFactor <= 32767
  {
  }

  /** A ready topic, point by point: its configuration has every value of the spec; its partitions are no
      fewer than the spec asks for, and exactly as many if none were ever added; and the replication that
      the status shows is the broker's exactly when the spec's value is positive and fits sixteen bits. The
      status repeats the spec. */
  lemma ReadyTopicIsExact(c: Config, init: Sys, cs: seq<Choice>)
    requires Initial(c, init) && NobodyMeddles(cs)
    requires var o := Current(Run(c, init, cs).history); LiveReady(o) && o.value.spec.TopicSpec?
    ensures var s := Run(c, init, cs); var o := Current(s.history).value;
      var asked := if o.spec.partitions == 0 then 1 else o.spec.partitions;
      && s.entity.Some? && s.entity.value.Topic?
      && (asked >= 1 ==> s.entity.value.partitions >= asked)
      && (asked >= 1 && NeverInflates(c, init, cs) ==> s.entity.value.partitions == asked)
      && (forall k :: k in o.spec.config ==> k in s.entity.value.config && s.entity.value.config[k] == o.spec.config[k])
      && o.status.detail.TopicDetail?
      && o.status.detail.partitions == o.spec.partitions
      && o.status.detail.replicationFactor == o.spec.replicationFactor
      && (o.status.detail.replicationFactor == s.entity.value.replication <==>
          1 <= o.spec.replicationFactor <= 32767)
  {
    var s, exact := Run(c, init, cs), NeverInflates(c, init, cs);
    SoundRun(c, init, cs, exact);
    DisciplineRun(c, init, cs);
    assert Disciplined(c, Current(s.history).value);
    MatchingCounts(Current(s.history).value.spec, s.entity.value, exact);
  }

  /** The credential of a ready user has the iterations of the spec, or the default. */
  lemma ReadyUserIsExact(c: Config, init: Sys, cs: seq<Choice>)
    requires Initial(c, init) && NobodyMeddles(cs)
    requires var o := Current(Run(c, init, cs).history); LiveReady(o) && o.value.spec.UserSpec?
    ensures var s := Run(c, init, cs); var o := Current(s.history).value;
      && s.entity.Some? && s.entity.value.Credential?
      && s.entity.value.iterations == (if o.spec.iterations == 0 then 4096 else o.spec.iterations)
  {
    SoundRun(c, init, cs, false);
  }

  /** The worker has read the stored version if the optimistic lock lets its write through. */
  lemma FreshCopy(c: Config, s: Sys)
    requires Sane(c, s) && s.pc.At?
    ensures Unchanged(s.history, s.pc.obj) <==> s.seen == |s.history| - 1
    ensures s.seen == |s.history| - 1 ==> CopyOf(c, s.pc, Current(s.history).value)
  {
  }

  /** A status write that goes through makes the stored object what it says. */
  lemma CommitStores(c: Config, s: Sys)
    requires Sane(c, s) && s.pc.At? && s.pc.stage.Commit? && ReadyNow(s.pc.obj) && Unchanged(s.history, s.pc.obj)
    ensures var now := Current(UpdateStatus(s.history, s.pc.obj));
      LiveReady(now) && now.value.spec == s.pc.obj.spec && now.value.status == s.pc.obj.status
  {
    FreshCopy(c, s);
  }

  // ---------------------------------------------------------------- runs in which nothing is added

  /** Every topic spec asks for `p` partitions, and a topic made by somebody else has no fewer. */
  predicate FixedSize(ch: Choice, p: Int32) {
    && !ch.ForeignChange?
    && ((ch.EnvCreate? || ch.EnvEdit?) && ch.spec.TopicSpec? ==> DesiredPartitions(ch.spec) == p)
    && (ch.ForeignCreate? && ch.entity.Topic? ==> ch.entity.partitions >= p)
  }

  ghost predicate BigEnough(s: Sys, p: Int32) {
    && (s.entity.Some? && s.entity.value.Topic? ==> s.entity.value.partitions >= p)
    && (forall i :: 0 <= i < |s.history| && s.history[i].Some? && s.history[i].value.spec.TopicSpec? ==>
          DesiredPartitions(s.history[i].value.spec) == p)
    && (s.pc.At? ==> !s.pc.stage.Grow?)
  }

  lemma BigEnoughLook(c: Config, s: Sys, ch: Choice, p: Int32)
    requires Sane(c, s) && BigEnough(s, p) && Reading(s.pc)
    ensures BigEnough(s.(pc := AfterLook(c, s.pc, s.entity, ch)), p)
  {
    assert s.pc.obj.spec == s.history[s.seen].value.spec;
  }

  lemma BigEnoughBroker(c: Config, s: Sys, out: Outcome, p: Int32)
    requires Sane(c, s) && BigEnough(s, p) && Writing(s.pc)
    ensures BigEnough(StepBroker(c, s, out), p)
  {
    assert s.pc.obj.spec == s.history[s.seen].value.spec;
  }

  lemma BigEnoughApi(c: Config, s: Sys, out: Outcome, p: Int32)
    requires Sane(c, s) && BigEnough(s, p) && Storing(s.pc)
    ensures BigEnough(StepApi(s, out), p)
  {
    StoreEffect(c, s, out);
    assert s.pc.obj.spec == s.history[s.seen].value.spec;
  }

  lemma BigEnoughEnv(c: Config, s: Sys, ch: Choice, p: Int32)
    requires BigEnough(s, p) && FixedSize(ch, p) && IsEnv(ch)
    ensures BigEnough(StepEnv(c, s, ch), p)
  {
    assert s.history <= StepEnv(c, s, ch).history;
  }

  lemma BigEnoughStep(c: Config, s: Sys, ch: Choice, p: Int32)
    requires Sane(c, s) && BigEnough(s, p) && FixedSize(ch, p)
    ensures BigEnough(Step(c, s, ch), p)
  {
    if IsEnv(ch) {
      BigEnoughEnv(c, s, ch, p);
    } else if ch.Crash? || ch.Read? {
    } else if Reading(s.pc) {
      BigEnoughLook(c, s, ch, p);
    } else if ch.Call? && Writing(s.pc) {
      BigEnoughBroker(c, s, ch.outcome, p);
    } else if ch.Call? && Storing(s.pc) {
      BigEnoughApi(c, s, ch.outcome, p);
    }
  }

  /** What a user can do to be safe: ask for the same partition count in every spec, of topics that start out
      with no fewer. Then nothing is ever added. */
  lemma {:induction false} FixedSizeNeverInflates(c: Config, init: Sys, cs: seq<Choice>, p: Int32)
    requires Initial(c, init) && (forall i :: 0 <= i < |cs| ==> FixedSize(cs[i], p))
    requires init.entity.Some? && init.entity.value.Topic? ==> init.entity.value.partitions >= p
    ensures NeverInflates(c, init, cs)
    ensures BigEnough(Run(c, init, cs), p)
  {
    if cs != [] {
      var front := cs[..|cs| - 1];
      FixedSizeNeverInflates(c, init, front, p);
      SaneRun(c, init, front);
      BigEnoughStep(c, Run(c, init, front), cs[|cs| - 1], p);
    }
  }

  // ---------------------------------------------------------------- what a ready status names, and how it lasts

  /** A ready status names the entry that the broker holds: the name in the spec, or the object's own if the
      spec has none; and the mechanism in the spec, or the default. */
  lemma StatusNamesTheEntry(c: Config, init: Sys, cs: seq<Choice>)
    requires Initial(c, init)
    requires LiveReady(Current(Run(c, init, cs).history))
    ensures var o := Current(Run(c, init, cs).history).value;
      && (o.spec.TopicSpec? ==>
            && o.status.detail.TopicDetail?
            && o.status.detail.topicName == (if o.spec.topicName != "" then o.spec.topicName else c.name)
            && c.key.entry == TopicEntry(o.status.detail.topicName))
      && (o.spec.UserSpec? ==>
            && o.status.detail.UserDetail?
            && o.status.detail.username == (if o.spec.username != "" then o.spec.username else c.name)
            && o.status.detail.mechanism == (if o.spec.mechanism != "" then o.spec.mechanism else "SCRAM-SHA-512")
            && c.key.entry == CredentialEntry(o.status.detail.username,
                 if o.status.detail.mechanism == "SCRAM-SHA-256" then ScramSha256 else ScramSha512))
  {
    DisciplineRun(c, init, cs);
    var o := Current(Run(c, init, cs).history).value;
    assert Disciplined(c, o) && KeyOf(c.namespace, c.name, o.spec) == c.key;
  }

  /** Ready is stable: no crash, failure, stale read, outage or conflict takes it back. Only an edit
      of the spec or a deletion does. */
  lemma ReadyIsStable(c: Config, s: Sys, ch: Choice)
    requires Sane(c, s) && Sound(c, s, false) && LiveReady(Current(s.history))
    requires !ch.EnvEdit? && !ch.EnvDelete? && !ch.ForeignChange?
    ensures LiveReady(Current(Step(c, s, ch).history))
  {
  }

  lemma {:induction false} ReadyStaysReady(c: Config, init: Sys, cs: seq<Choice>, more: seq<Choice>)
    requires Initial(c, init) && NobodyMeddles(cs) && NobodyMeddles(more)
    requires LiveReady(Current(Run(c, init, cs).history))
    requires forall i :: 0 <= i < |more| ==> !more[i].EnvEdit? && !more[i].EnvDelete?
    ensures LiveReady(Current(Run(c, init, cs + more).history))
  {
    RunConcat(c, init, cs, more);
    if more != [] {
      var front := more[..|more| - 1];
      ReadyStaysReady(c, init, cs, front);
      RunConcat(c, init, cs, front);
      SoundRun(c, init, cs + front, false);
      ReadyIsStable(c, Run(c, init, cs + front), more[|more| - 1]);
    }
  }

  /** The replication factor in every create request and in every comparison of an update: the spec's
      value modulo 65536, with zero replaced by one. */
  lemma ReplicationSent(s: Spec)
    requires s.TopicSpec?
    ensures if s.replicationFactor % 0x1_0000 == 0 then DesiredReplication(s) == 1
            else (DesiredReplication(s) - s.replicationFactor) % 0x1_0000 == 0
    ensures DesiredReplication(s) == s.replicationFactor
       <==> -0x8000 <= s.replicationFactor < 0x8000 && s.replicationFactor != 0
  {
  }
}
