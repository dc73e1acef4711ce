/**
 What the operator never does to a topic that exists: it does not shrink it, does not change its
 replication, and leaves it alone entirely when the spec may not be applied to it, either because
 ownership may not be assumed or because the spec asks for less.
 */
module Growth {
  import opened Api
  import opened Broker
  import opened Protocol
  import opened Invariant

  /** The entry `e` has become `now` by growing. */
  ghost predicate Grown(e: Option<Entity>, now: Option<Entity>) {
    e.Some? && e.value.Topic? ==>
      now.Some? && now.value.Topic?
      && e.value.partitions <= now.value.partitions
      && e.value.replication == now.value.replication
  }

  /** Nothing that the worker may still read is being deleted. (What it is doing is then not a
      deletion either, for it does what the version it read asks for.) */
  ghost predicate NoDeletion(s: Sys) {
    forall i :: s.seen <= i < |s.history| && s.history[i].Some? ==> !s.history[i].value.deleting
  }

  lemma NoDeletionEnv(c: Config, s: Sys, ch: Choice)
    requires Sane(c, s) && NoDeletion(s) && IsEnv(ch) && !ch.EnvDelete?
    ensures NoDeletion(StepEnv(c, s, ch))
  {
    assert s.history <= StepEnv(c, s, ch).history && Current(s.history) == s.history[|s.history| - 1];
  }

  lemma NoDeletionApi(c: Config, s: Sys, out: Outcome)
    requires Sane(c, s) && NoDeletion(s) && Storing(s.pc)
    ensures NoDeletion(StepApi(s, out))
  {
    StoreEffect(c, s, out);
  }

  lemma NoDeletionStep(c: Config, s: Sys, ch: Choice)
    requires Sane(c, s) && NoDeletion(s) && !ch.EnvDelete?
    ensures NoDeletion(Step(c, s, ch))
  {
    if IsEnv(ch) {
      NoDeletionEnv(c, s, ch);
    } else if ch.Crash? || ch.Read? || Reading(s.pc) {
    } else if ch.Call? && Storing(s.pc) {
      NoDeletionApi(c, s, ch.outcome);
    }
  }

  lemma GrownStep(c: Config, s: Sys, ch: Choice)
    requires Sane(c, s) && NoDeletion(s) && !ch.ForeignChange?
    requires c.key.entry.TopicEntry?
    ensures Grown(s.entity, Step(c, s, ch).entity)
  {
  }

  ghost predicate NobodyDeletes(cs: seq<Choice>) {
    forall i :: 0 <= i < |cs| ==> !cs[i].EnvDelete? && !cs[i].ForeignChange?
  }

  lemma {:induction false} NoDeletionRun(c: Config, s: Sys, cs: seq<Choice>)
    requires Initial(c, s) && NobodyDeletes(cs)
    ensures Sane(c, Run(c, s, cs)) && NoDeletion(Run(c, s, cs))
  {
    SaneRun(c, s, cs);
    if cs != [] {
      NoDeletionRun(c, s, cs[..|cs| - 1]);
      NoDeletionStep(c, Run(c, s, cs[..|cs| - 1]), cs[|cs| - 1]);
    }
  }

  /** Growth only: between any two moments of a run without deletions, a topic that exists keeps
      existing, never loses a partition, and never changes its replication. */
  lemma {:induction false} GrowthOnly(c: Config, init: Sys, cs: seq<Choice>, m: nat)
    requires Initial(c, init) && NobodyDeletes(cs) && m <= |cs| && c.key.entry.TopicEntry?
    ensures Grown(Run(c, init, cs[..m]).entity, Run(c, init, cs).entity)
  {
    if m == |cs| {
      assert cs[..m] == cs;
    } else {
      var front := cs[..|cs| - 1];
      assert front[..m] == cs[..m];
      GrowthOnly(c, init, front, m);
      NoDeletionRun(c, init, front);
      GrownStep(c, Run(c, init, front), cs[|cs| - 1]);
    }
  }

  // ---------------------------------------------------------------- topics that are left alone

  /** The update of the topic `e` to the spec `s` is refused. */
  ghost predicate Refused(s: Spec, e: Entity) {
    && s.TopicSpec? && e.Topic?
    && (|| !s.assumeOwnership
        || e.replication != DesiredReplication(s)
        || DesiredPartitions(s) < e.partitions)
  }

  /** No deletion, no interference with the entry, and every spec introduced is refused for `e`. */
  ghost predicate Refusing(ch: Choice, e: Entity) {
    && !ch.EnvDelete? && !ch.ForeignChange?
    && (ch.EnvEdit? || ch.EnvCreate? ==> Refused(ch.spec, e))
  }

  ghost predicate OnlyRefused(cs: seq<Choice>, e: Entity) {
    forall i :: 0 <= i < |cs| ==> Refusing(cs[i], e)
  }

  ghost predicate HandsOff(s: Sys, e: Entity) {
    && s.entity == Some(e)
    && NoDeletion(s)
    && (forall i :: s.seen <= i < |s.history| && s.history[i].Some? ==> Refused(s.history[i].value.spec, e))
    && (s.pc.At? ==> !s.pc.stage.Grow? && !s.pc.stage.Alter?)
  }

  lemma HandsOffEnv(c: Config, s: Sys, ch: Choice, e: Entity)
    requires Sane(c, s) && HandsOff(s, e) && Refusing(ch, e) && IsEnv(ch)
    ensures HandsOff(StepEnv(c, s, ch), e)
  {
    var h, h' := s.history, StepEnv(c, s, ch).history;
    assert h <= h' && Current(h) == h[|h| - 1];
  }

  lemma HandsOffLook(c: Config, s: Sys, ch: Choice, e: Entity)
    requires Sane(c, s) && HandsOff(s, e) && Reading(s.pc)
    ensures HandsOff(s.(pc := AfterLook(c, s.pc, s.entity, ch)), e)
  {
    assert s.pc.obj.spec == s.history[s.seen].value.spec;
  }

  lemma HandsOffStep(c: Config, s: Sys, ch: Choice, e: Entity)
    requires Sane(c, s) && HandsOff(s, e) && Refusing(ch, e)
    ensures HandsOff(Step(c, s, ch), e)
  {
    if IsEnv(ch) {
      HandsOffEnv(c, s, ch, e);
    } else if ch.Crash? || ch.Read? {
    } else if Reading(s.pc) {
      HandsOffLook(c, s, ch, e);
    } else if ch.Call? && Storing(s.pc) {
      NoDeletionApi(c, s, ch.outcome);
      StoreEffect(c, s, ch.outcome);
    }
  }

  /** Refused specs leave the topic alone, configuration included: from any moment at which no update
      is under way and every version still readable is refused, through any run that introduces only
      refused specs. The worker may even be about to create the topic that it found missing. */
  lemma {:induction false} RefusedLeavesAlone(c: Config, s: Sys, cs: seq<Choice>, e: Entity)
    requires Sane(c, s) && HandsOff(s, e) && OnlyRefused(cs, e)
    ensures Run(c, s, cs).entity == Some(e)
    ensures Sane(c, Run(c, s, cs)) && HandsOff(Run(c, s, cs), e)
  {
    if cs != [] {
      var front, last := cs[..|cs| - 1], cs[|cs| - 1];
      RefusedLeavesAlone(c, s, front, e);
      SaneStep(c, Run(c, s, front), last);
      HandsOffStep(c, Run(c, s, front), last, e);
    }
  }

  // ---------------------------------------------------------------- ownership not assumed

  ghost predicate NotAssuming(ch: Choice) {
    && !ch.EnvDelete? && !ch.ForeignChange?
    && (ch.EnvEdit? || ch.EnvCreate? ==> ch.spec.TopicSpec? && !ch.spec.assumeOwnership)
  }

  ghost predicate NeverAssumes(cs: seq<Choice>) {
    forall i :: 0 <= i < |cs| ==> NotAssuming(cs[i])
  }

  ghost predicate Unowned(s: Sys) {
    && (forall i :: 0 <= i < |s.history| && s.history[i].Some? ==>
          s.history[i].value.spec.TopicSpec? && !s.history[i].value.spec.assumeOwnership)
    && (s.pc.At? ==> !s.pc.stage.Grow? && !s.pc.stage.Alter?)
  }

  lemma UnownedEnv(c: Config, s: Sys, ch: Choice)
    requires Sane(c, s) && Unowned(s) && NotAssuming(ch) && IsEnv(ch)
    ensures Unowned(StepEnv(c, s, ch))
  {
    assert s.history <= StepEnv(c, s, ch).history && Current(s.history) == s.history[|s.history| - 1];
  }

  lemma UnownedLook(c: Config, s: Sys, ch: Choice)
    requires Sane(c, s) && Unowned(s) && Reading(s.pc)
    ensures Unowned(s.(pc := AfterLook(c, s.pc, s.entity, ch)))
  {
    assert s.pc.obj.spec == s.history[s.seen].value.spec;
  }

  lemma UnownedStep(c: Config, s: Sys, ch: Choice)
    requires Sane(c, s) && Unowned(s) && NotAssuming(ch)
    ensures Unowned(Step(c, s, ch))
  {
    if IsEnv(ch) {
      UnownedEnv(c, s, ch);
    } else if ch.Crash? || ch.Read? {
    } else if Reading(s.pc) {
      UnownedLook(c, s, ch);
    } else if ch.Call? && Storing(s.pc) {
      StoreEffect(c, s, ch.outcome);
    }
  }

  lemma {:induction false} UnownedRun(c: Config, s: Sys, cs: seq<Choice>)
    requires Initial(c, s) && NeverAssumes(cs)
    ensures Sane(c, Run(c, s, cs)) && NoDeletion(Run(c, s, cs)) && Unowned(Run(c, s, cs))
  {
    NoDeletionRun(c, s, cs);
    if cs != [] {
      UnownedRun(c, s, cs[..|cs| - 1]);
      UnownedStep(c, Run(c, s, cs[..|cs| - 1]), cs[|cs| - 1]);
    }
  }

  /** With ownership never assumed, a topic that exists at any moment of a run without deletions is
      the same at every later moment, whoever made it, and even if it appeared between the worker's
      existence check and its create call. */
  lemma {:induction false} ForeignTopicsUntouched(c: Config, init: Sys, cs: seq<Choice>, m: nat)
    requires Initial(c, init) && NeverAssumes(cs) && m <= |cs| && c.key.entry.TopicEntry?
    requires Run(c, init, cs[..m]).entity.Some?
    ensures Run(c, init, cs).entity == Run(c, init, cs[..m]).entity
  {
    var s := Run(c, init, cs[..m]);
    UnownedRun(c, init, cs[..m]);
    assert cs == cs[..m] + cs[m..];
    RunConcat(c, init, cs[..m], cs[m..]);
    RefusedLeavesAlone(c, s, cs[m..], s.entity.value);
  }
}
