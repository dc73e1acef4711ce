/**
 Deletion comes to an end, if it can: once an object that holds the finalizer is being deleted, a round in
 which nothing goes wrong removes the broker's entry and then releases the finalizer, provided that the
 entry is there when the round begins, or that a removal of what is missing counts as success. If neither
 holds, the finalizer is never released. Together with CleanUp this is the whole of what a finalizer is
 for: nothing is released early, and what can be released is released eventually.
 */
module Deletion {
  import opened Api
  import opened Broker
  import opened Protocol
  import opened Invariant
  import opened CleanUp
  import opened Convergence

  ghost predicate Dying(c: Config, s: Sys) {
    Holds(c, Current(s.history)) && Current(s.history).value.deleting
  }

  ghost predicate Released(c: Config, s: Sys) {
    !Holds(c, Current(s.history))
  }

  lemma DyingEnv(c: Config, s: Sys, ch: Choice)
    requires Dying(c, s) && IsEnv(ch)
    ensures Dying(c, StepEnv(c, s, ch))
  {
  }

  /** Whatever happens, a dying object stays dying until its finalizer is released. */
  lemma DyingStep(c: Config, s: Sys, ch: Choice)
    requires Sane(c, s) && Dying(c, s)
    ensures Dying(c, Step(c, s, ch)) || Released(c, Step(c, s, ch))
  {
    if IsEnv(ch) {
      DyingEnv(c, s, ch);
    } else if ch.Crash? || ch.Read? || Reading(s.pc) {
    } else if ch.Call? && Storing(s.pc) {
      StoreEffect(c, s, ch.outcome);
    }
  }

  /** A deletion that has gone well so far. */
  ghost predicate Removing(c: Config, s: Sys, started: bool) {
    && Sane(c, s)
    && (Forgives(c) || s.entity.Some? || (s.pc.At? && s.pc.stage.DropFinalizer?) || (s.pc.Idle? && started))
    && (s.pc.At? ==> started && s.seen == |s.history| - 1)
    && (s.pc.At? || !started ==> Dying(c, s))
    && (s.pc.At? && s.pc.stage.DropFinalizer? ==> s.entity.None?)
    && (s.pc.Idle? && started ==>
          Released(c, s) && s.entity.None?
          && (Current(s.history).None? || Current(s.history).value.deleting))
  }

  lemma RemovingLook(c: Config, s: Sys, started: bool, ch: Choice)
    requires Removing(c, s, started) && Reading(s.pc) && !Disturbs(s, ch) && !ch.Read?
    ensures Removing(c, s.(pc := AfterLook(c, s.pc, s.entity, ch)), started)
  {
    CopyAfterLook(c, s.pc, s.entity, ch, s.history[s.seen].value);
  }

  lemma RemovingBroker(c: Config, s: Sys)
    requires Removing(c, s, true) && Writing(s.pc)
    ensures Removing(c, StepBroker(c, s, Ok), true)
  {
    SaneBroker(c, s, Ok);
    assert s.pc.stage.DelRemove?;
  }

  lemma RemovingApi(c: Config, s: Sys)
    requires Removing(c, s, true) && Storing(s.pc)
    ensures Removing(c, StepApi(s, Ok), true)
  {
    SaneApi(c, s, Ok);
    var cur := Current(s.history).value;
    assert s.pc.stage.DropFinalizer? && s.pc.obj.finalizers == cur.finalizers - {Finalizer(c)} != cur.finalizers;
  }

  lemma RemovingStep(c: Config, s: Sys, started: bool, ch: Choice)
    requires Removing(c, s, started) && !Disturbs(s, ch)
    ensures Removing(c, Step(c, s, ch), started || Begins(s, ch))
  {
    if ch.Read? {
      SaneRead(c, s, ch.version);
    } else if Reading(s.pc) {
      RemovingLook(c, s, started, ch);
    } else if ch.Call? && Writing(s.pc) {
      RemovingBroker(c, s);
    } else if ch.Call? && Storing(s.pc) {
      RemovingApi(c, s);
    }
  }

  lemma {:induction false} RemovingRun(c: Config, s: Sys, cs: seq<Choice>)
    requires Sane(c, s) && Dying(c, s) && s.pc.Idle? && Disturbances(c, s, cs) == 0
    requires Forgives(c) || s.entity.Some?
    ensures Removing(c, Run(c, s, cs), Started(c, s, cs))
  {
    if cs != [] {
      var front := cs[..|cs| - 1];
      RemovingRun(c, s, front);
      RemovingStep(c, Run(c, s, front), Started(c, s, front), cs[|cs| - 1]);
    }
  }

  /** Through a run with trouble, the object is dying at the end unless it was released on the way. */
  lemma {:induction false} DyingRun(c: Config, s: Sys, cs: seq<Choice>)
    requires Sane(c, s) && Dying(c, s)
    ensures Sane(c, Run(c, s, cs))
    ensures Dying(c, Run(c, s, cs)) || exists n :: 0 <= n <= |cs| && Released(c, Run(c, s, cs[..n]))
  {
    if cs != [] {
      var front := cs[..|cs| - 1];
      DyingRun(c, s, front);
      SaneStep(c, Run(c, s, front), cs[|cs| - 1]);
      if n :| 0 <= n <= |front| && Released(c, Run(c, s, front[..n])) {
        assert front[..n] == cs[..n];
      } else {
        DyingStep(c, Run(c, s, front), cs[|cs| - 1]);
        assert cs[..|cs|] == cs;
      }
    }
  }

  /** Every round in which nothing goes wrong finds the entry there, unless that does not matter. */
  ghost predicate Removable(c: Config, s: Sys, rounds: seq<seq<Choice>>) {
    rounds != [] ==>
      var front := rounds[..|rounds| - 1];
      var t := After(c, s, front);
      && Removable(c, s, front)
      && (Disturbances(c, t, rounds[|rounds| - 1]) == 0 ==> Forgives(c) || t.entity.Some?)
  }

  /** The finalizer was released at some moment of these rounds. */
  ghost predicate EverReleased(c: Config, s: Sys, rounds: seq<seq<Choice>>) {
    rounds != [] &&
      var front, last := rounds[..|rounds| - 1], rounds[|rounds| - 1];
      || EverReleased(c, s, front)
      || exists n :: 0 <= n <= |last| && Released(c, Run(c, After(c, s, front), last[..n]))
  }

  lemma {:induction false} ReleasedOrTrouble(c: Config, s: Sys, rounds: seq<seq<Choice>>)
    requires Sane(c, s) && Dying(c, s) && AllRounds(c, s, rounds) && Removable(c, s, rounds)
    ensures EverReleased(c, s, rounds)
         || (Sane(c, After(c, s, rounds)) && Dying(c, After(c, s, rounds)) && |rounds| <= Trouble(c, s, rounds))
  {
    if rounds != [] {
      var front, last := rounds[..|rounds| - 1], rounds[|rounds| - 1];
      ReleasedOrTrouble(c, s, front);
      if !EverReleased(c, s, front) {
        var t := After(c, s, front);
        DyingRun(c, t, last);
        if Disturbances(c, t, last) == 0 {
          RemovingRun(c, t, last);
          assert last[..|last|] == last;
        }
      }
    }
  }

  /** With at most `k` disturbances of any kind, `k + 1` rounds release a dying object's finalizer, for
      every `k`, if the undisturbed ones find the entry or do not need it. */
  lemma {:induction false} DeletionTheorem(c: Config, s: Sys, rounds: seq<seq<Choice>>, k: nat)
    requires Sane(c, s) && Dying(c, s) && AllRounds(c, s, rounds) && Removable(c, s, rounds)
    requires Trouble(c, s, rounds) <= k && |rounds| >= k + 1
    ensures EverReleased(c, s, rounds)
  {
    ReleasedOrTrouble(c, s, rounds);
  }

  lemma {:induction false} AlwaysRemovable(c: Config, s: Sys, rounds: seq<seq<Choice>>)
    requires Forgives(c)
    ensures Removable(c, s, rounds)
  {
    if rounds != [] {
      AlwaysRemovable(c, s, rounds[..|rounds| - 1]);
    }
  }

  /** For access rules the bound holds without a condition, and so it does wherever the error for a
      missing entry is recognised. */
  lemma {:induction false} ForgivingDeletion(c: Config, s: Sys, rounds: seq<seq<Choice>>, k: nat)
    requires c.key.entry.AclEntry? || IsNotFound(c.key.entry, c.service.absentText)
    requires Sane(c, s) && Dying(c, s) && AllRounds(c, s, rounds)
    requires Trouble(c, s, rounds) <= k && |rounds| >= k + 1
    ensures EverReleased(c, s, rounds)
  {
    AlwaysRemovable(c, s, rounds);
    DeletionTheorem(c, s, rounds, k);
  }

  // ---------------------------------------------------------------- objects that are never released

  /** The entry is missing, the operator does not recognise that, and the worker has left behind all
      versions that could make it create the entry again. */
  ghost predicate Stuck(c: Config, s: Sys) {
    && Sane(c, s) && Dying(c, s) && s.entity.None? && !Forgives(c)
    && (forall i :: s.seen <= i < |s.history| ==> s.history[i].Some? && s.history[i].value.deleting)
    && (s.pc.At? ==> !s.pc.stage.DropFinalizer?)
  }

  lemma StuckEnv(c: Config, s: Sys, ch: Choice)
    requires Stuck(c, s) && IsEnv(ch) && !ch.ForeignCreate?
    ensures Stuck(c, StepEnv(c, s, ch))
  {
    SaneEnv(c, s, ch);
    DyingEnv(c, s, ch);
    assert s.history <= StepEnv(c, s, ch).history;
  }

  lemma StuckLook(c: Config, s: Sys, ch: Choice)
    requires Stuck(c, s) && Reading(s.pc)
    ensures Stuck(c, s.(pc := AfterLook(c, s.pc, s.entity, ch)))
  {
    CopyAfterLook(c, s.pc, s.entity, ch, s.history[s.seen].value);
  }

  /** The removal fails, because there is nothing to remove. */
  lemma NothingToRemove(c: Config, s: Sys, out: Outcome)
    requires Sane(c, s) && Writing(s.pc) && s.history[s.seen].value.deleting
    requires s.entity.None? && !Forgives(c)
    ensures StepBroker(c, s, out) == s.(pc := Idle)
  {
    assert s.pc.stage.DelRemove?;
  }

  lemma StuckWorker(c: Config, s: Sys, ch: Choice)
    requires Stuck(c, s) && !IsEnv(ch)
    ensures Stuck(c, Step(c, s, ch))
  {
    if ch.Read? {
      SaneRead(c, s, ch.version);
    } else if !ch.Crash? && Reading(s.pc) {
      StuckLook(c, s, ch);
    } else if ch.Call? && Writing(s.pc) {
      NothingToRemove(c, s, ch.outcome);
    }
  }

  /** A stuck object stays stuck, through everything except that somebody else makes the entry: the
      finalizer is never released. */
  lemma {:induction false} StuckForever(c: Config, s: Sys, cs: seq<Choice>)
    requires Stuck(c, s) && (forall i :: 0 <= i < |cs| ==> !cs[i].ForeignCreate?)
    ensures Stuck(c, Run(c, s, cs)) && !Released(c, Run(c, s, cs))
  {
    if cs != [] {
      var front, last := cs[..|cs| - 1], cs[|cs| - 1];
      StuckForever(c, s, front);
      if IsEnv(last) {
        StuckEnv(c, Run(c, s, front), last);
      } else {
        StuckWorker(c, Run(c, s, front), last);
      }
    }
  }

  /** A deletion that goes well and yet comes to nothing. */
  ghost predicate Futile(c: Config, s: Sys) {
    && Sane(c, s) && Dying(c, s) && s.entity.None? && !Forgives(c)
    && (s.pc.At? ==> s.seen == |s.history| - 1 && !s.pc.stage.DropFinalizer?)
  }

  lemma FutileLook(c: Config, s: Sys, ch: Choice)
    requires Futile(c, s) && Reading(s.pc)
    ensures Futile(c, s.(pc := AfterLook(c, s.pc, s.entity, ch)))
  {
    CopyAfterLook(c, s.pc, s.entity, ch, s.history[s.seen].value);
  }

  lemma FutileStep(c: Config, s: Sys, ch: Choice)
    requires Futile(c, s) && !Disturbs(s, ch)
    ensures Futile(c, Step(c, s, ch))
  {
    if ch.Read? {
      SaneRead(c, s, ch.version);
    } else if Reading(s.pc) {
      FutileLook(c, s, ch);
    } else if ch.Call? && Writing(s.pc) {
      NothingToRemove(c, s, ch.outcome);
    }
  }

  lemma {:induction false} FutileRun(c: Config, s: Sys, cs: seq<Choice>)
    requires Futile(c, s) && Disturbances(c, s, cs) == 0
    ensures Futile(c, Run(c, s, cs))
  {
    if cs != [] {
      FutileRun(c, s, cs[..|cs| - 1]);
      FutileStep(c, Run(c, s, cs[..|cs| - 1]), cs[|cs| - 1]);
    }
  }

  /** An undisturbed round of a dying object releases the finalizer exactly if the entry is there at its
      start, or it is a rule, or the error that reports its absence has one of the texts that the operator
      compares with. In any case the entry is gone in the end. */
  lemma {:induction false} UndisturbedDeletion(c: Config, s: Sys, cs: seq<Choice>)
    requires Sane(c, s) && Dying(c, s) && Round(c, s, cs) && Disturbances(c, s, cs) == 0
    ensures Released(c, Run(c, s, cs)) <==> s.entity.Some? || match c.key.entry
      case TopicEntry(_) =>
        c.service.absentText == "UNKNOWN_TOPIC_OR_PARTITION" || c.service.absentText == "UNKNOWN_TOPIC"
      case CredentialEntry(_, _) => c.service.absentText == "RESOURCE_NOT_FOUND"
      case AclEntry(_) => true
    ensures Run(c, s, cs).entity.None?
  {
    if Forgives(c) || s.entity.Some? {
      RemovingRun(c, s, cs);
    } else {
      FutileRun(c, s, cs);
    }
  }

  lemma RemovalUnanswered(c: Config, s: Sys)
    requires s.pc.At? && s.pc.stage.DelRemove?
    ensures var t := Step(c, s, Call(Lost)); t == s.(entity := None, mine := t.mine, pc := Idle)
  {
  }

  /** How an object gets stuck while it is deleted: the removal takes effect, and its answer is lost. */
  lemma {:induction false} LostRemoval(c: Config, s: Sys)
    requires Sane(c, s) && Dying(c, s) && !Forgives(c) && s.pc.At? && s.pc.stage.DelRemove?
    requires forall i :: s.seen <= i < |s.history| ==> s.history[i].Some? && s.history[i].value.deleting
    ensures Stuck(c, Step(c, s, Call(Lost)))
  {
    RemovalUnanswered(c, s);
  }

  function DyingObject(c: Config, spec: Spec): Object {
    Object(2, 1, 2, true, {Finalizer(c)}, spec, EMPTY_STATUS)
  }

  /** An object that is created and deleted, and only then seen by the worker. */
  function CreateAndDelete(c: Config, spec: Spec): seq<Choice> {
    [EnvCreate(spec, {Finalizer(c)}), EnvDelete, Read(2)]
  }

  lemma CreatedAndDeleted(c: Config, init: Sys, spec: Spec)
    requires Initial(c, init) && KeyOf(c.namespace, c.name, spec) == c.key
    ensures var t := Run(c, init, CreateAndDelete(c, spec));
      && t.entity == init.entity
      && |t.history| == 3 && t.history[2] == Some(DyingObject(c, spec))
      && t.seen == 2 && t.pc == At(DelCluster, DyingObject(c, spec), "")
  {
    RunThree(c, init, EnvCreate(spec, {Finalizer(c)}), EnvDelete, Read(2));
  }

  lemma StuckAtOnce(c: Config, init: Sys, spec: Spec)
    requires Initial(c, init) && init.entity.None? && !Forgives(c) && KeyOf(c.namespace, c.name, spec) == c.key
    ensures Stuck(c, Run(c, init, CreateAndDelete(c, spec)))
  {
    CreatedAndDeleted(c, init, spec);
    SaneRun(c, init, CreateAndDelete(c, spec));
  }

  /** And how it is stuck from the start: it is deleted before anything was created for it. This happens to
      every topic and every user, whatever its spec. */
  lemma {:induction false} DeletedTooEarly(c: Config, init: Sys, spec: Spec, more: seq<Choice>)
    requires Initial(c, init) && init.entity.None? && !Forgives(c) && KeyOf(c.namespace, c.name, spec) == c.key
    requires forall i :: 0 <= i < |more| ==> !more[i].ForeignCreate?
    ensures var t := Run(c, init, CreateAndDelete(c, spec) + more);
      Dying(c, t) && !Released(c, t) && t.entity.None?
  {
    StuckAtOnce(c, init, spec);
    RunConcat(c, init, CreateAndDelete(c, spec), more);
    StuckForever(c, Run(c, init, CreateAndDelete(c, spec)), more);
  }
}
