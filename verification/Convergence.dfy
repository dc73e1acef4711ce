/**
 Convergence with a real measure. A round is a stretch of a run from an idle worker to an idle
 worker that contains at least one reconcile. Rounds in which nothing goes wrong make progress;
 every crash, failed call, stale read, outage, conflict or edit costs at most one round. Where the call
 that raises a partition count adds to it, this is for topics whose count need not be raised; see
 `Inflation` for the others.
 */
module Convergence {
  import opened Api
  import opened Broker
  import opened Protocol
  import opened Invariant
  import opened CleanUp
  import opened Readiness

  /** Something goes wrong, or somebody else acts. */
  predicate Disturbs(s: Sys, ch: Choice) {
    || IsEnv(ch)
    || ch.Crash?
    || (ch.Read? && ch.version != |s.history| - 1)   // stale, or failed
    || (ch.ClusterIs? && !(ch.view.Some? && IsClusterReady(ch.view.value)))
    || (ch.SecretIs? && s.pc.At? && s.pc.obj.spec.UserSpec? && PasswordIn(s.pc.obj.spec, ch.data).None?)
    || (ch.Call? && !ch.outcome.Ok?)
  }

  function Disturbances(c: Config, s: Sys, cs: seq<Choice>): nat {
    if cs == [] then 0
    else
      var front, last := cs[..|cs| - 1], cs[|cs| - 1];
      Disturbances(c, s, front) + if Disturbs(Run(c, s, front), last) then 1 else 0
  }

  /** How many reconciles have begun: each begins by reading the object, whether or not that succeeds. (A
      worker that crashes while it is idle is taken to have died in that read.) */
  function Reconciles(c: Config, s: Sys, cs: seq<Choice>): nat {
    if cs == [] then 0
    else
      var front, last := cs[..|cs| - 1], cs[|cs| - 1];
      Reconciles(c, s, front) + if Begins(Run(c, s, front), last) then 1 else 0
  }

  predicate Begins(s: Sys, ch: Choice) { s.pc.Idle? && (ch.Read? || ch.Crash?) }

  predicate Started(c: Config, s: Sys, cs: seq<Choice>) { Reconciles(c, s, cs) > 0 }

  lemma {:induction false} ReconcilesConcat(c: Config, s: Sys, a: seq<Choice>, b: seq<Choice>)
    ensures Reconciles(c, s, a + b) == Reconciles(c, s, a) + Reconciles(c, Run(c, s, a), b)
  {
    if b == [] {
      assert a + b == a;
    } else {
      var front := b[..|b| - 1];
      assert (a + b)[..|a + b| - 1] == a + front;
      ReconcilesConcat(c, s, a, front);
      RunConcat(c, s, a, front);
    }
  }

  predicate Round(c: Config, s: Sys, cs: seq<Choice>) {
    s.pc.Idle? && Run(c, s, cs).pc.Idle? && Started(c, s, cs)
  }

  lemma ReconcilesAppend(c: Config, s: Sys, cs: seq<Choice>, ch: Choice)
    ensures Reconciles(c, s, cs + [ch]) == Reconciles(c, s, cs) + if Begins(Run(c, s, cs), ch) then 1 else 0
  {
    assert (cs + [ch])[..|cs + [ch]| - 1] == cs;
  }

  /** What has happened since `before` is one reconcile, from beginning to end. */
  ghost predicate OneReconcile(c: Config, init: Sys, before: seq<Choice>, after: seq<Choice>) {
    && before <= after
    && Run(c, init, before).pc.Idle? && Run(c, init, after).pc.Idle?
    && Reconciles(c, init, after) == Reconciles(c, init, before) + 1
  }

  lemma {:induction false} OneReconcileIsARound(c: Config, init: Sys, before: seq<Choice>, after: seq<Choice>)
    requires OneReconcile(c, init, before, after)
    ensures var s, cs := Run(c, init, before), after[|before|..];
      Round(c, s, cs) && Reconciles(c, s, cs) == 1 && Run(c, s, cs) == Run(c, init, after)
  {
    assert after == before + after[|before|..];
    RunConcat(c, init, before, after[|before|..]);
    ReconcilesConcat(c, init, before, after[|before|..]);
  }

  /** The state after some rounds, and how much went wrong in them. */
  function After(c: Config, s: Sys, rounds: seq<seq<Choice>>): Sys {
    if rounds == [] then s
    else Run(c, After(c, s, rounds[..|rounds| - 1]), rounds[|rounds| - 1])
  }

  function Trouble(c: Config, s: Sys, rounds: seq<seq<Choice>>): nat {
    if rounds == [] then 0
    else
      var front := rounds[..|rounds| - 1];
      Trouble(c, s, front) + Disturbances(c, After(c, s, front), rounds[|rounds| - 1])
  }

  // ---------------------------------------------------------------- objects that can be brought about

  /** `b` asks for at least what `a` asks for, in a way the broker can follow. If partitions can only be
      added, it must not ask for more of them. */
  ghost predicate Grows(adds: bool, a: Spec, b: Spec) {
    a.TopicSpec? && b.TopicSpec? ==>
      && b.assumeOwnership
      && DesiredPartitions(a) <= DesiredPartitions(b)
      && (adds ==> DesiredPartitions(a) == DesiredPartitions(b))
      && DesiredReplication(a) == DesiredReplication(b)
  }

  /** The broker's entry can be brought to the spec. */
  ghost predicate Reachable(adds: bool, s: Spec, e: Option<Entity>) {
    s.TopicSpec? ==>
      && s.assumeOwnership && DesiredPartitions(s) >= 1 && DesiredReplication(s) >= 1
      && (e.Some? && e.value.Topic? ==>
            && e.value.replication == DesiredReplication(s)
            && e.value.partitions <= DesiredPartitions(s)
            && (adds ==> e.value.partitions == DesiredPartitions(s)))
  }

  /** A live object whose spec can be brought about; everything still readable asks for no more, but
      still for something the broker can follow. */
  ghost predicate Feasible(c: Config, s: Sys) {
    && Sane(c, s)
    && Current(s.history).Some?
    && Reachable(c.service.adds, Current(s.history).value.spec, s.entity)
    && (c.service.adds && s.pc.At? ==> !s.pc.stage.Grow?)
    && forall i :: s.seen <= i < |s.history| && s.history[i].Some? ==>
         && !s.history[i].value.deleting
         && Grows(c.service.adds, s.history[i].value.spec, Current(s.history).value.spec)
         && (s.history[i].value.spec.TopicSpec? ==> DesiredPartitions(s.history[i].value.spec) >= 1)
  }

  /** An object that has just been created is feasible if its spec is. */
  lemma FreshObjectIsFeasible(c: Config, init: Sys, spec: Spec, finalizers: set<string>)
    requires Initial(c, init) && KeyOf(c.namespace, c.name, spec) == c.key
    requires Reachable(c.service.adds, spec, init.entity)
    ensures Feasible(c, Step(c, init, EnvCreate(spec, finalizers)))
  {
    SaneEnv(c, init, EnvCreate(spec, finalizers));
    assert Run(c, init, []) == init;
    SaneRun(c, init, []);
  }

  /** No deletion, no interference in the broker, and edits only ask for more. */
  ghost predicate Tame(c: Config, s: Sys, ch: Choice) {
    && !ch.EnvDelete? && !ch.ForeignCreate? && !ch.ForeignChange?
    && (ch.EnvEdit? && Current(s.history).Some? ==> Grows(c.service.adds, Current(s.history).value.spec, ch.spec))
  }

  ghost predicate TameRun(c: Config, s: Sys, cs: seq<Choice>) {
    forall i :: 0 <= i < |cs| ==> Tame(c, Run(c, s, cs[..i]), cs[i])
  }

  /** Every element is a round. */
  ghost predicate AllRounds(c: Config, s: Sys, rounds: seq<seq<Choice>>) {
    rounds != [] ==>
      var front := rounds[..|rounds| - 1];
      AllRounds(c, s, front) && Round(c, After(c, s, front), rounds[|rounds| - 1])
  }

  /** No round has deletions or interference. */
  ghost predicate TameThroughout(c: Config, s: Sys, rounds: seq<seq<Choice>>) {
    rounds != [] ==>
      var front := rounds[..|rounds| - 1];
      TameThroughout(c, s, front) && TameRun(c, After(c, s, front), rounds[|rounds| - 1])
  }

  ghost predicate TameRounds(c: Config, s: Sys, rounds: seq<seq<Choice>>) {
    AllRounds(c, s, rounds) && TameThroughout(c, s, rounds)
  }

  /** What the broker accepts keeps the spec within reach. */
  lemma AnswerWithinReach(c: Config, pc: PC, cur: Spec, e: Option<Entity>)
    requires Writing(pc) && !pc.stage.DelRemove? && (pc.stage.Upsert? ==> !pc.obj.spec.TopicSpec?)
    requires Reachable(c.service.adds, cur, e) && Grows(c.service.adds, pc.obj.spec, cur)
    requires pc.obj.spec.TopicSpec? <==> cur.TopicSpec?
    requires pc.obj.spec.TopicSpec? ==> DesiredPartitions(pc.obj.spec) >= 1
    requires pc.stage.Grow? ==> !c.service.adds
    ensures var reply := ReplyTo(c, pc, e); reply.Accepted? ==> Reachable(c.service.adds, cur, reply.now)
  {
  }

  lemma FeasibleBroker(c: Config, s: Sys, out: Outcome)
    requires Feasible(c, s) && Writing(s.pc)
    ensures Feasible(c, StepBroker(c, s, out))
  {
    SaneBroker(c, s, out);
    assert !s.history[s.seen].value.deleting;
    var cur := Current(s.history).value.spec;
    assert KeyOf(c.namespace, c.name, cur).entry == KeyOf(c.namespace, c.name, s.pc.obj.spec).entry;
    AnswerWithinReach(c, s.pc, cur, s.entity);
  }

  lemma FeasibleApi(c: Config, s: Sys, out: Outcome)
    requires Feasible(c, s) && Storing(s.pc)
    ensures Feasible(c, StepApi(s, out))
    ensures Holds(c, Current(s.history)) ==> Holds(c, Current(StepApi(s, out).history))
  {
    SaneApi(c, s, out);
    StoreEffect(c, s, out);
    assert !s.history[s.seen].value.deleting;
  }

  lemma FeasibleEnv(c: Config, s: Sys, ch: Choice)
    requires Feasible(c, s) && IsEnv(ch) && Tame(c, s, ch)
    ensures Feasible(c, StepEnv(c, s, ch))
    ensures Holds(c, Current(s.history)) ==> Holds(c, Current(StepEnv(c, s, ch).history))
  {
    SaneEnv(c, s, ch);
    var h, h' := s.history, StepEnv(c, s, ch).history;
    if h' != h {
      assert h' == h + [Current(h')];
      assert !Current(h).value.deleting;
    }
  }

  /** Steps that leave both the API server and the broker as they are. */
  lemma FeasibleLook(c: Config, s: Sys, ch: Choice)
    requires Feasible(c, s) && !IsEnv(ch) && (ch.Call? ==> Reading(s.pc) || s.pc.Idle?)
    ensures Feasible(c, Step(c, s, ch))
    ensures Step(c, s, ch).history == s.history
  {
    SaneStep(c, s, ch);
  }

  lemma FeasibleStep(c: Config, s: Sys, ch: Choice)
    requires Feasible(c, s) && Tame(c, s, ch)
    ensures Feasible(c, Step(c, s, ch))
    ensures Holds(c, Current(s.history)) ==> Holds(c, Current(Step(c, s, ch).history))
  {
    if IsEnv(ch) {
      FeasibleEnv(c, s, ch);
    } else if ch.Call? && Writing(s.pc) {
      FeasibleBroker(c, s, ch.outcome);
    } else if ch.Call? && Storing(s.pc) {
      FeasibleApi(c, s, ch.outcome);
    } else if !ch.Call? || Reading(s.pc) || s.pc.Idle? {
      FeasibleLook(c, s, ch);
    }
  }

  lemma {:induction false} FeasibleRun(c: Config, s: Sys, cs: seq<Choice>)
    requires Feasible(c, s) && TameRun(c, s, cs)
    ensures Feasible(c, Run(c, s, cs))
    ensures Holds(c, Current(s.history)) ==> Holds(c, Current(Run(c, s, cs).history))
  {
    if cs != [] {
      var front := cs[..|cs| - 1];
      assert forall i :: 0 <= i < |front| ==> front[..i] == cs[..i];
      FeasibleRun(c, s, front);
      FeasibleStep(c, Run(c, s, front), cs[|cs| - 1]);
    }
  }

  // ---------------------------------------------------------------- a round without trouble

  /** A reconcile that has gone well so far; `held` says whether the finalizer was there before. */
  ghost predicate OnTrack(c: Config, s: Sys, held: bool, started: bool) {
    && Feasible(c, s)
    && (held ==> Holds(c, Current(s.history)))
    && (s.pc.Idle? && started ==>
          Holds(c, Current(s.history)) && (held ==> ReadyNow(Current(s.history).value)))
    && (s.pc.At? ==>
          && s.seen == |s.history| - 1
          && (held ==> !s.pc.stage.AddFinalizer?)
          && (s.pc.stage.Create? ==> s.entity.None?)
          && (s.pc.stage.Grow? && s.pc.obj.spec.TopicSpec? ==>
                s.entity.Some? && s.entity.value.Topic?
                && s.entity.value.partitions < DesiredPartitions(s.pc.obj.spec))
          && (s.pc.stage.Alter? ==> s.entity.Some? && s.entity.value.Topic?)
          && (s.pc.stage.Commit? ==> ReadyNow(s.pc.obj)))
  }

  lemma SuccessIsReady(c: Config, o: Object)
    ensures ReadyNow(Success(c, o)) && Success(c, o).spec == o.spec && Success(c, o).generation == o.generation
    ensures !o.spec.AclSpec? ==> Success(c, o).status.detail == DetailOf(c, o.spec)
  {
    var o' := Success(c, o);
    var r := Condition(Ready, true, o.generation);
    var before := if o.spec.AclSpec? then SetCondition(SetCondition(o, Progressing, false), Degraded, false)
                  else SetCondition(SetCondition(o, Degraded, false), Progressing, false);
    FindAfterSet(before.status.conditions, r, Ready);
  }

  lemma OnTrackLook(c: Config, s: Sys, held: bool, started: bool, ch: Choice)
    requires OnTrack(c, s, held, started) && Reading(s.pc) && !Disturbs(s, ch) && !ch.Read?
    ensures OnTrack(c, s.(pc := AfterLook(c, s.pc, s.entity, ch)), held, started)
  {
    CopyAfterLook(c, s.pc, s.entity, ch, s.history[s.seen].value);
    SuccessIsReady(c, s.pc.obj);
    assert !s.history[s.seen].value.deleting;
  }

  /** On track, every request to the broker is one that it accepts. */
  lemma OnTrackIsAccepted(c: Config, s: Sys, held: bool, started: bool)
    requires OnTrack(c, s, held, started) && Writing(s.pc)
    ensures ReplyTo(c, s.pc, s.entity).Accepted?
  {
    assert !s.history[s.seen].value.deleting;
  }

  lemma OnTrackBroker(c: Config, s: Sys, held: bool, started: bool)
    requires OnTrack(c, s, held, started) && Writing(s.pc)
    ensures OnTrack(c, StepBroker(c, s, Ok), held, started)
  {
    FeasibleBroker(c, s, Ok);
    OnTrackIsAccepted(c, s, held, started);
    SuccessIsReady(c, s.pc.obj);
    assert !s.history[s.seen].value.deleting;
    assert StepBroker(c, s, Ok).pc == AfterWrite(c, s.pc, true);
  }

  lemma OnTrackApi(c: Config, s: Sys, held: bool, started: bool)
    requires OnTrack(c, s, held, started) && Storing(s.pc)
    ensures OnTrack(c, StepApi(s, Ok), held, started)
  {
    FeasibleApi(c, s, Ok);
    assert !s.history[s.seen].value.deleting;
  }

  lemma OnTrackStep(c: Config, s: Sys, held: bool, started: bool, ch: Choice)
    requires OnTrack(c, s, held, started) && !Disturbs(s, ch)
    ensures OnTrack(c, Step(c, s, ch), held, started || Begins(s, ch))
  {
    if ch.Read? {
      FeasibleStep(c, s, ch);
    } else if Reading(s.pc) {
      OnTrackLook(c, s, held, started, ch);
    } else if ch.Call? && Writing(s.pc) {
      OnTrackBroker(c, s, held, started);
    } else if ch.Call? && Storing(s.pc) {
      OnTrackApi(c, s, held, started);
    }
  }

  lemma {:induction false} OnTrackRun(c: Config, s: Sys, cs: seq<Choice>)
    requires Feasible(c, s) && s.pc.Idle? && Disturbances(c, s, cs) == 0
    ensures OnTrack(c, Run(c, s, cs), Holds(c, Current(s.history)), Started(c, s, cs))
  {
    if cs != [] {
      var front := cs[..|cs| - 1];
      OnTrackRun(c, s, front);
      OnTrackStep(c, Run(c, s, front), Holds(c, Current(s.history)), Started(c, s, front), cs[|cs| - 1]);
    }
  }

  /** An undisturbed round stores the finalizer, or makes the object ready if it was stored. */
  lemma {:induction false} UndisturbedRound(c: Config, s: Sys, cs: seq<Choice>)
    requires Feasible(c, s) && Round(c, s, cs) && Disturbances(c, s, cs) == 0
    ensures var o := Current(Run(c, s, cs).history);
      && Holds(c, o)
      && (Holds(c, Current(s.history)) ==> ReadyNow(o.value))
  {
    OnTrackRun(c, s, cs);
  }

  // ---------------------------------------------------------------- the count

  ghost predicate ReadyAfter(c: Config, s: Sys, rounds: seq<seq<Choice>>) {
    LiveReady(Current(After(c, s, rounds).history))
  }

  /** Every round was disturbed, except one if the finalizer is stored by now. */
  ghost predicate Slow(c: Config, s: Sys, rounds: seq<seq<Choice>>) {
    |rounds| <= Trouble(c, s, rounds) + if Holds(c, Current(After(c, s, rounds).history)) then 1 else 0
  }

  lemma OneMoreRound(c: Config, s: Sys, front: seq<seq<Choice>>, last: seq<Choice>)
    requires Feasible(c, After(c, s, front)) && Slow(c, s, front)
    requires Round(c, After(c, s, front), last) && TameRun(c, After(c, s, front), last)
    ensures Slow(c, s, front + [last]) || LiveReady(Current(After(c, s, front + [last]).history))
  {
    var rounds, t := front + [last], After(c, s, front);
    assert rounds[..|rounds| - 1] == front;
    FeasibleRun(c, t, last);
    if Disturbances(c, t, last) == 0 {
      UndisturbedRound(c, t, last);
    }
  }

  /** After some of the rounds the object was ready. */
  ghost predicate EverReady(c: Config, s: Sys, rounds: seq<seq<Choice>>) {
    ReadyAfter(c, s, rounds) || (rounds != [] && EverReady(c, s, rounds[..|rounds| - 1]))
  }

  lemma {:induction false} WhenReady(c: Config, s: Sys, rounds: seq<seq<Choice>>) returns (m: nat)
    requires EverReady(c, s, rounds)
    ensures m <= |rounds| && ReadyAfter(c, s, rounds[..m])
  {
    if ReadyAfter(c, s, rounds) {
      m := |rounds|;
      assert rounds[..m] == rounds;
    } else {
      m := WhenReady(c, s, rounds[..|rounds| - 1]);
      assert rounds[..|rounds| - 1][..m] == rounds[..m];
    }
  }

  lemma {:induction false} ReadyOrSlow(c: Config, s: Sys, rounds: seq<seq<Choice>>)
    requires Feasible(c, s) && TameRounds(c, s, rounds)
    ensures Feasible(c, After(c, s, rounds))
    ensures EverReady(c, s, rounds) || Slow(c, s, rounds)
  {
    if rounds != [] {
      var front, last := rounds[..|rounds| - 1], rounds[|rounds| - 1];
      ReadyOrSlow(c, s, front);
      FeasibleRun(c, After(c, s, front), last);
      if !EverReady(c, s, front) {
        OneMoreRound(c, s, front, last);
        assert rounds == front + [last];
      }
    }
  }

  lemma {:induction false} Prefix(c: Config, s: Sys, rounds: seq<seq<Choice>>, n: nat)
    requires n <= |rounds| && TameRounds(c, s, rounds)
    ensures TameRounds(c, s, rounds[..n]) && Trouble(c, s, rounds[..n]) <= Trouble(c, s, rounds)
  {
    if n == |rounds| {
      assert rounds[..n] == rounds;
    } else {
      assert rounds[..|rounds| - 1][..n] == rounds[..n];
      Prefix(c, s, rounds[..|rounds| - 1], n);
    }
  }

  /** Convergence: with at most `k` disturbances, the object is ready at its then current generation
      after at most `k + 2` rounds, for every `k`. */
  lemma {:induction false} ConvergenceTheorem(c: Config, s: Sys, rounds: seq<seq<Choice>>, k: nat) returns (m: nat)
    requires Feasible(c, s) && TameRounds(c, s, rounds)
    requires Trouble(c, s, rounds) <= k && |rounds| >= k + 2
    ensures m <= k + 2 && ReadyAfter(c, s, rounds[..m])
  {
    var first := rounds[..k + 2];
    Prefix(c, s, rounds, k + 2);
    ReadyOrSlow(c, s, first);
    m := WhenReady(c, s, first);
    assert first[..m] == rounds[..m];
  }
}
