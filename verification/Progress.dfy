/**
 Every reconcile is short: whatever the answers to its calls, it ends after at most ten of them. So the
 rounds that Convergence and Deletion count can always be completed.
 */
module Progress {
  import opened Api
  import opened Broker
  import opened Protocol
  import opened Invariant
  import opened Convergence

  /** An answer to the call that the worker is waiting for. */
  predicate Answers(pc: PC, ch: Choice) {
    pc.At? && match pc.stage
      case DelCluster | GateCluster => ch.ClusterIs?
      case Password => ch.SecretIs?
      case _ => ch.Call?
  }

  /** How many calls the worker may still make. */
  function Rank(pc: PC): (n: nat)
    ensures n <= 9
  {
    match pc
    case Idle => 0
    case At(stage, _, _) =>
      match stage
      case AddFinalizer | DropFinalizer | Commit => 1
      case DelCluster => 5
      case DelCredentials => 4
      case DelConnect => 3
      case DelRemove => 2
      case GateCluster => 9
      case Credentials => 8
      case Password => 7
      case Connect => 6
      case Health => 5
      case Exists => 4
      case Create | Grow | Upsert => 3
      case Alter => 2
  }

  lemma LookDescends(c: Config, pc: PC, e: Option<Entity>, ch: Choice)
    requires Reading(pc) && Answers(pc, ch)
    ensures Rank(AfterLook(c, pc, e, ch)) < Rank(pc)
  {
  }

  /** Any answer, good or bad, brings the reconcile nearer to its end. */
  lemma AnswerDescends(c: Config, s: Sys, ch: Choice)
    requires Sane(c, s) && Answers(s.pc, ch)
    ensures Rank(Step(c, s, ch).pc) < Rank(s.pc)
  {
    if Reading(s.pc) {
      LookDescends(c, s.pc, s.entity, ch);
    } else if Writing(s.pc) {
      WriteDescends(c, s.pc, true);
      WriteDescends(c, s.pc, false);
      assert Step(c, s, ch) == StepBroker(c, s, ch.outcome);
    } else {
      assert s.pc.obj.spec == s.history[s.seen].value.spec;
    }
  }

  lemma WriteDescends(c: Config, pc: PC, ok: bool)
    requires Writing(pc)
    ensures Rank(AfterWrite(c, pc, ok)) < Rank(pc)
  {
  }

  /** A Secret in which the user finds its password. */
  function GoodSecret(s: Spec): map<string, string> {
    if s.UserSpec? && s.secretKey != "" then map[s.secretKey := ""] else map["password" := ""]
  }

  const ALL_GOOD := Some([Condition(Ready, true, 0)])

  /** The good answer to the pending call. */
  function GoodAnswer(s: Sys): (ch: Choice)
    requires s.pc.At?
    ensures Answers(s.pc, ch) && !Disturbs(s, ch)
  {
    match s.pc.stage
    case DelCluster | GateCluster => ClusterIs(ALL_GOOD)
    case Password => SecretIs(Some(GoodSecret(s.pc.obj.spec)))
    case _ => Call(Ok)
  }

  /** From any point of a reconcile there is an undisturbed way to its end. */
  lemma {:induction false} UndisturbedEnd(c: Config, s: Sys) returns (cs: seq<Choice>)
    requires Sane(c, s)
    ensures Run(c, s, cs).pc.Idle? && Disturbances(c, s, cs) == 0 && |cs| <= Rank(s.pc)
    decreases Rank(s.pc)
  {
    cs := [];
    if s.pc.At? {
      var ch := GoodAnswer(s);
      SaneStep(c, s, ch);
      AnswerDescends(c, s, ch);
      var rest := UndisturbedEnd(c, Step(c, s, ch));
      cs := [ch] + rest;
      RunFirst(c, s, ch, rest);
    }
  }

  lemma FirstDisturbance(c: Config, s: Sys, ch: Choice)
    ensures Disturbances(c, s, [ch]) == if Disturbs(s, ch) then 1 else 0
  {
    assert [ch][..0] == [];
  }

  lemma {:induction false} DisturbancesConcat(c: Config, s: Sys, a: seq<Choice>, b: seq<Choice>)
    ensures Disturbances(c, s, a + b) == Disturbances(c, s, a) + Disturbances(c, Run(c, s, a), b)
  {
    if b == [] {
      assert a + b == a;
    } else {
      var front := b[..|b| - 1];
      assert (a + b)[..|a + b| - 1] == a + front;
      DisturbancesConcat(c, s, a, front);
      RunConcat(c, s, a, front);
    }
  }

  lemma RunFirst(c: Config, s: Sys, ch: Choice, rest: seq<Choice>)
    ensures Run(c, s, [ch] + rest) == Run(c, Step(c, s, ch), rest)
    ensures Disturbances(c, s, [ch] + rest)
         == (if Disturbs(s, ch) then 1 else 0) + Disturbances(c, Step(c, s, ch), rest)
  {
    RunAppend(c, s, [], ch);
    assert [] + [ch] == [ch];
    RunConcat(c, s, [ch], rest);
    DisturbancesConcat(c, s, [ch], rest);
    FirstDisturbance(c, s, ch);
  }

  lemma {:induction false} StartedAtOnce(c: Config, s: Sys, ch: Choice, rest: seq<Choice>)
    requires ch.Read? && s.pc.Idle? && s.seen <= ch.version < |s.history|
    ensures Started(c, s, [ch] + rest)
  {
    if rest == [] {
      assert [ch] + rest == [ch] && [ch][..0] == [];
    } else {
      assert ([ch] + rest)[..|rest|] == [ch] + rest[..|rest| - 1];
      StartedAtOnce(c, s, ch, rest[..|rest| - 1]);
    }
  }

  /** From every idle state there is an undisturbed round, of at most ten calls. */
  lemma {:induction false} UndisturbedRoundExists(c: Config, s: Sys) returns (cs: seq<Choice>)
    requires Sane(c, s) && s.pc.Idle?
    ensures Round(c, s, cs) && Disturbances(c, s, cs) == 0 && |cs| <= 10
  {
    var first := Read(|s.history| - 1);
    SaneStep(c, s, first);
    var rest := UndisturbedEnd(c, Step(c, s, first));
    cs := [first] + rest;
    RunFirst(c, s, first, rest);
    StartedAtOnce(c, s, first, rest);
  }
}
