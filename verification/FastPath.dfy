/**
 The early return of a reconcile is a sound fast path: when the stored object is ready at its current
 generation, the full reconcile that is skipped would have left the same broker entry and the same
 stored status. The exact conditions, which the code does not test, are that the update of the topic
 would not be refused, and that a user's password has not been changed in its Secret.
 */
module FastPath {
  import opened Api
  import opened Broker
  import opened Protocol
  import opened Invariant
  import opened StatusDiscipline
  import opened Readiness
  import opened Convergence
  import opened Growth

  /** The full reconcile of a settled object writes the status that is already stored. */
  lemma SettledStatus(c: Config, o: Object)
    requires Disciplined(c, o) && ReadyNow(o)
    ensures Success(c, Progress(o)).status == o.status
  {
    var cs, g := o.status.conditions, o.generation;
    var d, p, r := Condition(Degraded, false, g), Condition(Progressing, false, g), Condition(Ready, true, g);
    var q := Condition(Progressing, true, g);
    SetTwice(cs, q, p);
    SetSame(cs, p);
    SetSame(cs, d);
    SetSame(cs, r);
    FindAfterSet(cs, q, Degraded);
    SetSame(SetStatusCondition(cs, q), d);
  }

  /** The state in which the early return would be taken, and the same state with the early return
      passed over. */
  ghost predicate Settled(c: Config, s: Sys) {
    && Sane(c, s) && Sound(c, s, false) && AllDisciplined(c, s)
    && s.pc.Idle? && LiveReady(Current(s.history))
  }

  lemma {:induction false} ReadyStatesAreSettled(c: Config, init: Sys, cs: seq<Choice>)
    requires Initial(c, init) && NobodyMeddles(cs)
    requires var s := Run(c, init, cs); s.pc.Idle? && LiveReady(Current(s.history))
    ensures Settled(c, Run(c, init, cs))
  {
    SoundRun(c, init, cs, false);
    DisciplineRun(c, init, cs);
  }

  function FullPass(s: Sys): Sys
    requires Current(s.history).Some?
  {
    s.(seen := |s.history| - 1, pc := At(GateCluster, Current(s.history).value, ""))
  }

  /** The early return itself. */
  lemma SkipIsTaken(c: Config, s: Sys)
    requires Settled(c, s)
    ensures Step(c, s, Read(|s.history| - 1)) == s.(seen := |s.history| - 1)
  {
    assert Holding(c, s.history[|s.history| - 1].value);
  }

  /** The update of the topic would not be refused. */
  ghost predicate Welcome(s: Sys)
    requires Current(s.history).Some?
  {
    Current(s.history).value.spec.TopicSpec? ==>
      s.entity.Some? && s.entity.value.Topic? && !Refused(Current(s.history).value.spec, s.entity.value)
  }

  /** What makes a settled topic welcome, as long as nothing was ever added to it, is its spec alone. */
  lemma {:induction false} WelcomeBySpec(c: Config, init: Sys, cs: seq<Choice>)
    requires Initial(c, init) && NobodyMeddles(cs) && NeverInflates(c, init, cs)
    requires LiveReady(Current(Run(c, init, cs).history))
    ensures var s := Run(c, init, cs);
      var spec := Current(s.history).value.spec;
      Welcome(s) <==>
        (spec.TopicSpec? ==> spec.assumeOwnership && DesiredPartitions(spec) >= 1 && DesiredReplication(spec) >= 1)
  {
    SoundRun(c, init, cs, true);
  }

  /** A choice of a reconcile that goes well, and that reads the password the broker already has. */
  predicate Steady(s: Sys, ch: Choice) {
    && !ch.Read? && !Disturbs(s, ch)
    && (ch.SecretIs? && Current(s.history).Some? && s.entity.Some? && s.entity.value.Credential? ==>
          PasswordIn(Current(s.history).value.spec, ch.data) == Some(s.entity.value.password))
  }

  /** Where the full reconcile stands while it has changed nothing. */
  ghost predicate Unmoved(c: Config, s: Sys, t: Sys) {
    && t.history == s.history && t.entity == s.entity && t.seen == |s.history| - 1
    && (t.pc.At? ==> Current(s.history).Some? && Rerun(c, Current(s.history).value, s.entity, t.pc))
  }

  ghost predicate Rerun(c: Config, o: Object, e: Option<Entity>, pc: PC)
    requires pc.At?
  {
    match pc.stage
    case GateCluster => pc.obj == o
    case Commit => pc.obj == Success(c, Progress(o))
    case Credentials => pc.obj == Progress(o)
    case Password => pc.obj == Progress(o) && o.spec.UserSpec?
    case Connect | Upsert =>
      && pc.obj == Progress(o)
      && (pc.stage.Upsert? ==> !o.spec.TopicSpec?)
      && (o.spec.UserSpec? ==> e.Some? && e.value.Credential? && pc.secret == e.value.password)
    case Health | Exists | Alter => pc.obj == Progress(o) && o.spec.TopicSpec?
    case _ => false
  }

  lemma UnmovedLook(c: Config, s: Sys, t: Sys, ch: Choice)
    requires Settled(c, s) && Steady(s, ch) && Unmoved(c, s, t) && Reading(t.pc)
    requires Welcome(s)
    ensures Unmoved(c, s, t.(pc := AfterLook(c, t.pc, t.entity, ch)))
  {
  }

  /** The configuration, the credential or the rule is set to what it is. */
  lemma NothingNew(spec: Spec, e: Entity, pc: PC)
    requires Writing(pc) && pc.obj.spec == spec && Meets(spec, e, false)
    requires pc.stage.Alter? || (pc.stage.Upsert? && (spec.UserSpec? ==> pc.secret == e.password))
    ensures pc.stage.Alter? ==> e.(config := e.config + spec.config) == e
    ensures pc.stage.Upsert? && !spec.TopicSpec? ==> Desired(spec, pc.secret) == e
  {
    if pc.stage.Alter? {
      assert e.config + spec.config == e.config;
    }
  }

  lemma UnmovedBroker(c: Config, s: Sys, t: Sys)
    requires Settled(c, s) && Unmoved(c, s, t) && Writing(t.pc)
    ensures Unmoved(c, s, StepBroker(c, t, Ok))
  {
    NothingNew(Current(s.history).value.spec, s.entity.value, t.pc);
  }

  lemma UnmovedApi(c: Config, s: Sys, t: Sys)
    requires Settled(c, s) && Unmoved(c, s, t) && Storing(t.pc)
    ensures Unmoved(c, s, StepApi(t, Ok))
  {
    assert Disciplined(c, Current(s.history).value);
    SettledStatus(c, Current(s.history).value);
  }

  lemma UnmovedStep(c: Config, s: Sys, t: Sys, ch: Choice)
    requires Settled(c, s) && Steady(s, ch) && Unmoved(c, s, t)
    requires Welcome(s)
    ensures Unmoved(c, s, Step(c, t, ch))
  {
    if Reading(t.pc) {
      UnmovedLook(c, s, t, ch);
    } else if ch.Call? && Writing(t.pc) {
      UnmovedBroker(c, s, t);
    } else if ch.Call? && Storing(t.pc) {
      UnmovedApi(c, s, t);
    }
  }

  /** The skipped reconcile, however far it is taken, changes neither the broker's entry nor anything
      that is stored; at its end the state is the one the early return leaves. */
  lemma {:induction false} SkipIsSound(c: Config, s: Sys, cs: seq<Choice>)
    requires Settled(c, s) && Welcome(s)
    requires forall i :: 0 <= i < |cs| ==> Steady(s, cs[i])
    ensures var t := Run(c, FullPass(s), cs); var skipped := Step(c, s, Read(|s.history| - 1));
      && Unmoved(c, s, t)
      && t.history == skipped.history && t.entity == skipped.entity && t.seen == skipped.seen
      && (t.pc.Idle? ==> t.pc == skipped.pc)
  {
    SkipIsTaken(c, s);
    if cs != [] {
      SkipIsSound(c, s, cs[..|cs| - 1]);
      UnmovedStep(c, s, Run(c, FullPass(s), cs[..|cs| - 1]), cs[|cs| - 1]);
    }
  }

  // ---------------------------------------------------------------- the conditions are exact

  /** The first three calls of the full reconcile. */
  lemma ThroughTheGate(c: Config, s: Sys, o: Object, conditions: seq<Condition>)
    requires s.pc == At(GateCluster, o, "") && IsClusterReady(conditions)
    ensures Run(c, s, [ClusterIs(Some(conditions)), Call(Ok)])
         == s.(pc := At(if o.spec.UserSpec? then Password else Connect, Progress(o), ""))
  {
    RunTwo(c, s, ClusterIs(Some(conditions)), Call(Ok));
    assert Step(c, s, ClusterIs(Some(conditions))) == s.(pc := At(Credentials, Progress(o), ""));
  }

  lemma GoodCall(c: Config, s: Sys)
    requires s.pc.At? && (s.pc.stage.Connect? || s.pc.stage.Health? || s.pc.stage.Exists?)
    ensures Step(c, s, Call(Ok)) == s.(pc := AfterGoodCall(c, s.pc, s.entity))
  {
  }

  lemma ToTheCheck(c: Config, s: Sys)
    requires s.pc.At? && s.pc.stage.Connect? && s.pc.obj.spec.TopicSpec?
    ensures Run(c, s, [Call(Ok), Call(Ok), Call(Ok)]) == s.(pc := AfterExists(c, s.pc.(stage := Exists), s.entity))
  {
    RunTwo(c, s, Call(Ok), Call(Ok));
    RunAppend(c, s, [Call(Ok), Call(Ok)], Call(Ok));
    assert [Call(Ok), Call(Ok)] + [Call(Ok)] == [Call(Ok), Call(Ok), Call(Ok)];
    GoodCall(c, s);
    GoodCall(c, s.(pc := s.pc.(stage := Health)));
    GoodCall(c, s.(pc := s.pc.(stage := Exists)));
  }

  const WHOLE_CHECK := [Call(Ok), Call(Ok), Call(Ok)]

  /** If the update of the topic would be refused, the full reconcile takes Ready back; the early return keeps
      it. */
  lemma {:induction false} SkipHidesRefusal(c: Config, s: Sys, conditions: seq<Condition>)
    requires Settled(c, s) && IsClusterReady(conditions) && !Welcome(s)
    ensures var t := Run(c, FullPass(s), [ClusterIs(Some(conditions)), Call(Ok)] + WHOLE_CHECK + [Call(Ok)]);
      && t.entity == s.entity && t.pc.Idle?
      && !LiveReady(Current(t.history)) && LiveReady(Current(Step(c, s, Read(|s.history| - 1)).history))
  {
    var o, f := Current(s.history).value, FullPass(s);
    var t2 := f.(pc := At(Connect, Progress(o), ""));
    var gate := [ClusterIs(Some(conditions)), Call(Ok)];
    ThroughTheGate(c, f, o, conditions);
    RunConcat(c, f, gate, WHOLE_CHECK);
    ToTheCheck(c, t2);
    RefusedAtTheCheck(c, s, t2.pc.(stage := Exists));
    RunAppend(c, f, gate + WHOLE_CHECK, Call(Ok));
    RefusalIsStored(c, s, Abort(t2.pc.(stage := Exists)));
    SkipIsTaken(c, s);
  }

  lemma RefusedAtTheCheck(c: Config, s: Sys, pc: PC)
    requires Settled(c, s) && !Welcome(s)
    requires pc == At(Exists, Progress(Current(s.history).value), "")
    ensures AfterExists(c, pc, s.entity) == Abort(pc)
  {
  }

  lemma RefusalIsStored(c: Config, s: Sys, pc: PC)
    requires Current(s.history).Some? && pc == Abort(At(Exists, Progress(Current(s.history).value), ""))
    ensures var t := Step(c, FullPass(s).(pc := pc), Call(Ok));
      t.entity == s.entity && t.pc.Idle? && !LiveReady(Current(t.history))
  {
    AbortIsNotReady(At(Exists, Progress(Current(s.history).value), ""));
    StatusStored(s.history, pc.obj);
    assert Step(c, FullPass(s).(pc := pc), Call(Ok))
        == FullPass(s).(history := UpdateStatus(s.history, pc.obj), pc := Idle);
  }

  lemma PasswordRead(c: Config, s: Sys, data: Option<map<string, string>>, password: string)
    requires s.pc.At? && s.pc.stage.Password? && PasswordIn(s.pc.obj.spec, data) == Some(password)
    ensures Step(c, s, SecretIs(data)) == s.(pc := At(Connect, s.pc.obj, password))
  {
  }

  lemma UpsertAnswered(c: Config, s: Sys)
    requires s.pc.At? && s.pc.stage.Upsert?
    ensures Step(c, s, Call(Ok)).entity == Some(Desired(s.pc.obj.spec, s.pc.secret))
  {
  }

  lemma ToTheUpsert(c: Config, s: Sys, data: Option<map<string, string>>, password: string)
    requires s.pc.At? && s.pc.stage.Password? && PasswordIn(s.pc.obj.spec, data) == Some(password)
    ensures Run(c, s, [SecretIs(data), Call(Ok), Call(Ok)]).entity
         == Some(Credential(password, DesiredIterations(s.pc.obj.spec)))
  {
    RunThree(c, s, SecretIs(data), Call(Ok), Call(Ok));
    PasswordRead(c, s, data, password);
    GoodCall(c, s.(pc := At(Connect, s.pc.obj, password)));
    UpsertAnswered(c, s.(pc := At(Upsert, s.pc.obj, password)));
  }

  /** If the password in the Secret has changed, the full reconcile would store it; the early return
      leaves the old one in the broker. */
  lemma SkipMissesRotation(c: Config, s: Sys, conditions: seq<Condition>, data: Option<map<string, string>>,
                           password: string)
    requires Settled(c, s) && IsClusterReady(conditions)
    requires PasswordIn(Current(s.history).value.spec, data) == Some(password) && s.entity.value.password != password
    ensures var t := Run(c, FullPass(s), [ClusterIs(Some(conditions)), Call(Ok)]
                                         + [SecretIs(data), Call(Ok), Call(Ok)]);
      t.entity == Some(s.entity.value.(password := password)) != s.entity
  {
    var o, f := Current(s.history).value, FullPass(s);
    ThroughTheGate(c, f, o, conditions);
    RunConcat(c, f, [ClusterIs(Some(conditions)), Call(Ok)], [SecretIs(data), Call(Ok), Call(Ok)]);
    ToTheUpsert(c, f.(pc := At(Password, Progress(o), "")), data, password);
  }
}
