/**
 Status discipline over whole runs: what every persisted status looks like, and how the versions
 of one object are ordered.
 */
module StatusDiscipline {
  import opened Api
  import opened Broker
  import opened Protocol
  import opened Invariant

  /** A status that a reader of the object may rely on. */
  ghost predicate Disciplined(c: Config, o: Object) {
    var cs, observed := o.status.conditions, o.status.observedGeneration;
    var ready, degraded := FindStatusCondition(cs, Ready), FindStatusCondition(cs, Degraded);
    && UniqueTypes(cs)
    && observed <= o.generation
    && (cs != [] ==> ready.Some? && degraded.Some? && ready.value.status == !degraded.value.status)
    && (IsTrue(cs, Ready) ==>
          && ready == Some(Condition(Ready, true, observed))
          && degraded == Some(Condition(Degraded, false, observed))
          && FindStatusCondition(cs, Progressing) == Some(Condition(Progressing, false, observed)))
    && (IsTrue(cs, Ready) && observed == o.generation && !o.spec.AclSpec? ==>
          o.status.detail == DetailOf(c, o.spec))
  }

  lemma FailIsDisciplined(c: Config, o: Object)
    requires UniqueTypes(o.status.conditions) && o.status.observedGeneration <= o.generation
    ensures Disciplined(c, Fail(o)) && !IsTrue(Fail(o).status.conditions, Ready)
  {
    var cs := o.status.conditions;
    var d, r := Condition(Degraded, true, o.generation), Condition(Ready, false, o.generation);
    SetKeepsUnique(cs, d);
    SetKeepsUnique(SetStatusCondition(cs, d), r);
    FindAfterSet(cs, d, Degraded);
    FindAfterSet(SetStatusCondition(cs, d), r, Degraded);
    FindAfterSet(SetStatusCondition(cs, d), r, Ready);
  }

  lemma FailIsNotReady(o: Object)
    ensures !IsTrue(Fail(o).status.conditions, Ready)
  {
    var d := Condition(Degraded, true, o.generation);
    FindAfterSet(SetStatusCondition(o.status.conditions, d), Condition(Ready, false, o.generation), Ready);
  }

  /** A reconcile that gives up records that the object is not ready. */
  lemma AbortIsNotReady(pc: PC)
    requires pc.At? && !Storing(pc)
    ensures Abort(pc).At? ==> Abort(pc).stage.Commit? && !IsTrue(Abort(pc).obj.status.conditions, Ready)
  {
    FailIsNotReady(pc.obj);
  }

  lemma SuccessIsDisciplined(c: Config, o: Object)
    requires UniqueTypes(o.status.conditions)
    ensures Disciplined(c, Success(c, o)) && ReadyNow(Success(c, o))
  {
    var cs := o.status.conditions;
    var d, p := Condition(Degraded, false, o.generation), Condition(Progressing, false, o.generation);
    var r := Condition(Ready, true, o.generation);
    var (x, y) := if o.spec.AclSpec? then (p, d) else (d, p);
    var cs1, cs2 := SetStatusCondition(cs, x), SetStatusCondition(SetStatusCondition(cs, x), y);
    SetKeepsUnique(cs, x);
    SetKeepsUnique(cs1, y);
    SetKeepsUnique(cs2, r);
    forall t ensures FindStatusCondition(SetStatusCondition(cs2, r), t) ==
      if t == r.ctype then Some(r) else if t == y.ctype then Some(y)
      else if t == x.ctype then Some(x) else FindStatusCondition(cs, t)
    {
      FindAfterSet(cs, x, t);
      FindAfterSet(cs1, y, t);
      FindAfterSet(cs2, r, t);
    }
  }

  /** The worker's copy: anything goes until it is about to be written. */
  ghost predicate CopyDisciplined(c: Config, pc: PC) {
    pc.At? ==>
      && UniqueTypes(pc.obj.status.conditions)
      && pc.obj.status.observedGeneration <= pc.obj.generation
      && (pc.stage == Commit ==> Disciplined(c, pc.obj))
  }

  ghost predicate AllDisciplined(c: Config, s: Sys) {
    && (forall i :: 0 <= i < |s.history| && s.history[i].Some? ==> Disciplined(c, s.history[i].value))
    && CopyDisciplined(c, s.pc)
  }

  lemma CopyAfterEnd(c: Config, pc: PC)
    requires pc.At? && !Storing(pc) && CopyDisciplined(c, pc)
    ensures CopyDisciplined(c, Abort(pc)) && CopyDisciplined(c, Succeed(c, pc))
    ensures CopyDisciplined(c, pc.(obj := Progress(pc.obj), stage := Credentials, secret := ""))
  {
    FailIsDisciplined(c, pc.obj);
    SuccessIsDisciplined(c, pc.obj);
    SetKeepsUnique(pc.obj.status.conditions, Condition(Progressing, true, pc.obj.generation));
  }

  lemma DisciplineAfterLook(c: Config, pc: PC, e: Option<Entity>, ch: Choice)
    requires Reading(pc) && CopyDisciplined(c, pc)
    ensures CopyDisciplined(c, AfterLook(c, pc, e, ch))
  {
    CopyAfterEnd(c, pc);
  }

  lemma DisciplineAfterWrite(c: Config, pc: PC, ok: bool)
    requires Writing(pc) && CopyDisciplined(c, pc)
    ensures CopyDisciplined(c, AfterWrite(c, pc, ok))
  {
    CopyAfterEnd(c, pc);
  }

  /** A write of metadata and spec leaves the status; the worker has not touched the spec. */
  lemma DisciplineUpdate(c: Config, s: Sys)
    requires Sane(c, s) && AllDisciplined(c, s) && Storing(s.pc) && !s.pc.stage.Commit?
    ensures var now := Current(UpdateObject(s.history, s.pc.obj)); now.Some? ==> Disciplined(c, now.value)
  {
    if Current(s.history).Some? {
      assert Disciplined(c, Current(s.history).value);
    }
  }

  lemma DisciplineCommit(c: Config, s: Sys)
    requires Sane(c, s) && AllDisciplined(c, s) && Storing(s.pc) && s.pc.stage.Commit?
    ensures var now := Current(UpdateStatus(s.history, s.pc.obj)); now.Some? ==> Disciplined(c, now.value)
  {
    if Current(s.history).Some? {
      assert Disciplined(c, Current(s.history).value);
    }
  }

  lemma DisciplineApi(c: Config, s: Sys, out: Outcome)
    requires Sane(c, s) && AllDisciplined(c, s) && Storing(s.pc)
    ensures AllDisciplined(c, StepApi(s, out))
  {
    var h, h' := s.history, StepApi(s, out).history;
    if s.pc.stage.Commit? {
      DisciplineCommit(c, s);
    } else {
      DisciplineUpdate(c, s);
    }
    assert h' == h || h' == h + [Current(h')];
  }

  lemma DisciplineEnv(c: Config, s: Sys, ch: Choice)
    requires Sane(c, s) && AllDisciplined(c, s) && IsEnv(ch)
    ensures AllDisciplined(c, StepEnv(c, s, ch))
  {
    var h, h' := s.history, StepEnv(c, s, ch).history;
    if h' != h {
      assert h <= h';
      assert Current(h).Some? ==> Disciplined(c, Current(h).value);
    }
  }

  lemma DisciplineBroker(c: Config, s: Sys, out: Outcome)
    requires AllDisciplined(c, s) && Writing(s.pc)
    ensures AllDisciplined(c, StepBroker(c, s, out))
  {
    DisciplineAfterWrite(c, s.pc, Works(c, s.pc, s.entity, out));
  }

  lemma DisciplineStep(c: Config, s: Sys, ch: Choice)
    requires Sane(c, s) && AllDisciplined(c, s)
    ensures AllDisciplined(c, Step(c, s, ch))
  {
    if IsEnv(ch) {
      DisciplineEnv(c, s, ch);
    } else if ch.Crash? || ch.Read? {
    } else if Reading(s.pc) {
      DisciplineAfterLook(c, s.pc, s.entity, ch);
    } else if ch.Call? && Writing(s.pc) {
      DisciplineBroker(c, s, ch.outcome);
    } else if ch.Call? && Storing(s.pc) {
      DisciplineApi(c, s, ch.outcome);
    }
  }

  // ---------------------------------------------------------------- order of the versions

  /** `a` was stored before `b`. */
  ghost predicate Before(a: Object, b: Object) {
    && a.uid <= b.uid
    && (a.uid == b.uid ==>
          && a.generation <= b.generation
          && a.status.observedGeneration <= b.status.observedGeneration
          && (a.generation == b.generation ==> a.spec == b.spec)
          && (a.deleting ==> b.deleting))
  }

  ghost predicate Ordered(h: History) {
    forall i, j :: 0 <= i <= j < |h| && h[i].Some? && h[j].Some? ==> Before(h[i].value, h[j].value)
  }

  /** A version stored on top of the current one, or a new object after an absence. */
  lemma OrderedAppend(c: Config, h: History, o: Option<Object>)
    requires VersionsSane(c, h) && Ordered(h)
    requires o.Some? ==> (if Current(h).Some? then Before(Current(h).value, o.value) else o.value.uid == |h|)
    ensures Ordered(h + [o])
  {
    var h' := h + [o];
    forall i, j | 0 <= i <= j < |h'| && h'[i].Some? && h'[j].Some? ensures Before(h'[i].value, h'[j].value)
    {
      if j == |h| && i < j {
        assert Current(h).Some? ==> Before(h[i].value, h[j - 1].value);
      }
    }
  }

  lemma OrderedEnv(c: Config, s: Sys, ch: Choice)
    requires Sane(c, s) && Ordered(s.history) && IsEnv(ch)
    ensures Ordered(StepEnv(c, s, ch).history)
  {
    var h, h' := s.history, StepEnv(c, s, ch).history;
    if h' != h {
      OrderedAppend(c, h, Current(h'));
      assert h' == h + [Current(h')];
    }
  }

  lemma OrderedApi(c: Config, s: Sys, out: Outcome)
    requires Sane(c, s) && Ordered(s.history) && Storing(s.pc)
    ensures Ordered(StepApi(s, out).history)
  {
    var h, h' := s.history, StepApi(s, out).history;
    if h' != h {
      StoreEffect(c, s, out);
      OrderedAppend(c, h, Current(h'));
    }
  }

  lemma OrderedStep(c: Config, s: Sys, ch: Choice)
    requires Sane(c, s) && Ordered(s.history)
    ensures Ordered(Step(c, s, ch).history)
  {
    if IsEnv(ch) {
      OrderedEnv(c, s, ch);
    } else if ch.Crash? || ch.Read? || Reading(s.pc) {
    } else if ch.Call? && Writing(s.pc) {
    } else if ch.Call? && Storing(s.pc) {
      OrderedApi(c, s, ch.outcome);
    }
  }

  lemma {:induction false} DisciplineRun(c: Config, s: Sys, cs: seq<Choice>)
    requires Initial(c, s)
    ensures var t := Run(c, s, cs); Sane(c, t) && AllDisciplined(c, t) && Ordered(t.history)
  {
    SaneRun(c, s, cs);
    if cs != [] {
      var t := Run(c, s, cs[..|cs| - 1]);
      DisciplineRun(c, s, cs[..|cs| - 1]);
      DisciplineStep(c, t, cs[|cs| - 1]);
      OrderedStep(c, t, cs[|cs| - 1]);
    }
  }

  /** Every version ever stored in any run has a disciplined status, and over the versions of one
      object neither the generation nor the observed generation ever decreases. */
  lemma StatusDisciplineTheorem(c: Config, init: Sys, cs: seq<Choice>, i: nat, j: nat)
    requires Initial(c, init)
    requires var h := Run(c, init, cs).history; i <= j < |h| && h[i].Some? && h[j].Some?
    ensures var h := Run(c, init, cs).history;
      && Disciplined(c, h[i].value)
      && (h[i].value.uid == h[j].value.uid ==>
            && h[i].value.generation <= h[j].value.generation
            && h[i].value.status.observedGeneration <= h[j].value.status.observedGeneration)
  {
    DisciplineRun(c, init, cs);
  }
}
