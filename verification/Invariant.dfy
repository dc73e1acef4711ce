/**
 What holds in every state of every run, whatever the environment does: the stored versions are
 numbered by their index, the worker's copy of the object is the version it last read apart from
 what the code has changed in it since, and its writes go through only when nobody else has written.
 */
module Invariant {
  import opened Api
  import opened Broker
  import opened Protocol

  ghost predicate SameVersion(o: Object, r: Object) {
    && o.resourceVersion == r.resourceVersion && o.uid == r.uid && o.generation == r.generation
    && o.deleting == r.deleting && o.spec == r.spec
  }

  /** The worker's copy in terms of the version `r` it read. */
  ghost predicate CopyOf(c: Config, pc: PC, r: Object)
    requires pc.At?
  {
    && SameVersion(pc.obj, r)
    && r.status.observedGeneration <= pc.obj.status.observedGeneration <= r.generation
    && r.deleting == Deleting(pc.stage)
    && (Finalizer(c) in r.finalizers) == (pc.stage != AddFinalizer)
    && (!r.deleting && pc.stage != AddFinalizer ==> !ReadyNow(r))
    && pc.obj.finalizers == (match pc.stage
                             case AddFinalizer => r.finalizers + {Finalizer(c)}
                             case DropFinalizer => r.finalizers - {Finalizer(c)}
                             case _ => r.finalizers)
    && (match pc.stage
        case Health | Exists | Create | Grow | Alter => r.spec.TopicSpec?
        case Password => r.spec.UserSpec?
        case Upsert => !r.spec.TopicSpec?
        case _ => true)
  }

  ghost predicate VersionsSane(c: Config, h: History) {
    forall i :: 0 <= i < |h| && h[i].Some? ==>
      && h[i].value.resourceVersion == i
      && h[i].value.uid <= i
      && h[i].value.status.observedGeneration <= h[i].value.generation
      && KeyOf(c.namespace, c.name, h[i].value.spec) == c.key
  }

  ghost predicate Sane(c: Config, s: Sys) {
    && Sensible(c.service)
    && s.seen < |s.history|
    && VersionsSane(c, s.history)
    && (s.entity.Some? ==> Fits(s.entity.value, c.key.entry))
    && (s.pc.At? ==> s.history[s.seen].Some? && CopyOf(c, s.pc, s.history[s.seen].value))
  }

  lemma CopyAfterAbort(c: Config, pc: PC, r: Object)
    requires pc.At? && !Storing(pc) && CopyOf(c, pc, r)
    ensures Abort(pc).At? ==> CopyOf(c, Abort(pc), r)
    ensures !Deleting(pc.stage) ==> CopyOf(c, Succeed(c, pc), r)
  {
  }

  lemma CopyAfterGoodCall(c: Config, pc: PC, e: Option<Entity>, r: Object)
    requires Reading(pc) && CopyOf(c, pc, r)
    ensures var next := AfterGoodCall(c, pc, e); next.At? ==> CopyOf(c, next, r)
  {
    CopyAfterAbort(c, pc, r);
  }

  lemma CopyAfterLook(c: Config, pc: PC, e: Option<Entity>, ch: Choice, r: Object)
    requires Reading(pc) && CopyOf(c, pc, r)
    ensures var next := AfterLook(c, pc, e, ch); next.At? ==> CopyOf(c, next, r)
  {
    CopyAfterAbort(c, pc, r);
    if ch.Call? && ch.outcome.Ok? {
      CopyAfterGoodCall(c, pc, e, r);
    }
  }

  lemma CopyAfterWrite(c: Config, pc: PC, ok: bool, r: Object)
    requires Writing(pc) && CopyOf(c, pc, r)
    ensures var next := AfterWrite(c, pc, ok); next.At? ==> CopyOf(c, next, r)
  {
    CopyAfterAbort(c, pc, r);
  }

  lemma AnswerFits(c: Config, pc: PC, e: Option<Entity>)
    requires Sensible(c.service) && Writing(pc)
    requires KeyOf(c.namespace, c.name, pc.obj.spec) == c.key
    requires pc.stage.Upsert? ==> !pc.obj.spec.TopicSpec?
    requires e.Some? ==> Fits(e.value, c.key.entry)
    ensures var reply := ReplyTo(c, pc, e);
      reply.Accepted? && reply.now.Some? ==> Fits(reply.now.value, c.key.entry)
  {
  }

  lemma SaneBroker(c: Config, s: Sys, out: Outcome)
    requires Sane(c, s) && Writing(s.pc)
    ensures Sane(c, StepBroker(c, s, out))
  {
    var t, r := StepBroker(c, s, out), s.history[s.seen].value;
    AnswerFits(c, s.pc, s.entity);
    CopyAfterWrite(c, s.pc, Works(c, s.pc, s.entity, out), r);
    assert t.pc == AfterWrite(c, s.pc, Works(c, s.pc, s.entity, out));
  }

  lemma SaneEnv(c: Config, s: Sys, ch: Choice)
    requires Sane(c, s) && IsEnv(ch)
    ensures Sane(c, StepEnv(c, s, ch))
  {
    var t := StepEnv(c, s, ch);
    assert s.history <= t.history;
  }

  lemma SaneStore(c: Config, h: History, o: Object)
    requires VersionsSane(c, h) && Current(h).Some?
    requires o.uid == Current(h).value.uid && o.spec == Current(h).value.spec
    requires o.status.observedGeneration <= o.generation
    ensures VersionsSane(c, Store(h, o))
  {
  }

  lemma SaneApi(c: Config, s: Sys, out: Outcome)
    requires Sane(c, s) && Storing(s.pc)
    ensures Sane(c, StepApi(s, out))
  {
    var h, o := s.history, s.pc.obj;
    if Unchanged(h, o) {
      var cur := Current(h).value;
      SaneStore(c, h, cur.(status := o.status));
      SaneStore(c, h, cur.(spec := o.spec, finalizers := o.finalizers));
    }
  }

  lemma SaneRead(c: Config, s: Sys, i: nat)
    requires Sane(c, s)
    ensures Sane(c, StepRead(c, s, i))
  {
  }

  lemma SaneStep(c: Config, s: Sys, ch: Choice)
    requires Sane(c, s)
    ensures Sane(c, Step(c, s, ch))
  {
    if IsEnv(ch) {
      SaneEnv(c, s, ch);
    } else if ch.Crash? {
    } else if ch.Read? {
      SaneRead(c, s, ch.version);
    } else if Reading(s.pc) {
      CopyAfterLook(c, s.pc, s.entity, ch, s.history[s.seen].value);
    } else if ch.Call? && Writing(s.pc) {
      SaneBroker(c, s, ch.outcome);
    } else if ch.Call? && Storing(s.pc) {
      SaneApi(c, s, ch.outcome);
    }
  }

  lemma {:induction false} SaneRun(c: Config, s: Sys, cs: seq<Choice>)
    requires Initial(c, s)
    ensures Sane(c, Run(c, s, cs))
  {
    if cs != [] {
      SaneRun(c, s, cs[..|cs| - 1]);
      SaneStep(c, Run(c, s, cs[..|cs| - 1]), cs[|cs| - 1]);
    }
  }

  /** A write of the worker goes through only if it has read the stored version. */
  lemma StoreEffect(c: Config, s: Sys, out: Outcome)
    requires Sane(c, s) && Storing(s.pc)
    ensures var h, h' := s.history, StepApi(s, out).history;
      h' == h ||
      (&& s.seen == |h| - 1 && h' == h + [Current(h')]
       && (Current(h').Some? ==>
             && Current(h').value.deleting == s.pc.obj.deleting
             && Current(h').value.finalizers == s.pc.obj.finalizers
             && Current(h').value.spec == s.pc.obj.spec)
       && (Current(h').None? ==> s.pc.obj.deleting))
  {
  }

  /** `b` differs from `a` in what the operator may write: its own finalizer, or the status. */
  ghost predicate Owned(own: string, a: Object, b: Object, status: bool) {
    && b.uid == a.uid && b.spec == a.spec && b.generation == a.generation && b.deleting == a.deleting
    && (forall f :: f != own ==> (f in b.finalizers <==> f in a.finalizers))
    && (if status then b.finalizers == a.finalizers
        else b.status == a.status && (own in b.finalizers <==> !a.deleting))
  }

  /** A write of the operator, on top of these versions. */
  ghost predicate Modest(own: string, h: History, h': History, status: bool) {
    h' == h ||
      (&& Current(h).Some?
       && (Current(h').Some? ==> Owned(own, Current(h).value, Current(h').value, status))
       && (Current(h').None? ==> Current(h).value.deleting))
  }

  lemma WritesLittleHere(c: Config, s: Sys, out: Outcome)
    requires Sane(c, s) && Storing(s.pc)
    ensures Modest(Finalizer(c), s.history, StepApi(s, out).history, s.pc.stage.Commit?)
  {
    StoreEffect(c, s, out);
  }

  /** In every run, a write of the worker changes the status and nothing else, or else nothing but its own
      finalizer: it is put on a live object and taken off a dying one. The spec, the generation and the
      finalizers of others are left alone. */
  lemma {:induction false} WritesLittle(c: Config, init: Sys, cs: seq<Choice>, out: Outcome)
    requires Initial(c, init) && Storing(Run(c, init, cs).pc)
    ensures var s := Run(c, init, cs);
      Modest(Finalizer(c), s.history, Step(c, s, Call(out)).history, s.pc.stage.Commit?)
  {
    var s := Run(c, init, cs);
    SaneRun(c, init, cs);
    WritesLittleHere(c, s, out);
    assert Step(c, s, Call(out)) == StepApi(s, out);
  }
}
