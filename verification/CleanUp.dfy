/**
 Crash-safe clean-up: in every run, an entry that the operator wrote is backed by a stored object
 that still holds the operator's finalizer. Hence once the object is gone, so is the entry, under
 any crashes, lost answers, conflicts, stale reads, outages, edits, recreations of the object, and
 even foreign changes of the broker.
 */
module CleanUp {
  import opened Api
  import opened Protocol
  import opened Invariant

  ghost predicate Holds(c: Config, o: Option<Object>) {
    o.Some? && Finalizer(c) in o.value.finalizers
  }

  ghost predicate LiveAndHolding(c: Config, o: Option<Object>) {
    Holds(c, o) && !o.value.deleting
  }

  // ---------------------------------------------------------------- the invariant

  ghost predicate Backed(c: Config, s: Sys) {
    // what the operator wrote is held by a finalizer
    && (s.entity.Some? && s.mine ==> Holds(c, Current(s.history)))
    // every version the worker may still read as live and held is still held
    && (forall i :: s.seen <= i < |s.history| && LiveAndHolding(c, s.history[i]) ==> Holds(c, Current(s.history)))
    // the finalizer is given up only after the entry is gone
    && (s.pc.At? && s.pc.stage == DropFinalizer ==> !(s.entity.Some? && s.mine))
  }

  lemma BackedEnv(c: Config, s: Sys, ch: Choice)
    requires Sane(c, s) && Backed(c, s) && IsEnv(ch)
    ensures Backed(c, StepEnv(c, s, ch))
  {
    var t := StepEnv(c, s, ch);
    var n := |s.history|;
    assert forall i :: 0 <= i < n ==> t.history[i] == s.history[i];
    if |t.history| == n + 1 {
      assert Current(t.history) == t.history[n];
      assert Holds(c, Current(s.history)) ==> Holds(c, t.history[n]);
      assert LiveAndHolding(c, t.history[n]) ==> Holds(c, Current(t.history));
    }
  }

  lemma BackedApi(c: Config, s: Sys, out: Outcome)
    requires Sane(c, s) && Backed(c, s) && Storing(s.pc)
    ensures Backed(c, StepApi(s, out))
  {
    StoreEffect(c, s, out);
    var h, h' := s.history, StepApi(s, out).history;
    assert forall i :: 0 <= i < |h| ==> h'[i] == h[i];
    assert LiveAndHolding(c, h[s.seen]) || s.pc.stage.AddFinalizer? || s.pc.obj.deleting;
  }

  lemma BackedBroker(c: Config, s: Sys, out: Outcome)
    requires Sane(c, s) && Backed(c, s) && Writing(s.pc)
    ensures Backed(c, StepBroker(c, s, out))
  {
    assert s.pc.stage != DelRemove ==> LiveAndHolding(c, s.history[s.seen]);
  }

  lemma BackedLook(c: Config, s: Sys, ch: Choice)
    requires Sane(c, s) && Backed(c, s) && Reading(s.pc)
    ensures Backed(c, s.(pc := AfterLook(c, s.pc, s.entity, ch)))
  {
  }

  lemma BackedStep(c: Config, s: Sys, ch: Choice)
    requires Sane(c, s) && Backed(c, s)
    ensures Backed(c, Step(c, s, ch))
  {
    if IsEnv(ch) {
      BackedEnv(c, s, ch);
    } else if ch.Crash? || ch.Read? {
    } else if Reading(s.pc) {
      BackedLook(c, s, ch);
    } else if ch.Call? && Writing(s.pc) {
      BackedBroker(c, s, ch.outcome);
    } else if ch.Call? && Storing(s.pc) {
      BackedApi(c, s, ch.outcome);
    }
  }

  lemma {:induction false} BackedRun(c: Config, s: Sys, cs: seq<Choice>)
    requires Initial(c, s)
    ensures Sane(c, Run(c, s, cs)) && Backed(c, Run(c, s, cs))
  {
    SaneRun(c, s, cs);
    if cs != [] {
      BackedRun(c, s, cs[..|cs| - 1]);
      BackedStep(c, Run(c, s, cs[..|cs| - 1]), cs[|cs| - 1]);
    }
  }

  /** Clean-up, in every reachable state: what the operator wrote is backed by a held object, so
      after the object is gone nothing of it is left in the broker. */
  lemma {:induction false} CleanUpTheorem(c: Config, init: Sys, cs: seq<Choice>)
    requires Initial(c, init)
    ensures var s := Run(c, init, cs);
      && (s.entity.Some? && s.mine ==> Holds(c, Current(s.history)))
      && (Current(s.history).None? ==> s.entity.None? || !s.mine)
  {
    BackedRun(c, init, cs);
  }

  /** Finalizer before create: a request that writes the entry is only ever pending while the
      stored object holds the finalizer, whatever has happened to the object since it was read. */
  lemma {:induction false} FinalizerFirst(c: Config, init: Sys, cs: seq<Choice>)
    requires Initial(c, init)
    ensures var s := Run(c, init, cs);
      Writing(s.pc) && s.pc.stage != DelRemove ==> Holds(c, Current(s.history))
  {
    BackedRun(c, init, cs);
    var s := Run(c, init, cs);
    assert Writing(s.pc) && s.pc.stage != DelRemove ==> LiveAndHolding(c, s.history[s.seen]);
  }
}
