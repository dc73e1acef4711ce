/**
 The update of an existing topic takes up to two broker calls and may stop after either. Any number
 of interrupted attempts followed by one undisturbed attempt ends where one undisturbed attempt
 would have ended, unless partitions are added to those that are there. The order in which the
 configuration map is walked does not matter either.
 */
module Update {
  import opened Api
  import opened Broker
  import opened Protocol
  import opened Growth

  // ---------------------------------------------------------------- configuration in any order

  datatype AlterConfig = AlterConfig(name: string, value: string)

  /** The broker sets the listed keys one after the other. */
  function SetAll(was: map<string, string>, l: seq<AlterConfig>): map<string, string> {
    if l == [] then was
    else SetAll(was, l[..|l| - 1])[l[|l| - 1].name := l[|l| - 1].value]
  }

  /** `l` lists the map `m`, in whatever order. */
  ghost predicate Lists(l: seq<AlterConfig>, m: map<string, string>) {
    && (forall i :: 0 <= i < |l| ==> l[i].name in m && l[i].value == m[l[i].name])
    && (forall k :: k in m ==> exists i :: 0 <= i < |l| && l[i].name == k)
  }

  lemma {:induction false} SetAllAt(was: map<string, string>, l: seq<AlterConfig>, m: map<string, string>, k: string)
    requires forall i :: 0 <= i < |l| ==> l[i].name in m && l[i].value == m[l[i].name]
    ensures k in SetAll(was, l) <==> k in was || exists i :: 0 <= i < |l| && l[i].name == k
    ensures k in SetAll(was, l) ==>
      SetAll(was, l)[k] == if exists i :: 0 <= i < |l| && l[i].name == k then m[k] else was[k]
  {
    if l != [] {
      var front, last := l[..|l| - 1], l[|l| - 1];
      SetAllAt(was, front, m, k);
      if i :| 0 <= i < |l| && l[i].name == k {
        assert i == |l| - 1 || front[i] == l[i];
      }
      if i :| 0 <= i < |front| && front[i].name == k {
        assert l[i] == front[i];
      }
    }
  }

  /** Every listing of the map gives the same configuration: the old one overlaid with the map. */
  lemma AnyOrder(was: map<string, string>, l: seq<AlterConfig>, m: map<string, string>)
    requires Lists(l, m)
    ensures SetAll(was, l) == was + m
  {
    forall k ensures k in SetAll(was, l) <==> k in was + m
      ensures k in SetAll(was, l) ==> SetAll(was, l)[k] == (was + m)[k]
    {
      SetAllAt(was, l, m, k);
    }
  }

  // ---------------------------------------------------------------- attempts

  /** What one update attempt does to the topic `e`, by the outcomes of its first and second call; `adds`
      says whether the partition call adds its argument. */
  function Attempt(adds: bool, s: Spec, e: Entity, first: Outcome, second: Outcome): Entity
    requires s.TopicSpec? && e.Topic?
  {
    if !s.assumeOwnership || e.replication != DesiredReplication(s) || DesiredPartitions(s) < e.partitions then e
    else if DesiredPartitions(s) == e.partitions then Configured(s, e, first)
    else
      var total := Raised(adds, e.partitions, DesiredPartitions(s));
      if first.Failed? || total.None? then e
      else if first.Lost? then e.(partitions := total.value)
      else Configured(s, e.(partitions := total.value), second)
  }

  function Configured(s: Spec, e: Entity, out: Outcome): Entity
    requires s.TopicSpec? && e.Topic?
  {
    if out.Failed? then e else e.(config := e.config + s.config)
  }

  lemma StatusWriteLeavesEntity(c: Config, s: Sys, out: Outcome)
    requires s.pc.At? && s.pc.stage.Commit?
    ensures Step(c, s, Call(out)).entity == s.entity && Step(c, s, Call(out)).pc.Idle?
  {
  }

  /** The configuration call, or the status write that takes its place. */
  lemma ConfigurationPart(c: Config, s: Sys, pc: PC, e: Entity, out: Outcome)
    requires pc.At? && !Deleting(pc.stage) && pc.obj.spec.TopicSpec? && e.Topic?
    requires s.pc == AfterGrow(c, pc) && s.entity == Some(e)
    ensures Step(c, s, Call(out)).entity == Some(Configured(pc.obj.spec, e, out))
  {
    assert e.config + map[] == e.config;
  }

  lemma GrowPart(c: Config, s: Sys, e: Entity, out: Outcome)
    requires s.pc.At? && s.pc.stage.Grow? && s.pc.obj.spec.TopicSpec?
    requires e.Topic? && s.entity == Some(e)
    ensures var t := Step(c, s, Call(out));
      var total := Raised(c.service.adds, e.partitions, DesiredPartitions(s.pc.obj.spec));
      && t.entity == Some(if out.Failed? || total.None? then e else e.(partitions := total.value))
      && t.pc == (if out.Ok? && total.Some? then AfterGrow(c, s.pc) else Abort(s.pc))
  {
  }

  /** An attempt is what the protocol does from its existence check on, before it writes the status. */
  lemma AttemptIsTheProtocol(c: Config, s: Sys, first: Outcome, second: Outcome)
    requires s.pc.At? && s.pc.stage.Exists? && s.pc.obj.spec.TopicSpec?
    requires s.entity.Some? && s.entity.value.Topic?
    ensures Run(c, s, [Call(Ok), Call(first), Call(second)]).entity
         == Some(Attempt(c.service.adds, s.pc.obj.spec, s.entity.value, first, second))
  {
    var e, spec := s.entity.value, s.pc.obj.spec;
    RunThree(c, s, Call(Ok), Call(first), Call(second));
    var s1 := Step(c, s, Call(Ok));
    assert s1 == s.(pc := AfterExists(c, s.pc, s.entity));
    var s2 := Step(c, s1, Call(first));
    if s1.pc.stage.Grow? {
      GrowPart(c, s1, e, first);
      var total := Raised(c.service.adds, e.partitions, DesiredPartitions(spec));
      if first.Ok? && total.Some? {
        ConfigurationPart(c, s2, s1.pc, e.(partitions := total.value), second);
      } else {
        StatusWriteLeavesEntity(c, s2, second);
      }
    } else {
      AttemptWithoutGrowth(c, s, s1, first, second);
    }
  }

  lemma AttemptWithoutGrowth(c: Config, s: Sys, s1: Sys, first: Outcome, second: Outcome)
    requires s.pc.At? && s.pc.stage.Exists? && s.pc.obj.spec.TopicSpec?
    requires s.entity.Some? && s.entity.value.Topic?
    requires s1 == s.(pc := AfterExists(c, s.pc, s.entity)) && !s1.pc.stage.Grow?
    ensures Step(c, Step(c, s1, Call(first)), Call(second)).entity
         == Some(Attempt(c.service.adds, s.pc.obj.spec, s.entity.value, first, second))
  {
    var e := s.entity.value;
    var s2 := Step(c, s1, Call(first));
    if s1.pc == AfterGrow(c, s.pc) {
      ConfigurationPart(c, s1, s.pc, e, first);
    } else {
      StatusWriteLeavesEntity(c, s1, first);
    }
    AfterConfiguration(c, s1, first, second);
  }

  lemma AfterConfiguration(c: Config, s: Sys, first: Outcome, second: Outcome)
    requires s.pc.At? && (s.pc.stage.Commit? || s.pc.stage.Alter?) && (s.pc.stage.Alter? ==> s.pc.obj.spec.TopicSpec?)
    ensures var t := Step(c, s, Call(first)); Step(c, t, Call(second)).entity == t.entity
  {
    var t := Step(c, s, Call(first));
    assert t.pc.Idle? || t.pc.stage.Commit?;
  }

  /** The topic after a number of attempts, each with its own two outcomes. */
  function Attempts(adds: bool, s: Spec, e: Entity, outs: seq<(Outcome, Outcome)>): (r: Entity)
    requires s.TopicSpec? && e.Topic?
    ensures r.Topic?
  {
    if outs == [] then e
    else
      var last := outs[|outs| - 1];
      Attempt(adds, s, Attempts(adds, s, e, outs[..|outs| - 1]), last.0, last.1)
  }

  /** An update of `e` would add partitions to those that are there. */
  ghost predicate WouldInflate(adds: bool, s: Spec, e: Entity)
    requires s.TopicSpec? && e.Topic?
  {
    && adds && !Refused(s, e) && e.partitions < DesiredPartitions(s)
    && Raised(adds, e.partitions, DesiredPartitions(s)).Some?
  }

  lemma {:induction false} InterruptedAttempts(adds: bool, s: Spec, e: Entity, outs: seq<(Outcome, Outcome)>)
    requires s.TopicSpec? && e.Topic? && e.partitions >= 1
    ensures var r := Attempts(adds, s, e, outs);
      && r.replication == e.replication
      && (Refused(s, e) ==> r == e)
      && (!Refused(s, e) ==> r.config in {e.config, e.config + s.config})
      && (!Refused(s, e) && !WouldInflate(adds, s, e) ==> r == e || r.partitions == DesiredPartitions(s))
      && (WouldInflate(adds, s, e) ==> r == e || r.partitions == e.partitions + DesiredPartitions(s))
  {
    if outs != [] {
      InterruptedAttempts(adds, s, e, outs[..|outs| - 1]);
      assert (e.config + s.config) + s.config == e.config + s.config;
    }
  }

  /** The good attempt at the end, after interrupted ones. */
  lemma AfterInterruption(adds: bool, s: Spec, e: Entity, outs: seq<(Outcome, Outcome)>)
    requires s.TopicSpec? && e.Topic? && e.partitions >= 1
    requires !WouldInflate(adds, s, e) || e.config + s.config == e.config
    ensures Attempt(adds, s, Attempts(adds, s, e, outs), Ok, Ok) == Attempt(adds, s, e, Ok, Ok)
  {
    InterruptedAttempts(adds, s, e, outs);
    assert (e.config + s.config) + s.config == e.config + s.config;
  }

  /** If the answer to a call that added partitions is lost, the next attempt is refused, and the
      configuration is never set. */
  lemma LostAddition(adds: bool, s: Spec, e: Entity)
    requires s.TopicSpec? && e.Topic? && e.partitions >= 1
    requires WouldInflate(adds, s, e) && e.config + s.config != e.config
    ensures Attempt(adds, s, Attempts(adds, s, e, [(Lost, Ok)]), Ok, Ok) != Attempt(adds, s, e, Ok, Ok)
  {
    var outs := [(Lost, Ok)];
    assert outs[..|outs| - 1] == [];
  }

  /** Retry confluence: however often and wherever earlier attempts stopped, one good attempt ends where one
      good attempt would have ended from the start, exactly if no partitions would be added to those that
      are there, or the spec has nothing to set. In any case a further attempt changes nothing. */
  lemma {:induction false} RetryConfluence(adds: bool, s: Spec, e: Entity)
    requires s.TopicSpec? && e.Topic? && e.partitions >= 1
    ensures (forall outs :: Attempt(adds, s, Attempts(adds, s, e, outs), Ok, Ok) == Attempt(adds, s, e, Ok, Ok))
       <==> !WouldInflate(adds, s, e) || e.config + s.config == e.config
    ensures Attempt(adds, s, Attempt(adds, s, e, Ok, Ok), Ok, Ok) == Attempt(adds, s, e, Ok, Ok)
  {
    if !WouldInflate(adds, s, e) || e.config + s.config == e.config {
      forall outs ensures Attempt(adds, s, Attempts(adds, s, e, outs), Ok, Ok) == Attempt(adds, s, e, Ok, Ok) {
        AfterInterruption(adds, s, e, outs);
      }
    } else {
      LostAddition(adds, s, e);
    }
    assert (e.config + s.config) + s.config == e.config + s.config;
  }

  /** An update that is not refused ends with the spec's partitions exactly if the call sets the count, or
      there is nothing to raise; then it also sets the spec's configuration. */
  lemma {:induction false} UpdateIsExact(adds: bool, s: Spec, e: Entity)
    requires s.TopicSpec? && e.Topic? && e.partitions >= 1 && !Refused(s, e)
    ensures var r := Attempt(adds, s, e, Ok, Ok);
      && (r.partitions == DesiredPartitions(s) <==> !adds || e.partitions == DesiredPartitions(s))
      && (r.partitions == DesiredPartitions(s) ==> Overlaid(s.config, r.config))
      && (WouldInflate(adds, s, e) ==> r.partitions == e.partitions + DesiredPartitions(s))
  {
  }
}
