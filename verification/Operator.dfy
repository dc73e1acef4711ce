/**
 The whole operator: any number of Topic, User and ACL objects on any number of clusters, each with
 its own reconciles, all interleaved in any way over one store of broker entries. When no two objects
 stand for the same entry, the system seen from one object is exactly one run of the protocol, so
 everything proved about single objects holds in the system.
 */
module Operator {
  import opened Api
  import opened Broker
  import opened Protocol
  import opened Invariant
  import opened CleanUp
  import opened Readiness

  type Id = string

  datatype Slot = Slot(history: History, seen: nat, pc: PC)

  datatype World = World(
    slots: map<Id, Slot>,
    broker: map<Key, Entity>,
    written: set<Key>)          // history variable: the present entry was written by the operator

  datatype Act =
    | On(id: Id, choice: Choice)                     // a step of one object's life
    | Elsewhere(key: Key, after: Option<Entity>)     // somebody else, on an entry no object stands for

  type Objects = map<Id, Config>

  /** No two objects stand for the same entry. */
  ghost predicate Distinct(objects: Objects) {
    forall i, j :: i in objects && j in objects && i != j ==> objects[i].key != objects[j].key
  }

  ghost predicate Claimed(objects: Objects, key: Key) {
    exists i :: i in objects && objects[i].key == key
  }

  ghost predicate Complete(objects: Objects, w: World) {
    w.slots.Keys == objects.Keys
  }

  /** The system as the object `id` sees it. */
  function Project(c: Config, w: World, id: Id): Sys
    requires id in w.slots
  {
    Sys(w.slots[id].history, w.slots[id].seen, Lookup(w.broker, c.key), c.key in w.written, w.slots[id].pc)
  }

  function Inject(c: Config, w: World, id: Id, s: Sys): World {
    World(w.slots[id := Slot(s.history, s.seen, s.pc)],
          Assign(w.broker, c.key, s.entity),
          if s.mine then w.written + {c.key} else w.written - {c.key})
  }

  ghost function StepAll(objects: Objects, w: World, a: Act): World
    requires Complete(objects, w)
    ensures Complete(objects, StepAll(objects, w, a))
  {
    match a
    case On(id, ch) =>
      if id !in objects then w
      else Inject(objects[id], w, id, Step(objects[id], Project(objects[id], w, id), ch))
    case Elsewhere(key, after) =>
      if Claimed(objects, key) then w
      else w.(broker := Assign(w.broker, key, after), written := w.written - {key})
  }

  ghost function RunAll(objects: Objects, w: World, acts: seq<Act>): (r: World)
    requires Complete(objects, w)
    ensures Complete(objects, r)
  {
    if acts == [] then w
    else StepAll(objects, RunAll(objects, w, acts[..|acts| - 1]), acts[|acts| - 1])
  }

  /** The steps of one object in a run of the system. */
  function ChoicesOf(acts: seq<Act>, id: Id): seq<Choice> {
    if acts == [] then []
    else
      var front, last := ChoicesOf(acts[..|acts| - 1], id), acts[|acts| - 1];
      if last.On? && last.id == id then front + [last.choice] else front
  }

  ghost predicate InitialAll(objects: Objects, w: World) {
    && Complete(objects, w) && Distinct(objects) && w.written == {}
    && forall id :: id in objects ==> Initial(objects[id], Project(objects[id], w, id))
  }

  // ---------------------------------------------------------------- non-interference

  lemma ProjectInjected(c: Config, w: World, id: Id, s: Sys)
    requires id in w.slots
    ensures Project(c, Inject(c, w, id, s), id) == s
  {
  }

  /** An act on one object leaves every other object, and its entry, as they were. */
  lemma Frame(objects: Objects, w: World, a: Act, id: Id)
    requires Complete(objects, w) && Distinct(objects) && id in objects
    requires !(a.On? && a.id == id)
    ensures Project(objects[id], StepAll(objects, w, a), id) == Project(objects[id], w, id)
  {
  }

  /** What one object sees of any run of the system is a run of the protocol, of its own steps. */
  lemma {:induction false} Projection(objects: Objects, w: World, acts: seq<Act>, id: Id)
    requires Complete(objects, w) && Distinct(objects) && id in objects
    ensures Project(objects[id], RunAll(objects, w, acts), id)
         == Run(objects[id], Project(objects[id], w, id), ChoicesOf(acts, id))
  {
    if acts != [] {
      var front, last := acts[..|acts| - 1], acts[|acts| - 1];
      Projection(objects, w, front, id);
      var before := RunAll(objects, w, front);
      if last.On? && last.id == id {
        var c := objects[id];
        ProjectInjected(c, before, id, Step(c, Project(c, before, id), last.choice));
        RunAppend(c, Project(c, w, id), ChoicesOf(front, id), last.choice);
      } else {
        Frame(objects, before, last, id);
      }
    }
  }

  /** The operator changes only entries that some object stands for. */
  lemma {:induction false} UnclaimedUntouched(objects: Objects, w: World, acts: seq<Act>, key: Key)
    requires Complete(objects, w) && !Claimed(objects, key)
    requires forall i :: 0 <= i < |acts| && acts[i].Elsewhere? ==> acts[i].key != key
    ensures Lookup(RunAll(objects, w, acts).broker, key) == Lookup(w.broker, key)
    ensures key in RunAll(objects, w, acts).written <==> key in w.written
  {
    if acts != [] {
      UnclaimedUntouched(objects, w, acts[..|acts| - 1], key);
    }
  }

  lemma {:induction false} WrittenAreClaimed(objects: Objects, w: World, acts: seq<Act>)
    requires Complete(objects, w) && w.written == {}
    ensures forall key :: key in RunAll(objects, w, acts).written ==> Claimed(objects, key)
  {
    if acts != [] {
      WrittenAreClaimed(objects, w, acts[..|acts| - 1]);
    }
  }

  // ---------------------------------------------------------------- what is inherited

  lemma {:induction false} ChoicesAreFromActs(acts: seq<Act>, id: Id)
    ensures forall i :: 0 <= i < |ChoicesOf(acts, id)| ==> On(id, ChoicesOf(acts, id)[i]) in acts
  {
    if acts != [] {
      ChoicesAreFromActs(acts[..|acts| - 1], id);
    }
  }

  /** Some object that stands for the entry still holds its finalizer. */
  ghost predicate Held(objects: Objects, w: World, key: Key)
    requires Complete(objects, w)
  {
    exists id :: id in objects && objects[id].key == key && Holds(objects[id], Current(w.slots[id].history))
  }

  /** Clean-up of the system: every entry that the operator wrote is backed by an object that stands for
      it and still holds its finalizer. */
  lemma SystemCleanUp(objects: Objects, w: World, acts: seq<Act>, key: Key)
    requires InitialAll(objects, w)
    requires key in RunAll(objects, w, acts).broker && key in RunAll(objects, w, acts).written
    ensures Held(objects, RunAll(objects, w, acts), key)
  {
    WrittenAreClaimed(objects, w, acts);
    var id :| id in objects && objects[id].key == key;
    Projection(objects, w, acts, id);
    CleanUpTheorem(objects[id], Project(objects[id], w, id), ChoicesOf(acts, id));
    assert Project(objects[id], RunAll(objects, w, acts), id).entity.Some?;
  }

  /** Ready soundness of the system, with the same exception as for single objects. */
  lemma {:induction false} SystemReadySoundness(objects: Objects, w: World, acts: seq<Act>, id: Id)
    requires InitialAll(objects, w) && id in objects
    requires forall i :: 0 <= i < |acts| && acts[i].On? ==> !acts[i].choice.ForeignChange?
    requires LiveReady(Current(RunAll(objects, w, acts).slots[id].history))
    ensures var r := RunAll(objects, w, acts);
      objects[id].key in r.broker
      && Meets(Current(r.slots[id].history).value.spec, r.broker[objects[id].key],
               NeverInflates(objects[id], Project(objects[id], w, id), ChoicesOf(acts, id)))
  {
    Projection(objects, w, acts, id);
    ChoicesAreFromActs(acts, id);
    forall i | 0 <= i < |ChoicesOf(acts, id)| ensures !ChoicesOf(acts, id)[i].ForeignChange? {
      var j :| 0 <= j < |acts| && acts[j] == On(id, ChoicesOf(acts, id)[i]);
    }
    ReadySoundness(objects[id], Project(objects[id], w, id), ChoicesOf(acts, id));
  }

  /** The access rules among the broker's entries that the operator has written. */
  function OperatorRules(w: World): set<Key> {
    set key | key in w.written && key in w.broker && key.entry.AclEntry?
  }

  ghost predicate ReadyAcl(objects: Objects, w: World, key: Key)
    requires Complete(objects, w)
  {
    exists id :: id in objects && objects[id].key == key && key.entry.AclEntry?
      && LiveReady(Current(w.slots[id].history))
  }

  /** Conservation of access rules: in every reachable state the operator's rules are bindings of objects
      that still hold the finalizer, and the rule of every ready object is in force. */
  lemma {:induction false} AclConservation(objects: Objects, w: World, acts: seq<Act>)
    requires InitialAll(objects, w)
    requires forall i :: 0 <= i < |acts| && acts[i].On? ==> !acts[i].choice.ForeignChange?
    ensures var r := RunAll(objects, w, acts);
      && (forall key :: key in OperatorRules(r) ==> Held(objects, r, key))
      && (forall key :: ReadyAcl(objects, r, key) ==> key in r.broker && r.broker[key].Rule?)
  {
    var r := RunAll(objects, w, acts);
    forall key | key in OperatorRules(r) ensures Held(objects, r, key) {
      SystemCleanUp(objects, w, acts, key);
    }
    forall key | ReadyAcl(objects, r, key) ensures key in r.broker && r.broker[key].Rule? {
      var id :| id in objects && objects[id].key == key && LiveReady(Current(r.slots[id].history));
      SystemReadySoundness(objects, w, acts, id);
      Projection(objects, w, acts, id);
      SaneRun(objects[id], Project(objects[id], w, id), ChoicesOf(acts, id));
    }
  }

  // ---------------------------------------------------------------- conservation

  predicate IsForeign(ch: Choice) { ch.ForeignCreate? || ch.ForeignChange? }

  lemma {:induction false} AllMine(c: Config, s: Sys, cs: seq<Choice>)
    requires s.entity.Some? ==> s.mine
    requires forall i :: 0 <= i < |cs| ==> !IsForeign(cs[i])
    ensures Run(c, s, cs).entity.Some? ==> Run(c, s, cs).mine
  {
    if cs != [] {
      AllMine(c, s, cs[..|cs| - 1]);
      var t, ch := Run(c, s, cs[..|cs| - 1]), cs[|cs| - 1];
      if IsEnv(ch) {
        assert StepEnv(c, t, ch).entity == t.entity && StepEnv(c, t, ch).mine == t.mine;
      }
    }
  }

  /** Objects come and go without a trace: if nobody else touches the broker, and the objects that have
      acted are gone in the end, the broker is exactly what it was, provided it held none of their
      entries at the start. This is what makes delete the inverse of create and of upsert. */
  lemma {:induction false} ComeAndGone(objects: Objects, w: World, acts: seq<Act>)
    requires InitialAll(objects, w)
    requires forall id :: id in objects ==> objects[id].key !in w.broker
    requires forall i :: 0 <= i < |acts| ==> acts[i].On? && !IsForeign(acts[i].choice)
    requires forall id :: id in objects ==> Current(RunAll(objects, w, acts).slots[id].history).None?
    ensures RunAll(objects, w, acts).broker == w.broker
  {
    var r := RunAll(objects, w, acts);
    forall key ensures Lookup(r.broker, key) == Lookup(w.broker, key) {
      if Claimed(objects, key) {
        var id :| id in objects && objects[id].key == key;
        GoneWithItsEntry(objects, w, acts, id);
      } else {
        UnclaimedUntouched(objects, w, acts, key);
      }
    }
    SameLookups(r.broker, w.broker);
  }

  lemma GoneWithItsEntry(objects: Objects, w: World, acts: seq<Act>, id: Id)
    requires InitialAll(objects, w) && id in objects && objects[id].key !in w.broker
    requires forall i :: 0 <= i < |acts| ==> acts[i].On? && !IsForeign(acts[i].choice)
    requires Current(RunAll(objects, w, acts).slots[id].history).None?
    ensures objects[id].key !in RunAll(objects, w, acts).broker
  {
    var c, cs := objects[id], ChoicesOf(acts, id);
    Projection(objects, w, acts, id);
    ChoicesAreFromActs(acts, id);
    forall i | 0 <= i < |cs| ensures !IsForeign(cs[i]) {
      var j :| 0 <= j < |acts| && acts[j] == On(id, cs[i]);
    }
    AllMine(c, Project(c, w, id), cs);
    CleanUpTheorem(c, Project(c, w, id), cs);
  }

  lemma SameLookups(a: map<Key, Entity>, b: map<Key, Entity>)
    requires forall key :: Lookup(a, key) == Lookup(b, key)
    ensures a == b
  {
    forall key ensures key in a <==> key in b
      ensures key in a ==> a[key] == b[key]
    {
      assert Lookup(a, key) == Lookup(b, key);
    }
  }
}
