/**
 The Kubernetes side of the operator: the custom resources, their status conditions, and the
 API server's stored versions of one object.

 The API server and the condition helpers are library code whose source is not part of the
 repository, so their behaviour is written down here as definitions:
   - a write succeeds only when the writer's resourceVersion is the stored one, and a write that
     changes nothing stores nothing;
   - the spec/metadata write and the status write touch disjoint parts of the object;
   - an edit of the spec, or a deletion request, increases the generation;
   - an object that is being deleted and has no finalizers left disappears.
 */
module Api {

  datatype Option<+T> = None | Some(value: T)

  function Lookup<K(==), V>(m: map<K, V>, k: K): Option<V> {
    if k in m then Some(m[k]) else None
  }

  /** The map with `k` bound to the value, or unbound. */
  function Assign<K(==), V>(m: map<K, V>, k: K, v: Option<V>): map<K, V> {
    if v.Some? then m[k := v.value] else m - {k}
  }

  type Int16 = x: int | -0x8000 <= x < 0x8000
  type Int32 = x: int | -0x8000_0000 <= x < 0x8000_0000

  /** Go's conversion int16(x): keep the low sixteen bits, read them as two's complement. */
  function ToInt16(x: Int32): (r: Int16)
    ensures (r - x) % 0x1_0000 == 0
  {
    (x + 0x8000) % 0x1_0000 - 0x8000
  }

  // ---------------------------------------------------------------- conditions

  datatype ConditionType = Ready | Degraded | Progressing

  /** A metav1.Condition without its reason, message and transition time. */
  datatype Condition = Condition(ctype: ConditionType, status: bool, observedGeneration: nat)

  function FindStatusCondition(cs: seq<Condition>, t: ConditionType): Option<Condition> {
    if cs == [] then None
    else if cs[0].ctype == t then Some(cs[0])
    else FindStatusCondition(cs[1..], t)
  }

  /** Replaces the entry of the same type in place, or appends. */
  function SetStatusCondition(cs: seq<Condition>, c: Condition): seq<Condition> {
    if cs == [] then [c]
    else if cs[0].ctype == c.ctype then [c] + cs[1..]
    else [cs[0]] + SetStatusCondition(cs[1..], c)
  }

  predicate IsTrue(cs: seq<Condition>, t: ConditionType) {
    FindStatusCondition(cs, t).Some? && FindStatusCondition(cs, t).value.status
  }

  ghost predicate UniqueTypes(cs: seq<Condition>) {
    forall i, j :: 0 <= i < j < |cs| ==> cs[i].ctype != cs[j].ctype
  }

  lemma {:induction false} FindAfterSet(cs: seq<Condition>, c: Condition, t: ConditionType)
    ensures FindStatusCondition(SetStatusCondition(cs, c), t)
         == if t == c.ctype then Some(c) else FindStatusCondition(cs, t)
  {
    if cs != [] && cs[0].ctype != c.ctype {
      FindAfterSet(cs[1..], c, t);
      assert SetStatusCondition(cs, c)[1..] == SetStatusCondition(cs[1..], c);
    } else if cs != [] {
      assert SetStatusCondition(cs, c)[1..] == cs[1..];
    }
  }

  lemma {:induction false} FindIsMember(cs: seq<Condition>, t: ConditionType)
    ensures FindStatusCondition(cs, t).None? <==> forall i :: 0 <= i < |cs| ==> cs[i].ctype != t
  {
    if cs != [] {
      FindIsMember(cs[1..], t);
      if cs[0].ctype != t {
        assert forall i :: 0 < i < |cs| ==> cs[i] == cs[1..][i - 1];
      }
    }
  }

  lemma {:induction false} SetKeepsUnique(cs: seq<Condition>, c: Condition)
    requires UniqueTypes(cs)
    ensures UniqueTypes(SetStatusCondition(cs, c))
  {
    if cs != [] && cs[0].ctype != c.ctype {
      var rest := SetStatusCondition(cs[1..], c);
      SetKeepsUnique(cs[1..], c);
      FindIsMember(cs[1..], cs[0].ctype);
      FindAfterSet(cs[1..], c, cs[0].ctype);
      FindIsMember(rest, cs[0].ctype);
    }
  }

  /** Setting what is already set changes nothing. */
  lemma {:induction false} SetSame(cs: seq<Condition>, c: Condition)
    requires FindStatusCondition(cs, c.ctype) == Some(c)
    ensures SetStatusCondition(cs, c) == cs
  {
    if cs[0].ctype != c.ctype {
      SetSame(cs[1..], c);
    }
  }

  /** The second of two settings of one type wins, at the position of the first. */
  lemma {:induction false} SetTwice(cs: seq<Condition>, c: Condition, d: Condition)
    requires c.ctype == d.ctype
    ensures SetStatusCondition(SetStatusCondition(cs, c), d) == SetStatusCondition(cs, d)
  {
    if cs != [] && cs[0].ctype != c.ctype {
      SetTwice(cs[1..], c, d);
      assert SetStatusCondition(cs, c)[1..] == SetStatusCondition(cs[1..], c);
    }
  }

  // ---------------------------------------------------------------- resources

  datatype Spec =
    | TopicSpec(cluster: string, topicName: string, partitions: Int32, replicationFactor: Int32,
                config: map<string, string>, assumeOwnership: bool)
    | UserSpec(cluster: string, username: string, mechanism: string,
               secretName: string, secretKey: string, iterations: Int32)
    | AclSpec(cluster: string, principal: string, resource: AclResource,
              permission: string, operation: string, host: string)

  /** The three resource enumerations of an ACL are strings in the custom resource. */
  datatype AclResource = AclResource(rtype: string, name: string, patternType: string)

  datatype Detail =
    | NoDetail
    | TopicDetail(topicName: string, partitions: Int32, replicationFactor: Int32)
    | UserDetail(username: string, mechanism: string)

  datatype Status = Status(observedGeneration: nat, conditions: seq<Condition>, detail: Detail)

  const EMPTY_STATUS := Status(0, [], NoDetail)

  datatype Object = Object(resourceVersion: nat, uid: nat, generation: nat, deleting: bool,
                           finalizers: set<string>, spec: Spec, status: Status)

  /** The guard of every early return: this generation was already reconciled successfully. */
  predicate ReadyNow(o: Object) {
    o.status.observedGeneration == o.generation && IsTrue(o.status.conditions, Ready)
  }

  // ---------------------------------------------------------------- the API server

  /** Every version of the object ever stored, oldest first; None is its absence.
      The resourceVersion of a version is its index. */
  type History = h: seq<Option<Object>> | |h| > 0 witness [None]

  function Current(h: History): Option<Object> { h[|h| - 1] }

  /** Stores `o` as the next version; the object vanishes once nothing holds it back. */
  function Store(h: History, o: Object): History {
    h + [if o.deleting && o.finalizers == {} then None else Some(o.(resourceVersion := |h|))]
  }

  /** The optimistic lock. */
  predicate Unchanged(h: History, o: Object) {
    Current(h).Some? && Current(h).value.resourceVersion == o.resourceVersion
  }

  /** Update: metadata and spec of `o` replace the stored ones. */
  function UpdateObject(h: History, o: Object): History {
    if !Unchanged(h, o) then h
    else
      var cur := Current(h).value;
      var next := cur.(spec := o.spec, finalizers := o.finalizers,
                       generation := if o.spec == cur.spec then cur.generation else cur.generation + 1);
      if next == cur then h else Store(h, next)
  }

  /** Status().Update: only the status of `o` replaces the stored one. */
  function UpdateStatus(h: History, o: Object): History {
    if !Unchanged(h, o) || o.status == Current(h).value.status then h
    else Store(h, Current(h).value.(status := o.status))
  }

  /** A status write that goes through leaves the writer's status on the stored object. */
  lemma StatusStored(h: History, o: Object)
    requires Unchanged(h, o)
    ensures var now := Current(UpdateStatus(h, o));
      now.Some? ==> now.value.status == o.status && now.value.generation == Current(h).value.generation
  {
  }
}
