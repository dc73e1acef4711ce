/**
 Which broker entry an object stands for, in the words of the custom resources: names, mechanisms and access
 rules as the specs have them and as the broker keeps them, and when two objects stand for the same entry.
 */
module Naming {
  import opened Api
  import opened Broker
  import opened Protocol
  import opened Invariant
  import opened Readiness
  import opened Operator

  // ---------------------------------------------------------------- access rules

  /** The rule says what the spec says, with the blanks filled in. */
  ghost predicate Says(b: Binding, s: Spec)
    requires s.AclSpec?
  {
    && (b.deny <==> s.permission == "Deny")
    && b.principal == s.principal
    && b.host == (if s.host == "" then "*" else s.host)
    && (b.pattern == Prefixed <==> s.resource.patternType == "Prefixed")
    && (b.rtype == Group <==> s.resource.rtype == "Group")
    && (b.rtype == WholeCluster <==> s.resource.rtype == "Cluster")
    && (b.rtype == TransactionalId <==> s.resource.rtype == "TransactionalId")
    && b.name == (if s.resource.rtype == "Cluster" then "kafka-cluster" else s.resource.name)
    && (b.operation == OpRead <==> s.operation == "Read")
    && (b.operation == OpWrite <==> s.operation == "Write")
    && (b.operation == OpCreate <==> s.operation == "Create")
    && (b.operation == OpDelete <==> s.operation == "Delete")
    && (b.operation == OpAlter <==> s.operation == "Alter")
    && (b.operation == OpDescribe <==> s.operation == "Describe")
    && (b.operation == OpClusterAction <==> s.operation == "ClusterAction")
    && (b.operation == OpDescribeConfigs <==> s.operation == "DescribeConfigs")
    && (b.operation == OpAlterConfigs <==> s.operation == "AlterConfigs")
    && (b.operation == OpIdempotentWrite <==> s.operation == "IdempotentWrite")
    && (b.operation == OpAll <==> s.operation == "All")
  }

  const OPERATIONS := {"Read", "Write", "Create", "Delete", "Alter", "Describe", "ClusterAction",
                       "DescribeConfigs", "AlterConfigs", "IdempotentWrite", "All"}

  function OperationName(op: Operation): string {
    match op
    case OpUnknown => ""
    case OpAll => "All"
    case OpRead => "Read"
    case OpWrite => "Write"
    case OpCreate => "Create"
    case OpDelete => "Delete"
    case OpAlter => "Alter"
    case OpDescribe => "Describe"
    case OpClusterAction => "ClusterAction"
    case OpDescribeConfigs => "DescribeConfigs"
    case OpAlterConfigs => "AlterConfigs"
    case OpIdempotentWrite => "IdempotentWrite"
  }

  function ResourceName(t: ResourceType): string {
    match t
    case AnyTopic => "Topic"
    case Group => "Group"
    case WholeCluster => "Cluster"
    case TransactionalId => "TransactionalId"
  }

  /** A rule of the broker, written as the spec of an ACL. */
  function SpecOf(cluster: string, b: Binding): Spec {
    AclSpec(cluster, b.principal,
            AclResource(ResourceName(b.rtype), b.name, if b.pattern.Prefixed? then "Prefixed" else "Literal"),
            if b.deny then "Deny" else "Allow", OperationName(b.operation), b.host)
  }

  lemma OperationReadBack(o: string)
    ensures OperationName(OperationOf(o)) == if o in OPERATIONS then o else ""
    ensures OperationOf(OperationName(OperationOf(o))) == OperationOf(o)
  {
  }

  /** The rule of a spec says what the spec says. */
  lemma RuleSays(s: Spec)
    requires s.AclSpec?
    ensures Says(BindingOf(s), s)
  {
  }

  /** The rule of a spec, read back, is the spec with its defaults filled in; and its rule is the same. */
  lemma RuleReadBack(s: Spec)
    requires s.AclSpec?
    ensures var r := SpecOf(s.cluster, BindingOf(s));
      && r.cluster == s.cluster && r.principal == s.principal
      && r.permission == (if s.permission == "Deny" then "Deny" else "Allow")
      && r.host == (if s.host == "" then "*" else s.host)
      && r.resource.patternType == (if s.resource.patternType == "Prefixed" then "Prefixed" else "Literal")
      && r.resource.rtype ==
           (if s.resource.rtype in {"Group", "Cluster", "TransactionalId"} then s.resource.rtype else "Topic")
      && r.resource.name == (if s.resource.rtype == "Cluster" then "kafka-cluster" else s.resource.name)
      && r.operation == (if s.operation in OPERATIONS then s.operation else "")
      && BindingOf(r) == BindingOf(s)
  {
    OperationReadBack(s.operation);
    RuleWrittenOut(s.cluster, BindingOf(s));
  }

  /** Every rule that the broker can hold is the rule of a spec: the one it is written as. */
  lemma RuleWrittenOut(cluster: string, b: Binding)
    requires b.host != "" && (b.rtype.WholeCluster? ==> b.name == "kafka-cluster")
    ensures BindingOf(SpecOf(cluster, b)) == b
  {
  }

  // ---------------------------------------------------------------- entries on runs

  /** In every run, every version of an object ever stored asks for the same entry of the broker, on the
      cluster and under the name, mechanism or rule that its spec spells out. */
  lemma EntrySpelledOut(c: Config, init: Sys, cs: seq<Choice>, i: nat)
    requires Initial(c, init)
    requires var h := Run(c, init, cs).history; i < |h| && h[i].Some?
    ensures var s := Run(c, init, cs).history[i].value.spec;
      && c.key.namespace == c.namespace && c.key.cluster == s.cluster
      && (s.TopicSpec? ==> c.key.entry == TopicEntry(if s.topicName != "" then s.topicName else c.name))
      && (s.UserSpec? ==>
            c.key.entry == CredentialEntry(if s.username != "" then s.username else c.name,
                                           if s.mechanism == "SCRAM-SHA-256" then ScramSha256 else ScramSha512))
      && (s.AclSpec? ==> c.key.entry.AclEntry? && Says(c.key.entry.binding, s))
  {
    SaneRun(c, init, cs);
    var s := Run(c, init, cs).history[i].value.spec;
    assert KeyOf(c.namespace, c.name, s) == c.key;
    if s.AclSpec? {
      RuleSays(s);
    }
  }

  /** The rule in force for a ready ACL is what its spec says; and so is the rule that any request of the
      worker concerns, be it a creation or a removal. */
  lemma {:induction false} RuleInForce(c: Config, init: Sys, cs: seq<Choice>)
    requires Initial(c, init) && NobodyMeddles(cs) && c.key.entry.AclEntry?
    ensures var t := Run(c, init, cs);
      && (LiveReady(Current(t.history)) ==>
            t.entity == Some(Rule) && Current(t.history).value.spec.AclSpec?
            && Says(c.key.entry.binding, Current(t.history).value.spec))
      && (Writing(t.pc) ==>
            t.pc.obj.spec.AclSpec? && Says(c.key.entry.binding, t.pc.obj.spec)
            && (RequestOf(t.pc) == Put(Rule) || RequestOf(t.pc) == Remove))
  {
    var t := Run(c, init, cs);
    SoundRun(c, init, cs, false);
    if LiveReady(Current(t.history)) {
      EntrySpelledOut(c, init, cs, |t.history| - 1);
    }
    if Writing(t.pc) {
      EntrySpelledOut(c, init, cs, t.seen);
    }
  }

  // ---------------------------------------------------------------- when two objects share an entry

  /** Two objects stand for the same entry exactly if they are of one kind, on one cluster of one namespace,
      and agree on the name they resolve to, on the name and mechanism, or on the rule. */
  lemma SameEntry(ns1: string, n1: string, s1: Spec, ns2: string, n2: string, s2: Spec)
    ensures KeyOf(ns1, n1, s1) == KeyOf(ns2, n2, s2) <==>
      && ns1 == ns2 && s1.cluster == s2.cluster
      && (s1.TopicSpec? <==> s2.TopicSpec?) && (s1.UserSpec? <==> s2.UserSpec?)
      && (s1.TopicSpec? && s2.TopicSpec? ==>
            (if s1.topicName != "" then s1.topicName else n1) == (if s2.topicName != "" then s2.topicName else n2))
      && (s1.UserSpec? && s2.UserSpec? ==>
            && (if s1.username != "" then s1.username else n1) == (if s2.username != "" then s2.username else n2)
            && (s1.mechanism == "SCRAM-SHA-256" <==> s2.mechanism == "SCRAM-SHA-256"))
      && (s1.AclSpec? && s2.AclSpec? ==> SpecOf("", BindingOf(s1)) == SpecOf("", BindingOf(s2)))
  {
    if s1.AclSpec? && s2.AclSpec? {
      RuleReadBack(s1);
      RuleReadBack(s2);
    }
  }

  /** Objects with different names in their specs never share an entry. */
  lemma NamedApart(ns1: string, n1: string, s1: Spec, ns2: string, n2: string, s2: Spec)
    requires
      || (s1.TopicSpec? && s2.TopicSpec? && s1.topicName != "" && s2.topicName != "" && s1.topicName != s2.topicName)
      || (s1.UserSpec? && s2.UserSpec? && s1.username != "" && s2.username != "" && s1.username != s2.username)
    ensures KeyOf(ns1, n1, s1) != KeyOf(ns2, n2, s2)
  {
    SameEntry(ns1, n1, s1, ns2, n2, s2);
  }

  /** So a system whose objects all name their topics or users, each differently, has distinct entries. */
  lemma {:induction false} NamesMakeDistinct(objects: Objects, specs: map<Id, Spec>)
    requires forall i :: i in objects ==>
      i in specs && objects[i].key == KeyOf(objects[i].namespace, objects[i].name, specs[i])
    requires forall i, j :: i in objects && j in objects && i != j ==>
      || (specs[i].TopicSpec? && specs[j].TopicSpec?
          && specs[i].topicName != "" && specs[j].topicName != "" && specs[i].topicName != specs[j].topicName)
      || (specs[i].UserSpec? && specs[j].UserSpec?
          && specs[i].username != "" && specs[j].username != "" && specs[i].username != specs[j].username)
      || (specs[i].TopicSpec? && !specs[j].TopicSpec?) || (specs[j].TopicSpec? && !specs[i].TopicSpec?)
    ensures Distinct(objects)
  {
    forall i, j | i in objects && j in objects && i != j ensures objects[i].key != objects[j].key {
      SameEntry(objects[i].namespace, objects[i].name, specs[i], objects[j].namespace, objects[j].name, specs[j]);
    }
  }
}
