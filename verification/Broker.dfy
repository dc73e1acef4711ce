/**
 The broker side: which entry of the broker an object stands for, what the operator asks of that
 entry, and how a Kafka-compatible broker answers. Broker requests are atomic per entry. Their
 library (kadm) is not part of the repository; its behaviour is written down here:
   - creating a topic that exists is rejected; a count of -1 stands for the broker's default, any
     other count below one is rejected;
   - the partition count can only be raised;
   - removing a topic or credential that is not there is answered by an error, removing a rule that
     is not there by success.
 Two facts about the library decide what the operator does, and are left open here: whether the call
 that raises a partition count takes the new count or the number to add, and the text of the error
 that reports a missing entry. See Service.
 */
module Broker {
  import opened Api

  // ---------------------------------------------------------------- entries

  datatype Mechanism = ScramSha256 | ScramSha512

  datatype ResourceType = AnyTopic | Group | WholeCluster | TransactionalId
  datatype PatternType = Literal | Prefixed
  datatype Operation =
    | OpUnknown | OpAll | OpRead | OpWrite | OpCreate | OpDelete | OpAlter | OpDescribe
    | OpClusterAction | OpDescribeConfigs | OpAlterConfigs | OpIdempotentWrite

  /** One access rule as the broker stores it. */
  datatype Binding = Binding(deny: bool, principal: string, host: string, pattern: PatternType,
                             rtype: ResourceType, name: string, operation: Operation)

  /** What identifies an entry inside one broker. */
  datatype Entry =
    | TopicEntry(topic: string)
    | CredentialEntry(user: string, mechanism: Mechanism)
    | AclEntry(binding: Binding)

  /** What identifies an entry over all clusters. */
  datatype Key = Key(namespace: string, cluster: string, entry: Entry)

  datatype Entity =
    | Topic(partitions: Int32, replication: Int16, config: map<string, string>)
    | Credential(password: string, iterations: Int32)
    | Rule

  predicate Fits(e: Entity, entry: Entry) {
    match entry
    case TopicEntry(_) => e.Topic? && e.partitions >= 1 && e.replication >= 1
    case CredentialEntry(_, _) => e.Credential?
    case AclEntry(_) => e.Rule?
  }

  /** The fallback of every optional name: the resource's own name. */
  function OrName(s: string, name: string): string {
    if s != "" then s else name
  }

  function MechanismOf(m: string): Mechanism {
    if m == "SCRAM-SHA-256" then ScramSha256 else ScramSha512
  }

  const CLUSTER_RESOURCE := "kafka-cluster"

  function OperationOf(s: string): Operation {
    match s
    case "Read" => OpRead
    case "Write" => OpWrite
    case "Create" => OpCreate
    case "Delete" => OpDelete
    case "Alter" => OpAlter
    case "Describe" => OpDescribe
    case "ClusterAction" => OpClusterAction
    case "DescribeConfigs" => OpDescribeConfigs
    case "AlterConfigs" => OpAlterConfigs
    case "IdempotentWrite" => OpIdempotentWrite
    case "All" => OpAll
    case _ => OpUnknown
  }

  /** The access rule an ACL object stands for: blanks become defaults, and a cluster rule carries
      the cluster's fixed resource name whatever the object says. */
  function BindingOf(s: Spec): Binding
    requires s.AclSpec?
  {
    var t := if s.resource.rtype == "Group" then Group
             else if s.resource.rtype == "Cluster" then WholeCluster
             else if s.resource.rtype == "TransactionalId" then TransactionalId
             else AnyTopic;
    Binding(s.permission == "Deny", s.principal, if s.host == "" then "*" else s.host,
            if s.resource.patternType == "Prefixed" then Prefixed else Literal,
            t, if t.WholeCluster? then CLUSTER_RESOURCE else s.resource.name,
            OperationOf(s.operation))
  }

  /** The broker entry that the object called `name` with spec `s` stands for, on a cluster of its namespace. */
  function KeyOf(namespace: string, name: string, s: Spec): Key {
    Key(namespace, s.cluster,
        match s
        case TopicSpec(_, _, _, _, _, _) => TopicEntry(OrName(s.topicName, name))
        case UserSpec(_, _, _, _, _, _) => CredentialEntry(OrName(s.username, name), MechanismOf(s.mechanism))
        case AclSpec(_, _, _, _, _, _) => AclEntry(BindingOf(s)))
  }

  // ---------------------------------------------------------------- what a spec asks for

  function OrOne(n: int): int { if n == 0 then 1 else n }

  function DesiredPartitions(s: Spec): Int32
    requires s.TopicSpec?
  {
    OrOne(s.partitions)
  }

  function DesiredReplication(s: Spec): Int16
    requires s.TopicSpec?
  {
    OrOne(ToInt16(s.replicationFactor))
  }

  function DesiredIterations(s: Spec): Int32
    requires s.UserSpec?
  {
    if s.iterations == 0 then 4096 else s.iterations
  }

  /** Every key of the spec has the spec's value in the broker. */
  ghost predicate Overlaid(config: map<string, string>, now: map<string, string>) {
    forall k :: k in config ==> k in now && now[k] == config[k]
  }

  /** The topic has the size that `s` asks for; or, if not `exact`, at least as many partitions. */
  ghost predicate SizeMatches(s: Spec, e: Entity, exact: bool)
    requires s.TopicSpec?
  {
    && e.Topic?
    && (DesiredPartitions(s) >= 1 ==>
          e.partitions >= DesiredPartitions(s) && (exact ==> e.partitions == DesiredPartitions(s)))
    && (DesiredReplication(s) >= 1 ==> e.replication == DesiredReplication(s))
  }

  /** `e` is what `s` asks for; or, if not `exact`, it may have too many partitions. (The password is
      not part of a User's spec.) */
  ghost predicate Meets(s: Spec, e: Entity, exact: bool) {
    match s
    case TopicSpec(_, _, _, _, config, _) => SizeMatches(s, e, exact) && Overlaid(config, e.config)
    case UserSpec(_, _, _, _, _, _) => e.Credential? && e.iterations == DesiredIterations(s)
    case AclSpec(_, _, _, _, _, _) => e.Rule?
  }

  ghost predicate Matches(s: Spec, e: Entity) { Meets(s, e, true) }

  // ---------------------------------------------------------------- requests

  datatype Request =
    | CreateTopic(partitions: Int32, replication: Int16, config: map<string, string>)
    | MorePartitions(argument: Int32)
    | SetConfigs(config: map<string, string>)
    | Put(entity: Entity)
    | Remove

  datatype Reply = Rejected | Missing | Accepted(now: Option<Entity>)

  /** What the model leaves open about the broker and its client library. */
  datatype Service = Service(
    partitions: Int32,         // the broker's own counts, for requests that leave them open
    replication: Int16,
    adds: bool,                // the partition call adds its argument to the count; otherwise it sets the count
    absentText: string)        // the text of the error that reports a missing topic or credential

  predicate Sensible(v: Service) { v.partitions >= 1 && v.replication >= 1 }

  /** The partition count after a call with this argument, if the broker accepts it. */
  function Raised(adds: bool, was: Int32, argument: Int32): Option<Int32> {
    var total := if adds then was + argument else argument;
    if was < total < 0x8000_0000 then Some(total) else None
  }

  function Answer(v: Service, entry: Entry, r: Request, e: Option<Entity>): Reply {
    match r
    case CreateTopic(p, n, config) =>
      if e.Some? || p == 0 || p < -1 || n == 0 || n < -1 then Rejected
      else Accepted(Some(Topic(if p == -1 then v.partitions else p,
                               if n == -1 then v.replication else n, config)))
    case MorePartitions(argument) =>
      if e.None? || !e.value.Topic? || Raised(v.adds, e.value.partitions, argument).None? then Rejected
      else Accepted(Some(e.value.(partitions := Raised(v.adds, e.value.partitions, argument).value)))
    case SetConfigs(config) =>
      if e.None? || !e.value.Topic? then Rejected
      else Accepted(Some(e.value.(config := e.value.config + config)))
    case Put(x) => Accepted(Some(x))
    case Remove =>
      // rules are removed by a filter, and a filter may well select nothing
      if e.None? && !entry.AclEntry? then Missing else Accepted(None)
  }

  // ---------------------------------------------------------------- missing entries

  /** The broker's code for an entry that is not there. */
  function AbsentCode(entry: Entry): string {
    if entry.TopicEntry? then "UNKNOWN_TOPIC_OR_PARTITION" else "RESOURCE_NOT_FOUND"
  }

  /** The texts that the operator takes for "not found". */
  predicate IsNotFound(entry: Entry, text: string) {
    if entry.TopicEntry? then text == "UNKNOWN_TOPIC_OR_PARTITION" || text == "UNKNOWN_TOPIC"
    else text == "RESOURCE_NOT_FOUND"
  }

  /** Of all texts that begin with the code, only the bare code is taken for "not found". */
  lemma OnlyTheBareCode(entry: Entry, rest: string)
    ensures IsNotFound(entry, AbsentCode(entry) + rest) <==> rest == ""
  {
    if rest == "" {
      assert AbsentCode(entry) + rest == AbsentCode(entry);
    } else {
      assert |AbsentCode(entry) + rest| > |AbsentCode(entry)| > |"UNKNOWN_TOPIC"|;
    }
  }
}
