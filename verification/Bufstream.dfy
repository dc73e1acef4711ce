/**
 The client library of the operator: what the reconcilers call to look at and change the broker.
 Every method here makes exactly the calls that the protocol has at that place, with the arguments
 that the object's spec determines, and reports success exactly when the protocol goes on.
 */
module Bufstream {
  import opened Api
  import opened Broker
  import opened Protocol
  import opened Update
  import opened Clusters
  import opened Runtime

  datatype TopicConfig =
    TopicConfig(name: string, partitions: Int32, replicationFactor: Int16, config: map<string, string>)

  datatype TopicInfo = TopicInfo(name: string, partitions: Int32, replicationFactor: Int16)

  datatype Existence = CheckFailed | Absent | Present(info: TopicInfo)

  /** ScramMechanism of the library. */
  const SCRAM_SHA_256 := 1
  const SCRAM_SHA_512 := 2

  datatype UserCredentials = UserCredentials(username: string, password: string, mechanism: int, iterations: Int32)

  // ---------------------------------------------------------------- access rules

  const ACL_RESOURCE_TOPIC := 2
  const ACL_RESOURCE_GROUP := 3
  const ACL_RESOURCE_CLUSTER := 4
  const ACL_RESOURCE_TRANSACTIONAL_ID := 5

  const ACL_PATTERN_LITERAL := 3
  const ACL_PATTERN_PREFIXED := 4

  const ACL_OPERATION_ALL := 1
  const ACL_OPERATION_READ := 2
  const ACL_OPERATION_WRITE := 3
  const ACL_OPERATION_CREATE := 4
  const ACL_OPERATION_DELETE := 5
  const ACL_OPERATION_ALTER := 6
  const ACL_OPERATION_DESCRIBE := 7
  const ACL_OPERATION_CLUSTER_ACTION := 8
  const ACL_OPERATION_DESCRIBE_CONFIGS := 9
  const ACL_OPERATION_ALTER_CONFIGS := 10
  const ACL_OPERATION_IDEMPOTENT_WRITE := 11

  const ACL_PERMISSION_DENY := 2
  const ACL_PERMISSION_ALLOW := 3

  /** The library's number of an operation; a spec that names none leaves it zero. */
  function OperationNumber(op: Operation): int {
    match op
    case OpUnknown => 0
    case OpAll => ACL_OPERATION_ALL
    case OpRead => ACL_OPERATION_READ
    case OpWrite => ACL_OPERATION_WRITE
    case OpCreate => ACL_OPERATION_CREATE
    case OpDelete => ACL_OPERATION_DELETE
    case OpAlter => ACL_OPERATION_ALTER
    case OpDescribe => ACL_OPERATION_DESCRIBE
    case OpClusterAction => ACL_OPERATION_CLUSTER_ACTION
    case OpDescribeConfigs => ACL_OPERATION_DESCRIBE_CONFIGS
    case OpAlterConfigs => ACL_OPERATION_ALTER_CONFIGS
    case OpIdempotentWrite => ACL_OPERATION_IDEMPOTENT_WRITE
  }

  datatype AclConfig = AclConfig(principal: string, host: string, resourceType: int, resourceName: string,
                                 resourcePattern: int, operation: int, permission: int)

  /** The configuration says what the spec says. */
  ghost predicate Represents(config: AclConfig, s: Spec)
    requires s.AclSpec?
  {
    && config.principal == s.principal && config.host == s.host && config.resourceName == s.resource.name
    && config.resourceType == (match BindingOf(s).rtype
                               case AnyTopic => ACL_RESOURCE_TOPIC
                               case Group => ACL_RESOURCE_GROUP
                               case WholeCluster => ACL_RESOURCE_CLUSTER
                               case TransactionalId => ACL_RESOURCE_TRANSACTIONAL_ID)
    && config.resourcePattern == (if BindingOf(s).pattern.Prefixed? then ACL_PATTERN_PREFIXED else ACL_PATTERN_LITERAL)
    && config.permission == (if BindingOf(s).deny then ACL_PERMISSION_DENY else ACL_PERMISSION_ALLOW)
    && config.operation == OperationNumber(BindingOf(s).operation)
  }

  /** The library's rule builder, one binding at a time. */
  const NEW_ACLS := Binding(false, "", "", Literal, AnyTopic, "", OpUnknown)

  /** Both creation and deletion address the very rule that the spec stands for. */
  method BuildAcl(config: AclConfig, host: string, ghost s: Spec) returns (b: Binding)
    requires s.AclSpec? && Represents(config, s)
    requires host == if s.host == "" then "*" else s.host
    ensures b == BindingOf(s)
  {
    b := NEW_ACLS;
    if config.permission == ACL_PERMISSION_DENY {
      b := b.(deny := true, principal := config.principal);
      b := b.(host := host);
    } else {
      b := b.(deny := false, principal := config.principal);
      b := b.(host := host);
    }

    if config.resourcePattern == ACL_PATTERN_PREFIXED {
      b := b.(pattern := Prefixed);
    } else {
      b := b.(pattern := Literal);
    }

    if config.resourceType == ACL_RESOURCE_GROUP {
      b := b.(rtype := Group, name := config.resourceName);
    } else if config.resourceType == ACL_RESOURCE_CLUSTER {
      b := b.(rtype := WholeCluster, name := CLUSTER_RESOURCE);
    } else if config.resourceType == ACL_RESOURCE_TRANSACTIONAL_ID {
      b := b.(rtype := TransactionalId, name := config.resourceName);
    } else {
      b := b.(rtype := AnyTopic, name := config.resourceName);
    }

    var op := OpUnknown;
    if config.operation == ACL_OPERATION_ALL {
      op := OpAll;
    } else if config.operation == ACL_OPERATION_READ {
      op := OpRead;
    } else if config.operation == ACL_OPERATION_WRITE {
      op := OpWrite;
    } else if config.operation == ACL_OPERATION_CREATE {
      op := OpCreate;
    } else if config.operation == ACL_OPERATION_DELETE {
      op := OpDelete;
    } else if config.operation == ACL_OPERATION_ALTER {
      op := OpAlter;
    } else if config.operation == ACL_OPERATION_DESCRIBE {
      op := OpDescribe;
    } else if config.operation == ACL_OPERATION_CLUSTER_ACTION {
      op := OpClusterAction;
    } else if config.operation == ACL_OPERATION_DESCRIBE_CONFIGS {
      op := OpDescribeConfigs;
    } else if config.operation == ACL_OPERATION_ALTER_CONFIGS {
      op := OpAlterConfigs;
    } else if config.operation == ACL_OPERATION_IDEMPOTENT_WRITE {
      op := OpIdempotentWrite;
    }
    b := b.(operation := op);
  }

  // ---------------------------------------------------------------- the client

  class Client {
    const env: Environment

    constructor (env: Environment)
      ensures this.env == env
    {
      this.env := env;
    }

    /** Connects and pings; None if that fails. */
    static method NewClient(env: Environment, bootstrapServers: string, sasl: Option<SaslConfig>)
      returns (r: Survival<Option<Client>>)
      requires env.Valid() && env.pc.At? && (env.pc.stage.Connect? || env.pc.stage.DelConnect?)
      requires WellDialed(env.notes, bootstrapServers, sasl) && SawReady(env.notes)
      modifies env
      ensures env.Valid() && env.Since(old(env.before), old(env.begun), old(env.deaths), r.Dead?)
      ensures env.notes == old(env.notes).(dial := Some(Dial(bootstrapServers, sasl)))
      ensures r.Dead? ==> env.pc.Idle?
      ensures r.Alive? ==>
        env.pc == AfterLook(env.cfg, old(env.pc), env.State().entity, Call(if r.value.Some? then Ok else Failed))
      ensures r.Alive? && r.value.Some? ==> fresh(r.value.value) && r.value.value.env == env
    {
      var ok :- env.Connect(bootstrapServers, sasl);
      if !ok {
        return Alive(None);
      }
      var client := new Client(env);
      return Alive(Some(client));
    }

    /** Lists all topics; false if that fails. */
    method CheckHealth() returns (r: Survival<bool>)
      requires env.Valid() && env.pc.At? && env.pc.stage.Health?
      modifies env
      ensures env.Valid() && env.Since(old(env.before), old(env.begun), old(env.deaths), r.Dead?)
      ensures env.notes == old(env.notes)
      ensures r.Dead? ==> env.pc.Idle?
      ensures r.Alive? ==>
        env.pc == AfterLook(env.cfg, old(env.pc), env.State().entity, Call(if r.value then Ok else Failed))
    {
      r := env.ListAllTopics();
    }

    // ------------------------------------------------------------ topics

    /** Looks for the topic, and reports its size. */
    method TopicExists(topicName: string) returns (r: Survival<Existence>)
      requires env.Valid() && env.pc.At? && env.pc.stage.Exists? && env.cfg.key.entry == TopicEntry(topicName)
      modifies env
      ensures env.Valid() && env.Since(old(env.before), old(env.begun), old(env.deaths), r.Dead?)
      ensures env.notes == old(env.notes)
      ensures r.Dead? ==> env.pc.Idle?
      ensures r.Alive? ==>
        env.pc == AfterLook(env.cfg, old(env.pc), env.State().entity, Call(if r.value.CheckFailed? then Failed else Ok))
      ensures r.Alive? && r.value.Absent? ==> !(env.State().entity.Some? && env.State().entity.value.Topic?)
      ensures r.Alive? && r.value.Present? ==> Reports(r.value.info, env.State().entity)
    {
      var topics :- env.ListTopics(topicName);
      if topics.None? {
        return Alive(CheckFailed);
      }
      if |topics.value| == 0 {
        return Alive(Absent);
      }
      if topicName !in topics.value {
        return Alive(Absent);
      }
      var partitions := topics.value[topicName];
      if |partitions| == 0 {
        return Alive(Absent);
      }
      var info := TopicInfo(topicName, |partitions|, 0);
      if |partitions| > 0 {
        info := info.(replicationFactor := ToInt16(partitions[0]));
      }
      return Alive(Present(info));
    }

    /** Creates the topic, with a count of zero raised to one. */
    method CreateTopic(config: TopicConfig) returns (r: Survival<bool>)
      requires env.Valid() && Writing(env.pc) && env.pc.stage.Create?
      requires env.cfg.key.entry == TopicEntry(config.name)
      requires var s := env.pc.obj.spec;
        && config.partitions == s.partitions && config.replicationFactor == ToInt16(s.replicationFactor)
        && config.config == s.config
      modifies env
      ensures env.Valid() && env.Since(old(env.before), old(env.begun), old(env.deaths), r.Dead?)
      ensures env.notes == old(env.notes)
      ensures r.Dead? ==> env.pc.Idle?
      ensures r.Alive? ==> env.pc == AfterWrite(env.cfg, old(env.pc), r.value)
    {
      var partitions := config.partitions;
      if partitions == 0 {
        partitions := 1;
      }
      var replicationFactor := config.replicationFactor;
      if replicationFactor == 0 {
        replicationFactor := 1;
      }

      // the map is walked in an arbitrary order
      var configs: map<string, string> := map[];
      var keys := config.config.Keys;
      while keys != {}
        invariant keys <= config.config.Keys
        invariant configs == map k | k in config.config && k !in keys :: config.config[k]
        decreases keys
      {
        var k :| k in keys;
        configs := configs[k := config.config[k]];
        keys := keys - {k};
      }
      assert configs == config.config;

      var resp :- env.Send(TopicEntry(config.name), Request.CreateTopic(partitions, replicationFactor, configs));
      if resp.CallFailed? {
        return Alive(false);
      }
      for i := 0 to |resp.errors|
        invariant forall j :: 0 <= j < i ==> resp.errors[j].None?
      {
        if resp.errors[i].Some? {
          assert Matters(Request.CreateTopic(partitions, replicationFactor, configs),
                         env.cfg.key.entry, resp.errors[i]);
          return Alive(false);
        }
      }
      return Alive(true);
    }

    /** The first call of an update, where one is needed. */
    method IncreasePartitions(topicName: string, total: Int32) returns (r: Survival<bool>)
      requires env.Valid() && Writing(env.pc) && env.pc.stage.Grow? && env.cfg.key.entry == TopicEntry(topicName)
      requires total == DesiredPartitions(env.pc.obj.spec)
      modifies env
      ensures env.Valid() && env.Since(old(env.before), old(env.begun), old(env.deaths), r.Dead?)
      ensures env.notes == old(env.notes)
      ensures r.Dead? ==> env.pc.Idle?
      ensures r.Alive? ==> env.pc == AfterWrite(env.cfg, old(env.pc), r.value)
    {
      var resp :- env.Send(TopicEntry(topicName), MorePartitions(total));
      if resp.CallFailed? {
        return Alive(false);
      }
      for i := 0 to |resp.errors|
        invariant forall j :: 0 <= j < i ==> resp.errors[j].None?
      {
        if resp.errors[i].Some? {
          assert Matters(MorePartitions(total), env.cfg.key.entry, resp.errors[i]);
          return Alive(false);
        }
      }
      return Alive(true);
    }

    /** The second call of an update, where one is needed. */
    method AlterConfigs(topicName: string, config: map<string, string>) returns (r: Survival<bool>)
      requires env.Valid() && Writing(env.pc) && env.pc.stage.Alter? && env.cfg.key.entry == TopicEntry(topicName)
      requires config == env.pc.obj.spec.config
      modifies env
      ensures env.Valid() && env.Since(old(env.before), old(env.begun), old(env.deaths), r.Dead?)
      ensures env.notes == old(env.notes)
      ensures r.Dead? ==> env.pc.Idle?
      ensures r.Alive? ==> env.pc == AfterWrite(env.cfg, old(env.pc), r.value)
    {
      var configs := ListConfigs(config);
      var resp :- env.AlterTopicConfigs(configs, topicName);
      if resp.CallFailed? {
        return Alive(false);
      }
      for i := 0 to |resp.errors|
        invariant forall j :: 0 <= j < i ==> resp.errors[j].None?
      {
        if resp.errors[i].Some? {
          assert Matters(SetConfigs(map[]), env.cfg.key.entry, resp.errors[i]);
          return Alive(false);
        }
      }
      return Alive(true);
    }

    /** Brings an existing topic of the reported size to the desired one, as far as that is possible, and
        then sets its configuration; stops at the first call that fails. */
    method UpdateTopic(topicName: string, desired: Int32, desiredReplicas: Int16, currentInfo: TopicInfo,
                       config: map<string, string>, ghost before: PC) returns (r: Survival<bool>)
      requires env.Valid() && env.cfg.key.entry == TopicEntry(topicName)
      requires before.At? && before.stage.Exists? && before.obj.spec.TopicSpec? && before.obj.spec.assumeOwnership
      requires Reports(currentInfo, env.State().entity)
      requires env.pc == AfterExists(env.cfg, before, env.State().entity)
      requires desired == before.obj.spec.partitions && desiredReplicas == DesiredReplication(before.obj.spec)
      requires config == before.obj.spec.config
      modifies env
      ensures env.Valid() && env.Since(old(env.before), old(env.begun), old(env.deaths), r.Dead?)
      ensures env.notes == old(env.notes)
      ensures r.Dead? ==> env.pc.Idle?
      ensures r.Alive? ==> env.pc == if r.value then Succeed(env.cfg, before) else Abort(before)
    {
      if currentInfo.replicationFactor != desiredReplicas {
        return Alive(false);
      }

      var desiredPartitions := desired;
      if desiredPartitions == 0 {
        desiredPartitions := 1;
      }

      if desiredPartitions > currentInfo.partitions {
        var ok :- IncreasePartitions(topicName, desiredPartitions);
        if !ok {
          return Alive(false);
        }
      } else if desiredPartitions < currentInfo.partitions {
        return Alive(false);
      }

      if |config| > 0 {
        var ok :- AlterConfigs(topicName, config);
        if !ok {
          return Alive(false);
        }
      }
      return Alive(true);
    }

    /** Deletes the topic; a topic that is not there counts as deleted. */
    method DeleteTopic(topicName: string) returns (r: Survival<bool>)
      requires env.Valid() && Writing(env.pc) && env.pc.stage.DelRemove? && env.cfg.key.entry == TopicEntry(topicName)
      modifies env
      ensures env.Valid() && env.Since(old(env.before), old(env.begun), old(env.deaths), r.Dead?)
      ensures env.notes == old(env.notes)
      ensures r.Dead? ==> env.pc.Idle?
      ensures r.Alive? ==> env.pc == AfterWrite(env.cfg, old(env.pc), r.value)
    {
      var resp :- env.Send(TopicEntry(topicName), Remove);
      if resp.CallFailed? {
        return Alive(false);
      }
      for i := 0 to |resp.errors|
        invariant forall j :: 0 <= j < i ==> !Matters(Remove, env.cfg.key.entry, resp.errors[j])
      {
        if resp.errors[i].Some? {
          var errStr := resp.errors[i].value;
          if errStr == "UNKNOWN_TOPIC_OR_PARTITION" || errStr == "UNKNOWN_TOPIC" {
            continue;
          }
          return Alive(false);
        }
      }
      return Alive(true);
    }

    // ------------------------------------------------------------ credentials

    /** Stores the credential under the user's name and mechanism. */
    method UpsertUserCredentials(creds: UserCredentials) returns (r: Survival<bool>)
      requires env.Valid() && Writing(env.pc) && env.pc.stage.Upsert? && env.pc.obj.spec.UserSpec?
      requires env.cfg.key.entry == CredentialEntry(creds.username, MechanismNumbered(creds.mechanism))
      requires creds.password == env.pc.secret
      requires DesiredIterations(env.pc.obj.spec) == if creds.iterations == 0 then 4096 else creds.iterations
      modifies env
      ensures env.Valid() && env.Since(old(env.before), old(env.begun), old(env.deaths), r.Dead?)
      ensures env.notes == old(env.notes)
      ensures r.Dead? ==> env.pc.Idle?
      ensures r.Alive? ==> env.pc == AfterWrite(env.cfg, old(env.pc), r.value)
    {
      var iterations := creds.iterations;
      if iterations == 0 {
        iterations := 4096;
      }
      var mechanism;
      if creds.mechanism == SCRAM_SHA_256 {
        mechanism := ScramSha256;
      } else {
        mechanism := ScramSha512;
      }
      var resp :- env.Send(CredentialEntry(creds.username, mechanism), Put(Credential(creds.password, iterations)));
      if resp.CallFailed? {
        return Alive(false);
      }
      for i := 0 to |resp.errors|
        invariant forall j :: 0 <= j < i ==> resp.errors[j].None?
      {
        if resp.errors[i].Some? {
          assert Matters(Put(Credential(creds.password, iterations)), env.cfg.key.entry, resp.errors[i]);
          return Alive(false);
        }
      }
      return Alive(true);
    }

    /** Deletes the credential of that name and mechanism; a missing one counts as deleted. */
    method DeleteUserCredentials(username: string, mechanism: int) returns (r: Survival<bool>)
      requires env.Valid() && Writing(env.pc) && env.pc.stage.DelRemove?
      requires env.cfg.key.entry == CredentialEntry(username, MechanismNumbered(mechanism))
      modifies env
      ensures env.Valid() && env.Since(old(env.before), old(env.begun), old(env.deaths), r.Dead?)
      ensures env.notes == old(env.notes)
      ensures r.Dead? ==> env.pc.Idle?
      ensures r.Alive? ==> env.pc == AfterWrite(env.cfg, old(env.pc), r.value)
    {
      var kadmMechanism;
      if mechanism == SCRAM_SHA_256 {
        kadmMechanism := ScramSha256;
      } else {
        kadmMechanism := ScramSha512;
      }
      var resp :- env.Send(CredentialEntry(username, kadmMechanism), Remove);
      if resp.CallFailed? {
        return Alive(false);
      }
      for i := 0 to |resp.errors|
        invariant forall j :: 0 <= j < i ==> !Matters(Remove, env.cfg.key.entry, resp.errors[j])
      {
        if resp.errors[i].Some? {
          if resp.errors[i].value == "RESOURCE_NOT_FOUND" {
            continue;
          }
          return Alive(false);
        }
      }
      return Alive(true);
    }

    // ------------------------------------------------------------ access rules

    /** Creates the rule. */
    method CreateAcl(config: AclConfig) returns (r: Survival<bool>)
      requires env.Valid() && Writing(env.pc) && env.pc.stage.Upsert?
      requires env.pc.obj.spec.AclSpec? && Represents(config, env.pc.obj.spec)
      requires env.cfg.key.entry == AclEntry(BindingOf(env.pc.obj.spec))
      modifies env
      ensures env.Valid() && env.Since(old(env.before), old(env.begun), old(env.deaths), r.Dead?)
      ensures env.notes == old(env.notes)
      ensures r.Dead? ==> env.pc.Idle?
      ensures r.Alive? ==> env.pc == AfterWrite(env.cfg, old(env.pc), r.value)
    {
      var host := config.host;
      if host == "" {
        host := "*";
      }
      var acl := BuildAcl(config, host, env.pc.obj.spec);
      var resp :- env.Send(AclEntry(acl), Put(Rule));
      if resp.CallFailed? {
        return Alive(false);
      }
      for i := 0 to |resp.errors|
        invariant forall j :: 0 <= j < i ==> resp.errors[j].None?
      {
        if resp.errors[i].Some? {
          assert Matters(Put(Rule), env.cfg.key.entry, resp.errors[i]);
          return Alive(false);
        }
      }
      return Alive(true);
    }

    /** Deletes the rule; a missing one counts as deleted. */
    method DeleteAcl(config: AclConfig) returns (r: Survival<bool>)
      requires env.Valid() && Writing(env.pc) && env.pc.stage.DelRemove?
      requires env.pc.obj.spec.AclSpec? && Represents(config, env.pc.obj.spec)
      requires env.cfg.key.entry == AclEntry(BindingOf(env.pc.obj.spec))
      modifies env
      ensures env.Valid() && env.Since(old(env.before), old(env.begun), old(env.deaths), r.Dead?)
      ensures env.notes == old(env.notes)
      ensures r.Dead? ==> env.pc.Idle?
      ensures r.Alive? ==> env.pc == AfterWrite(env.cfg, old(env.pc), r.value)
    {
      var host := config.host;
      if host == "" {
        host := "*";
      }
      var acl := BuildAcl(config, host, env.pc.obj.spec);
      var resp :- env.Send(AclEntry(acl), Remove);
      if resp.CallFailed? {
        return Alive(false);
      }
      for i := 0 to |resp.errors|
        invariant forall j :: 0 <= j < i ==> !Matters(Remove, env.cfg.key.entry, resp.errors[j])
      {
        if resp.errors[i].Some? {
          if resp.errors[i].value == "RESOURCE_NOT_FOUND" {
            continue;
          }
          return Alive(false);
        }
      }
      return Alive(true);
    }
  }

  ghost predicate Reports(info: TopicInfo, e: Option<Entity>) {
    e.Some? && e.value.Topic? && info.partitions == e.value.partitions && info.replicationFactor == e.value.replication
  }

  /** The broker's mechanism for the library's number. */
  function MechanismNumbered(m: int): Mechanism {
    if m == SCRAM_SHA_256 then ScramSha256 else ScramSha512
  }

  /** The list of changes for a configuration, in whatever order the map is walked. */
  method ListConfigs(config: map<string, string>) returns (configs: seq<AlterConfig>)
    ensures Lists(configs, config)
    ensures |configs| == |config|
  {
    configs := [];
    var keys := config.Keys;
    while keys != {}
      invariant keys <= config.Keys
      invariant forall i :: 0 <= i < |configs| ==>
        configs[i].name in config && configs[i].value == config[configs[i].name]
      invariant forall k :: k in config && k !in keys ==> exists i :: 0 <= i < |configs| && configs[i].name == k
      invariant |configs| + |keys| == |config.Keys|
      decreases keys
    {
      var k :| k in keys;
      ghost var before := configs;
      configs := configs + [AlterConfig(k, config[k])];
      keys := keys - {k};
      assert configs[|before|].name == k;
      forall k' | k' in config && k' !in keys ensures exists i :: 0 <= i < |configs| && configs[i].name == k' {
        if k' != k {
          var i :| 0 <= i < |before| && before[i].name == k';
          assert configs[i].name == k';
        }
      }
    }
  }
}
