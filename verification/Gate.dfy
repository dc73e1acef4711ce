/**
 Gated writes. Every run leaves a trace of what the worker saw and asked for. An auditor who knows
 nothing of the worker's state reads the trace, and finds every request to the broker cleared: in the
 same reconcile the worker has read a version of the object that asks for just this, then the Cluster as
 ready, has got the administrator's credentials and connected; for a topic it has then found the broker
 healthy and looked for the topic; and a credential carries what the Secret read in that reconcile holds
 under the key that the spec names.
 */
module Gate {
  import opened Api
  import opened Broker
  import opened Protocol
  import opened Invariant

  datatype Event =
    | ReadObject(version: Object)
    | ReadCluster(conditions: seq<Condition>)
    | GotCredentials
    | ReadSecret(data: Option<map<string, string>>)
    | Connected
    | Healthy
    | Looked(found: Option<Entity>)
    | Requested(request: Request)
    | Crashed
    | Nothing

  function EventOf(s: Sys, ch: Choice): Event {
    if ch.Crash? then Crashed
    else if ch.Read? then
      if s.pc.Idle? && s.seen <= ch.version < |s.history| && s.history[ch.version].Some?
      then ReadObject(s.history[ch.version].value) else Nothing
    else if s.pc.Idle? then Nothing
    else match ch
      case ClusterIs(Some(conditions)) =>
        if s.pc.stage.DelCluster? || s.pc.stage.GateCluster? then ReadCluster(conditions) else Nothing
      case SecretIs(data) => if s.pc.stage.Password? then ReadSecret(data) else Nothing
      case Call(out) => if Writing(s.pc) then Requested(RequestOf(s.pc)) else if out.Ok? then Learned(s) else Nothing
      case _ => Nothing
  }

  /** The answer to a call that only looks. */
  function Learned(s: Sys): Event
    requires s.pc.At?
  {
    match s.pc.stage
    case DelCredentials | Credentials => GotCredentials
    case DelConnect | Connect => Connected
    case Health => Healthy
    case Exists => Looked(s.entity)
    case _ => Nothing
  }

  function Trace(c: Config, s: Sys, cs: seq<Choice>): seq<Event> {
    if cs == [] then []
    else Trace(c, s, cs[..|cs| - 1]) + [EventOf(Run(c, s, cs[..|cs| - 1]), cs[|cs| - 1])]
  }

  // ---------------------------------------------------------------- the auditor

  /** What the current reconcile has seen so far. */
  datatype Ledger = Ledger(version: Option<Object>, ready: bool, credentials: bool,
                           secret: Option<map<string, string>>, connected: bool, healthy: bool,
                           looked: Option<Option<Entity>>)

  const BLANK := Ledger(None, false, false, None, false, false, None)

  function Note(l: Ledger, e: Event): Ledger {
    match e
    case ReadObject(o) => BLANK.(version := Some(o))
    case ReadCluster(conditions) =>
      var ready := FindStatusCondition(conditions, Ready);
      l.(ready := l.version.Some? && ready.Some? && ready.value.status)
    case GotCredentials => l.(credentials := l.ready)
    case ReadSecret(data) => l.(secret := if l.credentials then data else None)
    case Connected => l.(connected := l.credentials)
    case Healthy => l.(healthy := l.connected)
    case Looked(found) => l.(looked := if l.healthy then Some(found) else None)
    case Crashed => BLANK
    case _ => l
  }

  function Audit(trace: seq<Event>): Ledger {
    if trace == [] then BLANK
    else Note(Audit(trace[..|trace| - 1]), trace[|trace| - 1])
  }

  /** A request that the ledger entitles the worker to: removal for a dying object, everything else for
      a live one as its spec asks for it, each only while the finalizer is stored. */
  ghost predicate Cleared(c: Config, l: Ledger, r: Request) {
    && l.version.Some? && l.ready && l.credentials && l.connected
    && (match c.key.entry
        case TopicEntry(_) => "bufstream.buf.build/topic-finalizer"
        case CredentialEntry(_, _) => "bufstream.buf.build/user-finalizer"
        case AclEntry(_) => "bufstream.buf.build/acl-finalizer") in l.version.value.finalizers
    && l.version.value.deleting == r.Remove?
    && (r.Remove? || Asked(l, l.version.value.spec, r))
  }

  /** The spec asks for the request, given what the worker has found. */
  ghost predicate Asked(l: Ledger, s: Spec, r: Request) {
    match r
    case CreateTopic(partitions, replication, config) =>
      && s.TopicSpec? && l.healthy && l.looked.Some? && (l.looked.value.Some? ==> !l.looked.value.value.Topic?)
      && partitions == (if s.partitions == 0 then 1 else s.partitions) && config == s.config
      && (if s.replicationFactor % 0x1_0000 == 0 then replication == 1
          else (replication - s.replicationFactor) % 0x1_0000 == 0)
    case MorePartitions(argument) =>
      && s.TopicSpec? && MayUpdate(l, s)
      && argument == (if s.partitions == 0 then 1 else s.partitions) && l.looked.value.value.partitions < argument
    case SetConfigs(config) => s.TopicSpec? && MayUpdate(l, s) && config == s.config && config != map[]
    case Put(Credential(password, iterations)) =>
      && s.UserSpec? && l.secret.Some?
      && (if s.secretKey == "" then "password" else s.secretKey) in l.secret.value
      && password == l.secret.value[if s.secretKey == "" then "password" else s.secretKey]
      && iterations == (if s.iterations == 0 then 4096 else s.iterations)
    case Put(Rule) => s.AclSpec?
    case _ => false
  }

  /** The worker has found a topic that it may bring to the spec. */
  ghost predicate MayUpdate(l: Ledger, s: Spec)
    requires s.TopicSpec?
  {
    && s.assumeOwnership && l.healthy
    && l.looked.Some? && l.looked.value.Some? && l.looked.value.value.Topic?
    && l.looked.value.value.partitions <= (if s.partitions == 0 then 1 else s.partitions)
    && l.looked.value.value.replication == DesiredReplication(s)
  }

  // ---------------------------------------------------------------- the worker keeps to the ledger

  predicate PastGate(stage: Stage) {
    match stage
    case AddFinalizer | DelCluster | GateCluster | DropFinalizer | Commit => false
    case _ => true
  }

  predicate PastCredentials(stage: Stage) {
    PastGate(stage) && !stage.DelCredentials? && !stage.Credentials?
  }

  predicate PastConnect(stage: Stage) {
    PastCredentials(stage) && !stage.DelConnect? && !stage.Password? && !stage.Connect?
  }

  ghost predicate InStep(c: Config, s: Sys, l: Ledger) {
    s.pc.At? ==>
      && s.seen < |s.history| && l.version == s.history[s.seen] && l.version.Some?
      && s.pc.obj.spec == l.version.value.spec
      && (PastGate(s.pc.stage) ==> l.ready)
      && (PastCredentials(s.pc.stage) ==> l.credentials)
      && (PastConnect(s.pc.stage) ==> l.connected)
      && Prepared(s.pc, l)
  }

  /** What the stages of the three kinds rely on. */
  ghost predicate Prepared(pc: PC, l: Ledger)
    requires pc.At?
  {
    match pc.stage
    case Connect | Upsert => pc.obj.spec.UserSpec? ==> PasswordIn(pc.obj.spec, l.secret) == Some(pc.secret)
    case Exists => l.healthy
    case Create => l.healthy && l.looked.Some? && (l.looked.value.Some? ==> !l.looked.value.value.Topic?)
    case Grow =>
      pc.obj.spec.TopicSpec? ==>
        MayUpdate(l, pc.obj.spec) && l.looked.value.value.partitions < DesiredPartitions(pc.obj.spec)
    case Alter => pc.obj.spec.TopicSpec? ==> MayUpdate(l, pc.obj.spec) && pc.obj.spec.config != map[]
    case _ => true
  }

  lemma InStepCluster(c: Config, s: Sys, l: Ledger, ch: Choice)
    requires InStep(c, s, l) && Reading(s.pc) && ch.ClusterIs?
    ensures InStep(c, Step(c, s, ch), Note(l, EventOf(s, ch)))
  {
  }

  lemma InStepSecret(c: Config, s: Sys, l: Ledger, ch: Choice)
    requires InStep(c, s, l) && Reading(s.pc) && ch.SecretIs?
    ensures InStep(c, Step(c, s, ch), Note(l, EventOf(s, ch)))
  {
  }

  lemma InStepCall(c: Config, s: Sys, l: Ledger, ch: Choice)
    requires InStep(c, s, l) && Reading(s.pc) && ch.Call?
    ensures InStep(c, Step(c, s, ch), Note(l, EventOf(s, ch)))
  {
  }

  lemma InStepBroker(c: Config, s: Sys, l: Ledger, ch: Choice)
    requires InStep(c, s, l) && Writing(s.pc) && ch.Call?
    ensures InStep(c, Step(c, s, ch), Note(l, EventOf(s, ch)))
  {
    assert PastGate(s.pc.stage) && PastConnect(s.pc.stage);
  }

  lemma InStepEnv(c: Config, s: Sys, l: Ledger, ch: Choice)
    requires InStep(c, s, l) && IsEnv(ch)
    ensures InStep(c, Step(c, s, ch), Note(l, EventOf(s, ch)))
  {
    assert s.history <= StepEnv(c, s, ch).history;
  }

  lemma InStepRead(c: Config, s: Sys, l: Ledger, ch: Choice)
    requires InStep(c, s, l) && ch.Read?
    ensures InStep(c, Step(c, s, ch), Note(l, EventOf(s, ch)))
  {
  }

  /** A crash or a write to the API server ends the reconcile, and anything else is no step at all. */
  lemma InStepEnd(c: Config, s: Sys, l: Ledger, ch: Choice)
    requires InStep(c, s, l) && !IsEnv(ch) && !ch.Read? && !(ch.Call? && Writing(s.pc))
    requires ch.Crash? || !Reading(s.pc)
    ensures InStep(c, Step(c, s, ch), Note(l, EventOf(s, ch)))
  {
  }

  lemma InStepStep(c: Config, s: Sys, l: Ledger, ch: Choice)
    requires InStep(c, s, l)
    ensures InStep(c, Step(c, s, ch), Note(l, EventOf(s, ch)))
  {
    if IsEnv(ch) {
      InStepEnv(c, s, l, ch);
    } else if ch.Read? {
      InStepRead(c, s, l, ch);
    } else if ch.Call? && Writing(s.pc) {
      InStepBroker(c, s, l, ch);
    } else if ch.Crash? || !Reading(s.pc) {
      InStepEnd(c, s, l, ch);
    } else if ch.ClusterIs? {
      InStepCluster(c, s, l, ch);
    } else if ch.SecretIs? {
      InStepSecret(c, s, l, ch);
    } else {
      InStepCall(c, s, l, ch);
    }
  }

  lemma {:induction false} InStepRun(c: Config, s: Sys, cs: seq<Choice>)
    requires Initial(c, s)
    ensures Sane(c, Run(c, s, cs)) && InStep(c, Run(c, s, cs), Audit(Trace(c, s, cs)))
  {
    SaneRun(c, s, cs);
    if cs != [] {
      var front := cs[..|cs| - 1];
      InStepRun(c, s, front);
      InStepStep(c, Run(c, s, front), Audit(Trace(c, s, front)), cs[|cs| - 1]);
      assert Trace(c, s, cs)[..|cs| - 1] == Trace(c, s, front) by { TraceLength(c, s, front); }
      TraceLength(c, s, cs);
    }
  }

  lemma {:induction false} TraceLength(c: Config, s: Sys, cs: seq<Choice>)
    ensures |Trace(c, s, cs)| == |cs|
  {
    if cs != [] {
      TraceLength(c, s, cs[..|cs| - 1]);
    }
  }

  /** What the worker asks for is what the spec asks for. */
  lemma RequestIsAsked(pc: PC, l: Ledger)
    requires Writing(pc) && !pc.stage.DelRemove? && Prepared(pc, l)
    requires pc.stage.Upsert? ==> !pc.obj.spec.TopicSpec?
    ensures Asked(l, pc.obj.spec, RequestOf(pc))
  {
  }

  lemma RequestIsCleared(c: Config, s: Sys, l: Ledger)
    requires Sane(c, s) && InStep(c, s, l) && Writing(s.pc)
    ensures Cleared(c, l, RequestOf(s.pc))
  {
    if !s.pc.stage.DelRemove? {
      RequestIsAsked(s.pc, l);
    }
  }

  /** In every run, every request to the broker is cleared by what the same reconcile saw before. */
  lemma {:induction false} GatedWrites(c: Config, init: Sys, cs: seq<Choice>, ch: Choice)
    requires Initial(c, init)
    requires EventOf(Run(c, init, cs), ch).Requested?
    ensures Cleared(c, Audit(Trace(c, init, cs)), EventOf(Run(c, init, cs), ch).request)
  {
    InStepRun(c, init, cs);
    RequestIsCleared(c, Run(c, init, cs), Audit(Trace(c, init, cs)));
  }

  /** And nothing but a request, or somebody else, ever changes the broker's entry. */
  lemma OnlyRequestsChangeTheBroker(c: Config, s: Sys, ch: Choice)
    requires Step(c, s, ch).entity != s.entity
    ensures EventOf(s, ch).Requested? || ch.ForeignCreate? || ch.ForeignChange?
  {
  }
}
