/**
 The reconcile protocol of one object, as a state machine over its external calls.

 One step is one call to the API server or to the broker with its outcome, one crash of the
 worker, or one act of the environment, so that anything may happen between any two calls. The
 three reconcilers (Topic, User, ACL) run the same protocol and differ in the middle stages; the
 modules of the three reconcilers show that each only produces runs of this machine.
 */
module Protocol {
  import opened Api
  import opened Broker

  /** What never changes in a run: the entry the object stands for, the object's name and namespace, and the
      broker with its library. */
  datatype Config = Config(key: Key, namespace: string, name: string, service: Service)

  function Finalizer(c: Config): string {
    match c.key.entry
    case TopicEntry(_) => "bufstream.buf.build/topic-finalizer"
    case CredentialEntry(_, _) => "bufstream.buf.build/user-finalizer"
    case AclEntry(_) => "bufstream.buf.build/acl-finalizer"
  }

  /** The calls of a reconcile, in the order of the code. */
  datatype Stage =
    | AddFinalizer
    | DelCluster | DelCredentials | DelConnect | DelRemove | DropFinalizer
    | GateCluster | Credentials | Password | Connect | Health | Exists
    | Create | Grow | Alter | Upsert
    | Commit

  predicate Deleting(stage: Stage) {
    stage.DelCluster? || stage.DelCredentials? || stage.DelConnect? || stage.DelRemove? || stage.DropFinalizer?
  }

  /** Where the worker stands: the call it is about to make, its own copy of the object, and the
      password it has read (User only). */
  datatype PC = Idle | At(stage: Stage, obj: Object, secret: string)

  datatype Sys = Sys(
    history: History,        // what the API server has stored
    seen: nat,               // the newest version any read has returned: reads never go backwards
    entity: Option<Entity>,  // the broker's entry for the key
    mine: bool,              // history variable: the operator has written the present entry
    pc: PC)

  datatype Outcome = Ok | Lost | Failed  // Lost: the call took effect, but an error came back

  datatype Choice =
    // the environment
    | EnvCreate(spec: Spec, finalizers: set<string>)
    | EnvEdit(spec: Spec)
    | EnvDelete
    | EnvFinalizers(finalizers: set<string>)
    | ForeignCreate(entity: Entity)            // somebody else creates the entry
    | ForeignChange(after: Option<Entity>)     // somebody else changes or removes it
    // the worker
    | Crash
    | Read(version: nat)
    | ClusterIs(view: Option<seq<Condition>>)  // the Cluster's conditions, or a failed read
    | SecretIs(data: Option<map<string, string>>)   // the data of a User's Secret, or a failed read
    | Call(outcome: Outcome)

  predicate IsEnv(ch: Choice) {
    ch.EnvCreate? || ch.EnvEdit? || ch.EnvDelete? || ch.EnvFinalizers? || ch.ForeignCreate? || ch.ForeignChange?
  }

  // ---------------------------------------------------------------- the worker's own copy

  function SetCondition(o: Object, t: ConditionType, b: bool): Object {
    o.(status := o.status.(conditions := SetStatusCondition(o.status.conditions, Condition(t, b, o.generation))))
  }

  function Progress(o: Object): Object { SetCondition(o, Progressing, true) }

  function Fail(o: Object): Object { SetCondition(SetCondition(o, Degraded, true), Ready, false) }

  function DetailOf(c: Config, s: Spec): Detail {
    match s
    case TopicSpec(_, _, _, _, _, _) => TopicDetail(OrName(s.topicName, c.name), s.partitions, s.replicationFactor)
    case UserSpec(_, _, _, _, _, _) =>
      UserDetail(OrName(s.username, c.name), if s.mechanism == "" then "SCRAM-SHA-512" else s.mechanism)
    case AclSpec(_, _, _, _, _, _) => NoDetail
  }

  function Success(c: Config, o: Object): Object {
    var o1 := o.(status := o.status.(observedGeneration := o.generation,
                                     detail := if o.spec.AclSpec? then o.status.detail else DetailOf(c, o.spec)));
    var o2 := if o.spec.AclSpec? then SetCondition(SetCondition(o1, Progressing, false), Degraded, false)
              else SetCondition(SetCondition(o1, Degraded, false), Progressing, false);
    SetCondition(o2, Ready, true)
  }

  predicate IsClusterReady(conditions: seq<Condition>) { IsTrue(conditions, Ready) }

  // ---------------------------------------------------------------- the worker's steps

  /** After a successful read of `o`. */
  function Dispatch(c: Config, o: Object): PC {
    if o.deleting then
      if Finalizer(c) in o.finalizers then At(DelCluster, o, "") else Idle
    else if Finalizer(c) !in o.finalizers then
      At(AddFinalizer, o.(finalizers := o.finalizers + {Finalizer(c)}), "")
    else if ReadyNow(o) then Idle
    else At(GateCluster, o, "")
  }

  function Proceed(pc: PC, next: Stage): PC
    requires pc.At?
  {
    pc.(stage := next)
  }

  function Abort(pc: PC): PC
    requires pc.At?
  {
    if Deleting(pc.stage) then Idle
    else At(Commit, Fail(pc.obj), "")
  }

  function Succeed(c: Config, pc: PC): PC
    requires pc.At?
  {
    At(Commit, Success(c, pc.obj), "")
  }

  /** The configuration call of an update is made only if there is configuration. */
  function AfterGrow(c: Config, pc: PC): PC
    requires pc.At? && pc.obj.spec.TopicSpec?
  {
    if pc.obj.spec.config == map[] then Succeed(c, pc) else Proceed(pc, Alter)
  }

  /** A User's password: what its Secret holds under the key it names, or under "password". */
  function PasswordIn(s: Spec, data: Option<map<string, string>>): Option<string> {
    if !s.UserSpec? || data.None? then None
    else Lookup(data.value, if s.secretKey == "" then "password" else s.secretKey)
  }

  /** The existence check has answered `e`. */
  function AfterExists(c: Config, pc: PC, e: Option<Entity>): PC
    requires pc.At? && pc.obj.spec.TopicSpec?
  {
    var spec := pc.obj.spec;
    if e.None? || !e.value.Topic? then Proceed(pc, Create)
    else if !spec.assumeOwnership then Abort(pc)
    else if e.value.replication != DesiredReplication(spec) then Abort(pc)
    else if DesiredPartitions(spec) > e.value.partitions then Proceed(pc, Grow)
    else if DesiredPartitions(spec) < e.value.partitions then Abort(pc)
    else AfterGrow(c, pc)
  }

  predicate Reading(pc: PC) {
    pc.At? && !Storing(pc) && match pc.stage
      case DelRemove | Create | Grow | Alter | Upsert => false
      case _ => true
  }

  /** After a successful call that changes nothing outside. */
  function AfterGoodCall(c: Config, pc: PC, e: Option<Entity>): PC
    requires Reading(pc)
  {
    match pc.stage
    case DelCredentials => Proceed(pc, DelConnect)
    case DelConnect => Proceed(pc, DelRemove)
    case Credentials => Proceed(pc, if pc.obj.spec.UserSpec? then Password else Connect)
    case Connect => Proceed(pc, if pc.obj.spec.TopicSpec? then Health else Upsert)
    case Health => Proceed(pc, Exists)
    case Exists => if pc.obj.spec.TopicSpec? then AfterExists(c, pc, e) else Idle
    case _ => Idle
  }

  /** The stages that only look: the worker's next place. */
  function AfterLook(c: Config, pc: PC, e: Option<Entity>, ch: Choice): PC
    requires Reading(pc)
  {
    match pc.stage
    case DelCluster =>
      if !ch.ClusterIs? then pc
      else if ch.view.Some? && IsClusterReady(ch.view.value) then Proceed(pc, DelCredentials) else Idle
    case GateCluster =>
      if !ch.ClusterIs? then pc
      else if ch.view.None? then Abort(pc)
      else if !IsClusterReady(ch.view.value) then Idle
      else At(Credentials, Progress(pc.obj), "")
    case Password =>
      if !ch.SecretIs? then pc
      else if PasswordIn(pc.obj.spec, ch.data).None? then Abort(pc)
      else At(Connect, pc.obj, PasswordIn(pc.obj.spec, ch.data).value)
    case _ =>
      if !ch.Call? then pc
      else if !ch.outcome.Ok? then Abort(pc)
      else AfterGoodCall(c, pc, e)
  }

  predicate Writing(pc: PC) {
    pc.At? && match pc.stage
      case DelRemove | Upsert => true
      case Create | Grow | Alter => pc.obj.spec.TopicSpec?
      case _ => false
  }

  /** The entity that an upsert stores. */
  function Desired(s: Spec, secret: string): Entity {
    if s.UserSpec? then Credential(secret, DesiredIterations(s)) else Rule
  }

  function RequestOf(pc: PC): Request
    requires Writing(pc)
  {
    match pc.stage
    case Create => CreateTopic(DesiredPartitions(pc.obj.spec), DesiredReplication(pc.obj.spec), pc.obj.spec.config)
    case Grow => MorePartitions(DesiredPartitions(pc.obj.spec))
    case Alter => SetConfigs(pc.obj.spec.config)
    case Upsert => Put(Desired(pc.obj.spec, pc.secret))
    case DelRemove => Remove
  }

  function AfterWrite(c: Config, pc: PC, ok: bool): PC
    requires Writing(pc)
  {
    if !ok then Abort(pc)
    else if pc.stage == DelRemove then
      At(DropFinalizer, pc.obj.(finalizers := pc.obj.finalizers - {Finalizer(c)}), "")
    else if pc.stage == Grow then AfterGrow(c, pc)
    else Succeed(c, pc)
  }

  function ReplyTo(c: Config, pc: PC, e: Option<Entity>): Reply
    requires Writing(pc)
  {
    Answer(c.service, c.key.entry, RequestOf(pc), e)
  }

  /** Removing what is not there counts as success. */
  predicate Forgives(c: Config) {
    c.key.entry.AclEntry? || IsNotFound(c.key.entry, c.service.absentText)
  }

  /** The worker takes the call for a success. */
  predicate Works(c: Config, pc: PC, e: Option<Entity>, out: Outcome)
    requires Writing(pc)
  {
    out.Ok? && (ReplyTo(c, pc, e).Accepted? || (ReplyTo(c, pc, e).Missing? && Forgives(c)))
  }

  function StepBroker(c: Config, s: Sys, out: Outcome): Sys
    requires Writing(s.pc)
  {
    var reply, next := ReplyTo(c, s.pc, s.entity), AfterWrite(c, s.pc, Works(c, s.pc, s.entity, out));
    if reply.Accepted? && !out.Failed? then s.(entity := reply.now, mine := true, pc := next)
    else s.(pc := next)
  }

  predicate Storing(pc: PC) {
    pc.At? && (pc.stage.AddFinalizer? || pc.stage.DropFinalizer? || pc.stage.Commit?)
  }

  function StepApi(s: Sys, out: Outcome): Sys
    requires Storing(s.pc)
  {
    if out.Failed? then s.(pc := Idle)
    else if s.pc.stage == Commit then s.(history := UpdateStatus(s.history, s.pc.obj), pc := Idle)
    else s.(history := UpdateObject(s.history, s.pc.obj), pc := Idle)
  }

  function StepRead(c: Config, s: Sys, i: nat): Sys {
    if !s.pc.Idle? || !(s.seen <= i < |s.history|) then s
    else s.(seen := i, pc := if s.history[i].None? then Idle else Dispatch(c, s.history[i].value))
  }

  // ---------------------------------------------------------------- the environment's steps

  function StepEnv(c: Config, s: Sys, ch: Choice): Sys
    requires IsEnv(ch)
  {
    var cur := Current(s.history);
    match ch
    case EnvCreate(spec, fins) =>
      if cur.Some? || KeyOf(c.namespace, c.name, spec) != c.key then s
      else s.(history := s.history +
                [Some(Object(|s.history|, |s.history|, 1, false, fins, spec, EMPTY_STATUS))])
    case EnvEdit(spec) =>
      if cur.None? || KeyOf(c.namespace, c.name, spec) != c.key || spec == cur.value.spec then s
      else s.(history := Store(s.history, cur.value.(spec := spec, generation := cur.value.generation + 1)))
    case EnvDelete =>
      if cur.None? || cur.value.deleting then s
      else s.(history := Store(s.history, cur.value.(deleting := true, generation := cur.value.generation + 1)))
    case EnvFinalizers(fins) =>
      // other controllers manage finalizers of their own; none can be added to a dying object
      if cur.None? || (Finalizer(c) in fins) != (Finalizer(c) in cur.value.finalizers) then s
      else if fins == cur.value.finalizers || (cur.value.deleting && !(fins <= cur.value.finalizers)) then s
      else s.(history := Store(s.history, cur.value.(finalizers := fins)))
    case ForeignCreate(e) =>
      if s.entity.Some? || !Fits(e, c.key.entry) then s
      else s.(entity := Some(e), mine := false)
    case ForeignChange(after) =>
      if s.entity.None? || (after.Some? && !Fits(after.value, c.key.entry)) then s
      else s.(entity := after, mine := s.mine && after.Some?)
  }

  // ---------------------------------------------------------------- runs

  function Step(c: Config, s: Sys, ch: Choice): Sys {
    if IsEnv(ch) then StepEnv(c, s, ch)
    else if ch.Crash? then s.(pc := Idle)
    else if ch.Read? then StepRead(c, s, ch.version)
    else if Reading(s.pc) then s.(pc := AfterLook(c, s.pc, s.entity, ch))
    else if ch.Call? && Writing(s.pc) then StepBroker(c, s, ch.outcome)
    else if ch.Call? && Storing(s.pc) then StepApi(s, ch.outcome)
    else s
  }

  /** The state after all of `cs`, the last choice last. */
  function Run(c: Config, s: Sys, cs: seq<Choice>): Sys {
    if cs == [] then s else Step(c, Run(c, s, cs[..|cs| - 1]), cs[|cs| - 1])
  }

  /** Before anything has happened: no object, and possibly an entry that somebody else made. */
  predicate Initial(c: Config, s: Sys) {
    && Sensible(c.service)
    && s.history == [None] && s.seen == 0 && s.pc == Idle && !s.mine
    && (s.entity.Some? ==> Fits(s.entity.value, c.key.entry))
  }

  /** Runs compose. */
  lemma {:induction false} RunConcat(c: Config, s: Sys, a: seq<Choice>, b: seq<Choice>)
    ensures Run(c, s, a + b) == Run(c, Run(c, s, a), b)
  {
    if b == [] {
      assert a + b == a;
    } else {
      var ab, n := a + b, |b| - 1;
      assert ab[..|ab| - 1] == a + b[..n];
      RunConcat(c, s, a, b[..n]);
    }
  }

  lemma RunAppend(c: Config, s: Sys, cs: seq<Choice>, ch: Choice)
    ensures Run(c, s, cs + [ch]) == Step(c, Run(c, s, cs), ch)
  {
    assert (cs + [ch])[..|cs + [ch]| - 1] == cs;
  }

  lemma RunTwo(c: Config, s: Sys, a: Choice, b: Choice)
    ensures Run(c, s, [a, b]) == Step(c, Step(c, s, a), b)
  {
    RunAppend(c, s, [], a);
    RunAppend(c, s, [a], b);
    assert [] + [a] == [a] && [a] + [b] == [a, b];
  }

  lemma RunThree(c: Config, s: Sys, a: Choice, b: Choice, d: Choice)
    ensures Run(c, s, [a, b, d]) == Step(c, Step(c, Step(c, s, a), b), d)
  {
    RunTwo(c, s, a, b);
    RunAppend(c, s, [a, b], d);
    assert [a, b] + [d] == [a, b, d];
  }
}
