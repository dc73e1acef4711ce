/**
 What the reconcilers run against: the API server and the broker with the calls that the code makes,
 and the object that a reconcile works on. Between any two calls, other clients may act; any call may
 fail, with or without its effect; and the worker may die in any call. All of that is decided by a
 script that the code cannot see.

 The environment keeps, as ghost state, where the worker stands in the protocol and everything that
 has happened. `Valid` says that the present state is the one the protocol reaches by what has
 happened, so every theorem about runs of the protocol holds of it. A call may only be made where the
 protocol makes it, with the arguments the protocol has there.
 */
module Runtime {
  import opened Api
  import opened Broker
  import opened Protocol
  import opened Invariant
  import opened CleanUp
  import opened Readiness
  import opened Convergence
  import opened Update
  import opened Clusters

  /** The outcome of a call that the worker may not survive. */
  datatype Survival<+T> = Dead | Alive(value: T) {
    predicate IsFailure() { Dead? }
    function PropagateFailure<U>(): Survival<U>
      requires Dead?
    {
      Dead
    }
    function Extract(): T
      requires Alive?
    {
      value
    }
  }

  // ---------------------------------------------------------------- what a reconcile has seen and done

  datatype ClusterRead = ClusterRead(name: string, namespace: string, cluster: Option<Cluster>)
  datatype SecretRead = SecretRead(name: string, namespace: string, data: Option<map<string, string>>)
  datatype Dial = Dial(servers: string, sasl: Option<SaslConfig>)
  datatype Written = Written(what: Object, ok: bool)

  /** What the reconcile at hand has read, where it has connected to, and what it has last written. */
  datatype Notes = Notes(
    found: Option<Option<Object>>,   // the outer option says whether it was read, the inner one whether it exists
    cluster: Option<ClusterRead>,
    admin: Option<SecretRead>,        // the Secret with the administrator's credentials
    user: Option<SecretRead>,         // the Secret with a User's password
    dial: Option<Dial>,
    written: Option<Written>)

  const NO_NOTES := Notes(None, None, None, None, None, None)

  /** A connection to the servers of the cluster that was read, with the credentials in the Secret that the
      cluster names, or with none if it names none. */
  ghost predicate WellDialed(n: Notes, servers: string, sasl: Option<SaslConfig>) {
    && n.cluster.Some? && n.cluster.value.cluster.Some?
    && var cluster := n.cluster.value.cluster.value;
    && servers == cluster.bootstrapServers
    && (if cluster.adminCredentials.None? then sasl.None?
        else
          var ref := cluster.adminCredentials.value;
          && n.admin.Some? && n.admin.value.data.Some? && sasl.Some?
          && n.admin.value.name == ref.name
          && n.admin.value.namespace == (if ref.namespace == "" then cluster.namespace else ref.namespace)
          && var data := n.admin.value.data.value;
          && "username" in data && sasl.value.username == data["username"]
          && (if "password" in data then sasl.value.password == data["password"]
              else "plaintext" in data && sasl.value.password == data["plaintext"]))
  }

  /** What was read and where the worker has connected to belong to the object that was read. */
  ghost predicate Consistent(c: Config, n: Notes) {
    && (n.cluster.Some? ==>
          && n.found.Some? && n.found.value.Some?
          && n.cluster.value.name == n.found.value.value.spec.cluster && n.cluster.value.namespace == c.namespace)
    && (n.user.Some? ==>
          && n.found.Some? && n.found.value.Some? && n.found.value.value.spec.UserSpec?
          && n.user.value.name == n.found.value.value.spec.secretName && n.user.value.namespace == c.namespace)
    && (n.dial.Some? ==> WellDialed(n, n.dial.value.servers, n.dial.value.sasl) && SawReady(n))
  }

  /** The cluster was read, and its Ready condition is true. */
  ghost predicate SawReady(n: Notes) {
    && n.cluster.Some? && n.cluster.value.cluster.Some?
    && var ready := FindStatusCondition(n.cluster.value.cluster.value.conditions, Ready);
    && ready.Some? && ready.value.status
  }

  /** The outcome of reading the object. */
  datatype ReadResult = NotFound | ReadFailed | Found(resource: Resource)

  /** A broker's answer: the call failed as a whole, or one optional error for each item asked for. */
  datatype Responses = CallFailed | Answered(errors: seq<Option<string>>)

  datatype Event =
    | Others(choice: Choice)                        // the environment acts on the object or its entry
    | Elsewhere(store: map<Entry, Entity>)          // and on everything else in the broker
    | GotVersion(version: nat)
    | GotCluster(cluster: Option<Cluster>)
    | GotSecret(data: Option<map<string, string>>)
    | CallEnds(outcome: Outcome)
    | Dies

  predicate IsOthers(e: Event) {
    e.Elsewhere? || (e.Others? && IsEnv(e.choice))
  }

  // ---------------------------------------------------------------- the object under work

  /** The local object of a reconcile, changed in place. */
  class Resource {
    var resourceVersion: nat
    var uid: nat
    var generation: nat
    var deleting: bool
    var finalizers: set<string>
    var spec: Spec
    var status: Status

    constructor (o: Object)
      ensures Value() == o
    {
      resourceVersion, uid, generation, deleting := o.resourceVersion, o.uid, o.generation, o.deleting;
      finalizers, spec, status := o.finalizers, o.spec, o.status;
    }

    function Value(): Object
      reads this
    {
      Object(resourceVersion, uid, generation, deleting, finalizers, spec, status)
    }

    method SetCondition(t: ConditionType, b: bool)
      modifies this`status
      ensures Value() == Protocol.SetCondition(old(Value()), t, b)
    {
      var condition := Condition(t, b, generation);
      status := status.(conditions := SetStatusCondition(status.conditions, condition));
    }

    method AddFinalizer(finalizer: string)
      modifies this`finalizers
      ensures Value() == old(Value()).(finalizers := old(finalizers) + {finalizer})
    {
      finalizers := finalizers + {finalizer};
    }

    method RemoveFinalizer(finalizer: string)
      modifies this`finalizers
      ensures Value() == old(Value()).(finalizers := old(finalizers) - {finalizer})
    {
      finalizers := finalizers - {finalizer};
    }
  }

  // ---------------------------------------------------------------- the environment

  /** Acts of the environment do not depend on the worker. */
  lemma EnvIgnoresWorker(c: Config, s: Sys, t: Sys, ch: Choice)
    requires IsEnv(ch) && s.history == t.history && s.entity == t.entity
    ensures StepEnv(c, s, ch).history == StepEnv(c, t, ch).history
    ensures StepEnv(c, s, ch).entity == StepEnv(c, t, ch).entity
    ensures StepEnv(c, s, ch).pc == s.pc && StepEnv(c, s, ch).seen == s.seen
  {
  }

  lemma FinalizerStored(c: Config, h: History, o: Object)
    requires Unchanged(h, o)
    ensures Holds(c, Current(UpdateObject(h, o))) <==> Finalizer(c) in o.finalizers
  {
  }

  /** An error that counts: everything except "not found" in a removal. */
  predicate Matters(r: Request, entry: Entry, e: Option<string>) {
    e.Some? && !(r.Remove? && IsNotFound(entry, e.value))
  }

  predicate Succeeded(r: Request, entry: Entry, a: Responses) {
    a.Answered? && forall i :: 0 <= i < |a.errors| ==> !Matters(r, entry, a.errors[i])
  }

  /** The library's account of a reply: nothing at all, or one item with or without an error. */
  function ResponsesTo(v: Service, out: Outcome, reply: Reply): Responses {
    if !out.Ok? then CallFailed
    else match reply
      case Rejected => Answered([Some("REJECTED")])
      case Missing => Answered([Some(v.absentText)])
      case Accepted(_) => Answered([None])
  }

  /** Scanning the responses finds out what the protocol goes by. */
  lemma ResponsesCount(c: Config, pc: PC, e: Option<Entity>, out: Outcome)
    requires Writing(pc)
    ensures Succeeded(RequestOf(pc), c.key.entry, ResponsesTo(c.service, out, ReplyTo(c, pc, e)))
         == Works(c, pc, e, out)
  {
    var a := ResponsesTo(c.service, out, ReplyTo(c, pc, e));
    if a.Answered? && !ReplyTo(c, pc, e).Accepted? {
      assert Matters(RequestOf(pc), c.key.entry, a.errors[0]) <==> !Works(c, pc, e, out);
    }
  }

  /** `m` describes the topic as the broker holds it. */
  ghost predicate Describes(m: map<string, seq<nat>>, topic: string, e: Option<Entity>) {
    if topic in m && m[topic] != []
    then e.Some? && e.value.Topic? && |m[topic]| == e.value.partitions && m[topic][0] == e.value.replication
    else e.None? || !e.value.Topic?
  }

  /** A missing topic may be listed, without partitions. */
  function Metadata(store: map<Entry, Entity>, topic: string): (m: map<string, seq<nat>>)
    requires TopicEntry(topic) in store ==> Fits(store[TopicEntry(topic)], TopicEntry(topic))
    ensures Describes(m, topic, Lookup(store, TopicEntry(topic)))
  {
    if TopicEntry(topic) !in store then map[topic := []]
    else
      var e := store[TopicEntry(topic)];
      var replicas: nat := e.replication;
      map[topic := seq(e.partitions, _ => replicas)]
  }

  /** The run `log` leads to the state, with so many reconciles begun. The quantifier keeps the run out of
      sight of code that only passes its environment on. */
  ghost predicate Explains(c: Config, init: Sys, log: seq<Choice>, s: Sys, begun: nat) {
    forall cs :: cs == log ==> s == Run(c, init, cs) && begun == Reconciles(c, init, cs)
  }

  class Environment {
    const cfg: Config
    ghost const init: Sys

    var history: History
    var seen: nat
    var store: map<Entry, Entity>
    var script: seq<Event>

    ghost var mine: bool
    ghost var pc: PC
    ghost var log: seq<Choice>
    ghost var before: seq<Choice>   // the log when the last reconcile began
    ghost var begun: nat            // reconciles begun
    ghost var deaths: nat           // and cut short
    ghost var notes: Notes          // of the reconcile at hand

    constructor (cfg: Config, store: map<Entry, Entity>, script: seq<Event>)
      requires Sensible(cfg.service)
      requires cfg.key.entry in store ==> Fits(store[cfg.key.entry], cfg.key.entry)
      ensures Valid() && pc.Idle? && this.cfg == cfg && this.store == store && this.script == script && log == []
    {
      this.cfg, this.store, this.script := cfg, store, script;
      history, seen, mine, pc, log, before, begun, deaths, notes := [None], 0, false, Idle, [], [], 0, 0, NO_NOTES;
      init := Sys([None], 0, Lookup(store, cfg.key.entry), false, Idle);
    }

    ghost function State(): Sys
      reads this
    {
      Sys(history, seen, Lookup(store, cfg.key.entry), mine, pc)
    }

    ghost predicate Valid()
      reads this
    {
      Initial(cfg, init) && before <= log && Explains(cfg, init, log, State(), begun)
      && Consistent(cfg, notes)
    }

    /** The reconcile at hand began when this was the log; so many had begun with it and so many had been cut
        short before it. */
    ghost predicate Since(before: seq<Choice>, begun: nat, deaths: nat, dead: bool)
      reads this
    {
      this.before == before && this.begun == begun && this.deaths == deaths + if dead then 1 else 0
    }

    /** The protocol takes one step, which the concrete state has just taken. */
    ghost method Advance(s: Sys, ch: Choice)
      requires Initial(cfg, init) && before <= log && Explains(cfg, init, log, s, begun)
      requires Consistent(cfg, notes)
      requires State().(pc := Idle, mine := false) == Step(cfg, s, ch).(pc := Idle, mine := false)
      modifies this`mine, this`pc, this`log, this`begun
      ensures Valid() && State() == Step(cfg, s, ch) && log == old(log) + [ch]
      ensures begun == old(begun) + if Begins(s, ch) then 1 else 0
    {
      RunAppend(cfg, init, log, ch);
      ReconcilesAppend(cfg, init, log, ch);
      var t := Step(cfg, s, ch);
      mine, pc, log := t.mine, t.pc, log + [ch];
      begun := Reconciles(cfg, init, log);
    }

    /** What holds of every run holds now. */
    lemma SaneNow()
      requires Valid()
      ensures Sane(cfg, State())
    {
      SaneRun(cfg, init, log);
    }

    /** The worker dies. */
    method Die()
      requires Valid()
      modifies this`mine, this`pc, this`log, this`begun, this`deaths
      ensures Valid() && pc.Idle?
      ensures Since(old(before), old(begun) + if old(pc).Idle? then 1 else 0, old(deaths), true)
    {
      ghost var s := State();
      Advance(s, Crash);
      deaths := deaths + 1;
    }

    /** Others act until it is the worker's turn; the result says how the worker's call goes. */
    method Yield() returns (e: Event)
      requires Valid()
      modifies this`history, this`store, this`script, this`mine, this`pc, this`log, this`begun
      ensures Valid() && pc == old(pc) && !IsOthers(e)
      ensures begun == old(begun)
    {
      while script != [] && IsOthers(script[0])
        invariant Valid() && pc == old(pc) && begun == old(begun)
        decreases |script|
      {
        var next := script[0];
        script := script[1..];
        if next.Others? {
          Interfere(next.choice);
        } else {
          store := Assign(next.store, cfg.key.entry, Lookup(store, cfg.key.entry));
        }
      }
      if script == [] {
        e := Dies;
      } else {
        e := script[0];
        script := script[1..];
      }
    }

    method Interfere(ch: Choice)
      requires Valid() && IsEnv(ch)
      modifies this`history, this`store, this`mine, this`pc, this`log, this`begun
      ensures Valid() && pc == old(pc) && log == old(log) + [ch] && begun == old(begun)
      ensures forall entry :: entry != cfg.key.entry ==> Lookup(store, entry) == Lookup(old(store), entry)
    {
      ghost var s := State();
      var now := StepEnv(cfg, Sys(history, seen, Lookup(store, cfg.key.entry), false, Idle), ch);
      history, store := now.history, Assign(store, cfg.key.entry, now.entity);
      EnvIgnoresWorker(cfg, s, Sys(old(history), seen, s.entity, false, Idle), ch);
      Advance(s, ch);
    }

    // ------------------------------------------------------------ the API server

    /** The API server's side of a read that succeeds. */
    method ReadVersion(version: nat)
      requires Valid() && pc.Idle? && seen <= version < |history|
      modifies this`seen, this`mine, this`pc, this`log, this`begun
      ensures Valid() && begun == old(begun) + 1 && seen == version
      ensures history[version].None? ==> pc.Idle?
      ensures history[version].Some? ==>
        && pc == Dispatch(cfg, history[version].value)
        && KeyOf(cfg.namespace, cfg.name, history[version].value.spec) == cfg.key
    {
      ghost var s := State();
      seen := version;
      Advance(s, Read(version));
      SaneNow();
    }

    /** Get of the object itself. */
    method Get() returns (r: Survival<ReadResult>)
      requires Valid() && pc.Idle?
      modifies this
      ensures Valid() && Since(old(log), old(begun) + 1, old(deaths), r.Dead?)
      ensures r.Dead? ==> pc.Idle?
      ensures r.Alive? && !r.value.Found? ==> pc.Idle?
      ensures r.Alive? && r.value.NotFound? ==> seen < |history| && history[seen].None?
      ensures notes == NO_NOTES.(found :=
        if r.Dead? || r.value.ReadFailed? then None
        else if r.value.NotFound? then Some(None) else Some(Some(r.value.resource.Value())))
      ensures r.Alive? && r.value.Found? ==>
        var o := r.value.resource;
        && fresh(o)
        && seen < |history| && history[seen] == Some(o.Value())
        && pc == Dispatch(cfg, o.Value())
        && KeyOf(cfg.namespace, cfg.name, o.Value().spec) == cfg.key
    {
      before, notes := log, NO_NOTES;
      var e := Yield();
      if e.Dies? {
        Die();
        return Dead;
      }
      if !e.GotVersion? || !(seen <= e.version < |history|) {
        ghost var s := State();
        Advance(s, Read(|history|));
        return Alive(ReadFailed);
      }
      ReadVersion(e.version);
      notes := notes.(found := Some(history[seen]));
      if history[seen].None? {
        return Alive(NotFound);
      }
      var o := new Resource(history[seen].value);
      return Alive(Found(o));
    }

    /** Get of the Cluster: None if it is not there, or the read failed. */
    method GetCluster(name: string, namespace: string) returns (r: Survival<Option<Cluster>>)
      requires Valid() && pc.At? && (pc.stage.GateCluster? || pc.stage.DelCluster?)
      requires notes.found.Some? && notes.found.value.Some? && notes.dial.None?
      requires name == notes.found.value.value.spec.cluster && namespace == cfg.namespace
      modifies this
      ensures Valid() && Since(old(before), old(begun), old(deaths), r.Dead?)
      ensures r.Dead? ==> pc.Idle? && notes == old(notes)
      ensures r.Alive? ==>
        && pc == AfterLook(cfg, old(pc), None, ClusterIs(ConditionsOf(r.value)))
        && notes == old(notes).(cluster := Some(ClusterRead(name, namespace, r.value)))
    {
      var e := Yield();
      if e.Dies? {
        Die();
        return Dead;
      }
      ghost var s := State();
      var cluster := if e.GotCluster? then e.cluster else None;
      Advance(s, ClusterIs(ConditionsOf(cluster)));
      notes := notes.(cluster := Some(ClusterRead(name, namespace, cluster)));
      return Alive(cluster);
    }

    /** Get of the Secret with the administrator's credentials: None if it is not there, or the read failed. */
    method GetAdminSecret(name: string, namespace: string) returns (r: Survival<Option<map<string, string>>>)
      requires Valid() && pc.At? && (pc.stage.Credentials? || pc.stage.DelCredentials?) && notes.dial.None?
      modifies this
      ensures Valid() && Since(old(before), old(begun), old(deaths), r.Dead?)
      ensures r.Dead? ==> pc.Idle? && notes == old(notes)
      ensures r.Alive? ==>
        pc == old(pc) && notes == old(notes).(admin := Some(SecretRead(name, namespace, r.value)))
    {
      var e := Yield();
      if e.Dies? {
        Die();
        return Dead;
      }
      var data := if e.GotSecret? then e.data else None;
      notes := notes.(admin := Some(SecretRead(name, namespace, data)));
      return Alive(data);
    }

    /** Get of the Secret with a User's password. */
    method GetUserSecret(name: string, namespace: string) returns (r: Survival<Option<map<string, string>>>)
      requires Valid() && pc.At? && pc.stage.Password?
      requires notes.found.Some? && notes.found.value.Some? && notes.found.value.value.spec.UserSpec?
      requires name == notes.found.value.value.spec.secretName && namespace == cfg.namespace
      modifies this
      ensures Valid() && Since(old(before), old(begun), old(deaths), r.Dead?)
      ensures r.Dead? ==> pc.Idle? && notes == old(notes)
      ensures r.Alive? ==>
        && pc == AfterLook(cfg, old(pc), None, SecretIs(r.value))
        && notes == old(notes).(user := Some(SecretRead(name, namespace, r.value)))
    {
      var e := Yield();
      if e.Dies? {
        Die();
        return Dead;
      }
      ghost var s := State();
      var data := if e.GotSecret? then e.data else None;
      Advance(s, SecretIs(data));
      notes := notes.(user := Some(SecretRead(name, namespace, data)));
      return Alive(data);
    }

    /** The worker has concluded something from what it has read. */
    ghost method Conclude(ch: Choice)
      requires Valid() && Reading(pc) && ch.Call?
      modifies this`mine, this`pc, this`log, this`begun
      ensures Valid() && pc == AfterLook(cfg, old(pc), State().entity, ch)
      ensures log == old(log) + [ch] && begun == old(begun)
    {
      Advance(State(), ch);
    }

    /** The API server's side of an update of metadata and spec. */
    method WriteObject(o: Object, out: Outcome) returns (ok: bool)
      requires Valid() && Storing(pc) && !pc.stage.Commit? && pc.obj == o
      modifies this`history, this`mine, this`pc, this`log, this`begun
      ensures Valid() && pc.Idle?
      ensures ok == (out.Ok? && Unchanged(old(history), o))
      ensures begun == old(begun)
      ensures history == (if out.Failed? then old(history) else UpdateObject(old(history), o))
    {
      ghost var s := State();
      ok := out.Ok? && Unchanged(history, o);
      if !out.Failed? {
        history := UpdateObject(history, o);
      }
      Advance(s, Call(out));
    }

    /** The API server's side of an update of the status. */
    method WriteStatus(o: Object, out: Outcome) returns (ok: bool)
      requires Valid() && Storing(pc) && pc.stage.Commit? && pc.obj == o
      modifies this`history, this`mine, this`pc, this`log, this`begun
      ensures Valid() && pc.Idle?
      ensures ok == (out.Ok? && Unchanged(old(history), o))
      ensures begun == old(begun)
      ensures history == (if out.Failed? then old(history) else UpdateStatus(old(history), o))
    {
      ghost var s := State();
      ok := out.Ok? && Unchanged(history, o);
      if !out.Failed? {
        history := UpdateStatus(history, o);
      }
      Advance(s, Call(out));
    }

    /** Update: metadata and spec. */
    method UpdateResource(o: Resource) returns (r: Survival<bool>)
      requires Valid() && Storing(pc) && !pc.stage.Commit? && pc.obj == o.Value()
      modifies this
      ensures Valid() && pc.Idle? && Since(old(before), old(begun), old(deaths), r.Dead?)
      ensures notes == if r.Dead? then old(notes) else old(notes).(written := Some(Written(o.Value(), r.value)))
      ensures r == Alive(true) ==> (Holds(cfg, Current(history)) <==> Finalizer(cfg) in o.finalizers)
    {
      var e := Yield();
      if e.Dies? {
        Die();
        return Dead;
      }
      ghost var h := history;
      var ok := WriteObject(o.Value(), if e.CallEnds? then e.outcome else Failed);
      if ok {
        FinalizerStored(cfg, h, o.Value());
      }
      notes := notes.(written := Some(Written(o.Value(), ok)));
      return Alive(ok);
    }

    /** A success that goes through makes the stored object ready. */
    lemma CommitsNow()
      requires Valid() && pc.At? && pc.stage.Commit?
      ensures Unchanged(history, pc.obj) && ReadyNow(pc.obj) ==> LiveReady(Current(Api.UpdateStatus(history, pc.obj)))
    {
      SaneNow();
      if Unchanged(history, pc.obj) && ReadyNow(pc.obj) {
        CommitStores(cfg, State());
      }
    }

    /** Status().Update: the status only. */
    method UpdateResourceStatus(o: Resource) returns (r: Survival<bool>)
      requires Valid() && Storing(pc) && pc.stage.Commit? && pc.obj == o.Value()
      modifies this
      ensures Valid() && pc.Idle? && Since(old(before), old(begun), old(deaths), r.Dead?)
      ensures notes == if r.Dead? then old(notes) else old(notes).(written := Some(Written(o.Value(), r.value)))
      ensures r == Alive(true) && ReadyNow(o.Value()) ==> LiveReady(Current(history))
    {
      var e := Yield();
      if e.Dies? {
        Die();
        return Dead;
      }
      CommitsNow();
      var ok := WriteStatus(o.Value(), if e.CallEnds? then e.outcome else Failed);
      notes := notes.(written := Some(Written(o.Value(), ok)));
      return Alive(ok);
    }

    // ------------------------------------------------------------ the broker

    /** A new connection, pinged once: to the servers of the cluster that was read, with its credentials. */
    method Connect(servers: string, sasl: Option<SaslConfig>) returns (r: Survival<bool>)
      requires Valid() && pc.At? && (pc.stage.Connect? || pc.stage.DelConnect?)
      requires WellDialed(notes, servers, sasl) && SawReady(notes)
      modifies this
      ensures Valid() && Since(old(before), old(begun), old(deaths), r.Dead?)
      ensures r.Dead? ==> pc.Idle?
      ensures r.Alive? ==> pc == AfterLook(cfg, old(pc), State().entity, Call(if r.value then Ok else Failed))
      ensures notes == old(notes).(dial := Some(Dial(servers, sasl)))
    {
      notes := notes.(dial := Some(Dial(servers, sasl)));
      var e := Yield();
      if e.Dies? {
        Die();
        return Dead;
      }
      var ok := e.CallEnds? && e.outcome.Ok?;
      Conclude(Call(if ok then Ok else Failed));
      return Alive(ok);
    }

    /** The listing of all topics, of which only success matters: a health check. */
    method ListAllTopics() returns (r: Survival<bool>)
      requires Valid() && pc.At? && pc.stage.Health?
      modifies this
      ensures Valid() && Since(old(before), old(begun), old(deaths), r.Dead?)
      ensures r.Dead? ==> pc.Idle?
      ensures r.Alive? ==> pc == AfterLook(cfg, old(pc), State().entity, Call(if r.value then Ok else Failed))
      ensures notes == old(notes)
    {
      var e := Yield();
      if e.Dies? {
        Die();
        return Dead;
      }
      var ok := e.CallEnds? && e.outcome.Ok?;
      Conclude(Call(if ok then Ok else Failed));
      return Alive(ok);
    }

    /** The metadata of one topic, or None if the call failed: the replica count of each partition. A
        missing topic has no partitions. */
    method ListTopics(topic: string) returns (r: Survival<Option<map<string, seq<nat>>>>)
      requires Valid() && pc.At? && pc.stage.Exists? && cfg.key.entry == TopicEntry(topic)
      modifies this
      ensures Valid() && Since(old(before), old(begun), old(deaths), r.Dead?)
      ensures notes == old(notes)
      ensures r.Dead? ==> pc.Idle?
      ensures r.Alive? ==> pc == AfterLook(cfg, old(pc), State().entity, Call(if r.value.Some? then Ok else Failed))
      ensures r.Alive? && r.value.Some? ==> Describes(r.value.value, topic, State().entity)
    {
      var e := Yield();
      if e.Dies? {
        Die();
        return Dead;
      }
      if !e.CallEnds? || !e.outcome.Ok? {
        Conclude(Call(Failed));
        return Alive(None);
      }
      SaneNow();
      var found := Metadata(store, topic);
      Conclude(Call(Ok));
      return Alive(Some(found));
    }

    /** The broker's side of a request, with its effect on the entry. */
    method Perform(entry: Entry, request: Request, out: Outcome) returns (reply: Reply)
      requires Valid() && Writing(pc) && entry == cfg.key.entry && request == RequestOf(pc)
      modifies this`store, this`mine, this`pc, this`log, this`begun
      ensures Valid() && pc == AfterWrite(cfg, old(pc), Works(cfg, old(pc), Lookup(old(store), entry), out))
      ensures reply == Answer(cfg.service, entry, request, Lookup(old(store), entry))
      ensures store == if reply.Accepted? && !out.Failed? then Assign(old(store), entry, reply.now) else old(store)
      ensures begun == old(begun)
    {
      ghost var s := State();
      reply := Answer(cfg.service, entry, request, Lookup(store, entry));
      if !out.Failed? && reply.Accepted? {
        store := Assign(store, entry, reply.now);
      }
      Advance(s, Call(out));
    }

    /** One request about one entry. */
    method Send(entry: Entry, request: Request) returns (r: Survival<Responses>)
      requires Valid() && Writing(pc) && entry == cfg.key.entry && request == RequestOf(pc)
      modifies this
      ensures Valid() && Since(old(before), old(begun), old(deaths), r.Dead?)
      ensures notes == old(notes)
      ensures r.Dead? ==> pc.Idle?
      ensures r.Alive? ==> pc == AfterWrite(cfg, old(pc), Succeeded(request, entry, r.value))
    {
      var e := Yield();
      if e.Dies? {
        Die();
        return Dead;
      }
      var out := if e.CallEnds? then e.outcome else Failed;
      ResponsesCount(cfg, pc, Lookup(store, entry), out);
      var reply := Perform(entry, request, out);
      return Alive(ResponsesTo(cfg.service, out, reply));
    }

    /** Incremental changes of a topic's configuration, applied in the order of the list. */
    method AlterTopicConfigs(configs: seq<AlterConfig>, topic: string) returns (r: Survival<Responses>)
      requires Valid() && Writing(pc) && pc.stage.Alter? && cfg.key.entry == TopicEntry(topic)
      requires Lists(configs, pc.obj.spec.config)
      modifies this
      ensures Valid() && Since(old(before), old(begun), old(deaths), r.Dead?)
      ensures notes == old(notes)
      ensures r.Dead? ==> pc.Idle?
      ensures r.Alive? ==> pc == AfterWrite(cfg, old(pc), Succeeded(SetConfigs(map[]), cfg.key.entry, r.value))
    {
      AnyOrder(map[], configs, pc.obj.spec.config);
      r := Send(TopicEntry(topic), SetConfigs(SetAll(map[], configs)));
    }
  }
}
