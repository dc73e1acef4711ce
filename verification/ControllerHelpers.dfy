/**
 What the three reconcilers share: results, the credentials lookup, and the recording of a failure.
 */
module ControllerHelpers {
  import opened Api
  import opened Protocol
  import opened CleanUp
  import opened StatusDiscipline
  import opened Readiness
  import opened Clusters
  import opened Runtime

  /** ctrl.Result together with the returned error; times in seconds. */
  datatype Result = Result(requeue: bool, requeueAfter: nat, err: bool) {
    /** The controller runtime will call Reconcile again by itself. */
    predicate Retries() {
      requeue || requeueAfter > 0 || err
    }
  }

  const REQUEUE_HEALTHY := 300
  const REQUEUE_DEGRADED := 30
  const CLUSTER_NOT_READY_REQUEUE := 10

  // ---------------------------------------------------------------- how a reconcile ends

  /** The result for what the reconcile has seen and done; intervals in seconds. */
  ghost predicate Fitting(c: Config, n: Notes, s: Sys, v: Result) {
    if n.found.None? then v == Result(false, 0, true)
    else if n.found.value.None? then v == Result(false, 0, false)
    else if n.written.Some? then Concluded(c, n.found.value.value, n.written.value, s, v)
    else if n.cluster.None? then
      var o := n.found.value.value;
      if o.deleting then Finalizer(c) !in o.finalizers && v == Result(false, 0, false)
      else Finalizer(c) in o.finalizers && ReadyNow(o) && v == Result(false, 300, false)
    else if n.cluster.value.cluster.Some? && !SawReady(n) then v == Result(false, 10, false)
    else n.found.value.value.deleting && v == Result(false, 30, true)
  }

  /** The result of a reconcile of `o` that ends with a write to the API server. */
  ghost predicate Concluded(c: Config, o: Object, w: Written, s: Sys, v: Result) {
    if o.deleting then v == Result(false, 0, !w.ok) && (w.ok ==> !Holds(c, Current(s.history)))
    else if Finalizer(c) !in o.finalizers then v == Result(w.ok, 0, !w.ok) && (w.ok ==> Holds(c, Current(s.history)))
    else if !ReadyNow(w.what) then v == Result(false, 30, true) || v == Result(false, 0, true)
    else if w.ok then v == Result(false, 300, false) && LiveReady(Current(s.history))
    else v == Result(false, 0, true)
  }

  /** A reconcile has ended as it should: its calls were a run of the protocol, the worker is idle, it has
      read and called what belongs to its object (that is part of Valid), and the result fits. */
  ghost predicate Ended(env: Environment, r: Survival<Result>)
    reads env
  {
    && env.Valid() && env.pc.Idle?
    && (r.Alive? ==> Fitting(env.cfg, env.notes, env.State(), r.value))
  }

  /** The object will be looked at again, unless there is nothing left to do: it is gone, or it is dying and
      does not hold the finalizer, or has just been released. */
  lemma NoRetryIsDone(env: Environment, r: Survival<Result>)
    requires Ended(env, r) && r.Alive? && !r.value.Retries()
    ensures env.notes.found.Some?
    ensures
      || env.notes.found.value.None?
      || (env.notes.found.value.value.deleting
          && (Finalizer(env.cfg) !in env.notes.found.value.value.finalizers || !Holds(env.cfg, Current(env.history))))
  {
  }

  /** Success is reported only of an object that is ready, as it is stored or as it was read. */
  lemma HealthyIsReady(env: Environment, r: Survival<Result>)
    requires Ended(env, r) && r.Alive? && r.value == Result(false, 300, false)
    ensures LiveReady(Current(env.history))
      || (env.notes.found.Some? && LiveReady(env.notes.found.value))
  {
  }

  // ---------------------------------------------------------------- the object under work

  /** The reconcile at hand has read this object, and has written nothing yet. */
  ghost predicate About(env: Environment, o: Resource)
    reads env, o
  {
    && env.notes.found.Some? && env.notes.found.value.Some? && env.notes.written.None?
    && env.notes.found.value.value.spec == o.spec
    && env.notes.found.value.value.deleting == o.deleting
    && env.notes.found.value.value.finalizers == o.finalizers
  }

  ghost predicate AboutLive(env: Environment, o: Resource)
    reads env, o
  {
    About(env, o) && !o.deleting && Finalizer(env.cfg) in o.finalizers
  }

  /** The gate is open: the cluster was read as ready. */
  ghost predicate PastGate(env: Environment, cluster: Cluster)
    reads env
  {
    env.notes.cluster.Some? && env.notes.cluster.value.cluster == Some(cluster) && SawReady(env.notes)
  }

  // ---------------------------------------------------------------- credentials

  /** The administrator's credentials in a Secret: a user name, and a password under one of two names, of
      which the first is preferred. */
  function CredentialsIn(data: map<string, string>): (r: Option<SaslConfig>)
    ensures r.Some? <==> "username" in data && ("password" in data || "plaintext" in data)
    ensures r.Some? ==> r.value.username == data["username"]
    ensures r.Some? && "password" in data ==> r.value.password == data["password"]
    ensures r.Some? && "password" !in data ==> r.value.password == data["plaintext"]
  {
    if "username" !in data then None
    else if "password" in data then Some(SaslConfig(data["username"], data["password"]))
    else if "plaintext" in data then Some(SaslConfig(data["username"], data["plaintext"]))
    else None
  }

  /** The outer option is the error, the inner one says whether the cluster has any credentials. */
  method GetAdminCredentials(env: Environment, cluster: Cluster) returns (r: Survival<Option<Option<SaslConfig>>>)
    requires env.Valid() && env.pc.At? && (env.pc.stage.Credentials? || env.pc.stage.DelCredentials?)
    requires env.notes.dial.None?
    modifies env
    ensures env.Valid() && env.Since(old(env.before), old(env.begun), old(env.deaths), r.Dead?)
    ensures r.Dead? ==> env.pc.Idle? && env.notes == old(env.notes)
    ensures r.Alive? ==>
      env.pc == AfterLook(env.cfg, old(env.pc), env.State().entity, Call(if r.value.Some? then Ok else Failed))
    ensures r.Alive? && cluster.adminCredentials.None? ==> r.value == Some(None) && env.notes == old(env.notes)
    ensures r.Alive? && cluster.adminCredentials.Some? ==>
      && env.notes == old(env.notes).(admin := env.notes.admin) && env.notes.admin.Some?
      && var ref, read := cluster.adminCredentials.value, env.notes.admin.value;
      && read.name == ref.name
      && read.namespace == (if ref.namespace == "" then cluster.namespace else ref.namespace)
      && (r.value.Some? <==>
            && read.data.Some? && "username" in read.data.value
            && ("password" in read.data.value || "plaintext" in read.data.value))
      && (r.value.Some? ==>
            r.value.value == Some(SaslConfig(read.data.value["username"],
              if "password" in read.data.value then read.data.value["password"] else read.data.value["plaintext"])))
  {
    if cluster.adminCredentials.None? {
      env.Conclude(Call(Ok));
      return Alive(Some(None));
    }

    var secretNamespace := cluster.adminCredentials.value.namespace;
    if secretNamespace == "" {
      secretNamespace := cluster.namespace;
    }
    var data :- env.GetAdminSecret(cluster.adminCredentials.value.name, secretNamespace);
    var credentials := if data.None? then None else CredentialsIn(data.value);
    env.Conclude(Call(if credentials.Some? then Ok else Failed));
    return Alive(if credentials.Some? then Some(credentials) else None);
  }

  /** Records a failure in the status, whether or not that succeeds, and asks for a retry. */
  method Degrade(env: Environment, o: Resource, requeueAfter: nat) returns (r: Survival<Result>)
    requires env.Valid() && env.pc == At(Commit, Fail(o.Value()), "") && AboutLive(env, o)
    requires requeueAfter == 30 || requeueAfter == 0
    modifies env, o`status
    ensures env.Since(old(env.before), old(env.begun), old(env.deaths), r.Dead?)
    ensures Ended(env, r)
  {
    FailIsNotReady(o.Value());
    o.SetCondition(Degraded, true);
    o.SetCondition(Ready, false);
    var _ :- env.UpdateResourceStatus(o);
    return Alive(Result(false, requeueAfter, true));
  }
}
