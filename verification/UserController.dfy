/**
 The reconciler of User objects.
 */
module UserController {
  import opened Api
  import opened Broker
  import opened Protocol
  import opened Clusters
  import opened Runtime
  import opened Bufstream
  import opened ControllerHelpers
  import opened Convergence

  const USER_FINALIZER := "bufstream.buf.build/user-finalizer"

  class UserReconciler {
    const env: Environment

    constructor (env: Environment)
      ensures this.env == env
    {
      this.env := env;
    }

    /** One reconcile: whatever happens meanwhile, a run of the protocol that begins with one read and ends
        with an idle worker. */
    method Reconcile() returns (r: Survival<Result>)
      requires env.Valid() && env.pc.Idle? && env.cfg.key.entry.CredentialEntry?
      modifies env
      ensures env.Since(old(env.log), old(env.begun) + 1, old(env.deaths), r.Dead?)
      ensures OneReconcile(env.cfg, env.init, old(env.log), env.log)
      ensures Ended(env, r)
    {
      var got :- env.Get();
      if got.NotFound? {
        return Alive(Result(false, 0, false));
      }
      if got.ReadFailed? {
        return Alive(Result(false, 0, true));
      }
      var user := got.resource;

      if user.deleting {
        r := ReconcileDelete(user);
        return;
      }

      if USER_FINALIZER !in user.finalizers {
        user.AddFinalizer(USER_FINALIZER);
        var ok :- env.UpdateResource(user);
        return Alive(Result(ok, 0, !ok));
      }

      r := ReconcileUser(user);
    }

    /** Removes the credential from the broker, and only then releases the finalizer. */
    method ReconcileDelete(user: Resource) returns (r: Survival<Result>)
      requires env.Valid() && user.deleting && env.cfg.key.entry.CredentialEntry?
      requires KeyOf(env.cfg.namespace, env.cfg.name, user.spec) == env.cfg.key
      requires env.pc == Dispatch(env.cfg, user.Value())
      requires env.notes == NO_NOTES.(found := Some(Some(user.Value())))
      modifies env, user
      ensures env.Since(old(env.before), old(env.begun), old(env.deaths), r.Dead?)
      ensures Ended(env, r)
    {
      if USER_FINALIZER !in user.finalizers {
        return Alive(Result(false, 0, false));
      }

      var cluster :- env.GetCluster(user.spec.cluster, env.cfg.namespace);
      if cluster.None? {
        return Alive(Result(false, REQUEUE_DEGRADED, true));
      }
      if !IsClusterReady(cluster.value.conditions) {
        return Alive(Result(false, CLUSTER_NOT_READY_REQUEUE, false));
      }

      r := ConnectAndRemove(user, cluster.value);
    }

    /** The part of a deletion behind the gate. */
    method ConnectAndRemove(user: Resource, cluster: Cluster) returns (r: Survival<Result>)
      requires env.Valid() && user.deleting && USER_FINALIZER in user.finalizers && env.cfg.key.entry.CredentialEntry?
      requires KeyOf(env.cfg.namespace, env.cfg.name, user.spec) == env.cfg.key
      requires env.pc == At(DelCredentials, user.Value(), "")
      requires About(env, user) && PastGate(env, cluster) && env.notes.dial.None?
      modifies env, user
      ensures env.Since(old(env.before), old(env.begun), old(env.deaths), r.Dead?)
      ensures Ended(env, r)
    {
      var saslConfig :- GetAdminCredentials(env, cluster);
      if saslConfig.None? {
        return Alive(Result(false, REQUEUE_DEGRADED, true));
      }

      var bsClient :- Client.NewClient(env, cluster.bootstrapServers, saslConfig.value);
      if bsClient.None? {
        return Alive(Result(false, REQUEUE_DEGRADED, true));
      }

      r := RemoveAndRelease(user, bsClient.value);
    }

    /** The end of a deletion: the credential is removed, and then the finalizer released. */
    method RemoveAndRelease(user: Resource, bsClient: Client) returns (r: Survival<Result>)
      requires env.Valid() && user.deleting && USER_FINALIZER in user.finalizers && env.cfg.key.entry.CredentialEntry?
      requires KeyOf(env.cfg.namespace, env.cfg.name, user.spec) == env.cfg.key && bsClient.env == env
      requires env.pc == At(DelRemove, user.Value(), "")
      requires About(env, user) && SawReady(env.notes)
      modifies env, user
      ensures env.Since(old(env.before), old(env.begun), old(env.deaths), r.Dead?)
      ensures Ended(env, r)
    {
      var username := GetUsername(user);
      var mechanism := GetMechanism(user);
      var deleted :- bsClient.DeleteUserCredentials(username, mechanism);
      if !deleted {
        return Alive(Result(false, REQUEUE_DEGRADED, true));
      }

      user.RemoveFinalizer(USER_FINALIZER);
      var ok :- env.UpdateResource(user);
      return Alive(Result(false, 0, !ok));
    }

    /** Upserts the credential, and records the outcome in the status. */
    method ReconcileUser(user: Resource) returns (r: Survival<Result>)
      requires env.Valid() && !user.deleting && USER_FINALIZER in user.finalizers && env.cfg.key.entry.CredentialEntry?
      requires KeyOf(env.cfg.namespace, env.cfg.name, user.spec) == env.cfg.key
      requires env.pc == Dispatch(env.cfg, user.Value())
      requires env.notes == NO_NOTES.(found := Some(Some(user.Value())))
      modifies env, user
      ensures env.Since(old(env.before), old(env.begun), old(env.deaths), r.Dead?)
      ensures Ended(env, r)
    {
      if user.status.observedGeneration == user.generation {
        var readyCondition := FindStatusCondition(user.status.conditions, Ready);
        if readyCondition.Some? && readyCondition.value.status {
          return Alive(Result(false, REQUEUE_HEALTHY, false));
        }
      }

      var cluster :- env.GetCluster(user.spec.cluster, env.cfg.namespace);
      if cluster.None? {
        r := Degrade(env, user, REQUEUE_DEGRADED);
        return;
      }
      if !IsClusterReady(cluster.value.conditions) {
        return Alive(Result(false, CLUSTER_NOT_READY_REQUEUE, false));
      }

      user.SetCondition(Progressing, true);
      r := ConnectAndApply(user, cluster.value);
    }

    /** The part of a reconcile behind the gate, up to the upsert. */
    method ConnectAndApply(user: Resource, cluster: Cluster) returns (r: Survival<Result>)
      requires env.Valid() && env.cfg.key.entry.CredentialEntry?
      requires KeyOf(env.cfg.namespace, env.cfg.name, user.spec) == env.cfg.key
      requires env.pc == At(Credentials, user.Value(), "")
      requires AboutLive(env, user) && PastGate(env, cluster) && env.notes.dial.None?
      modifies env, user
      ensures env.Since(old(env.before), old(env.begun), old(env.deaths), r.Dead?)
      ensures Ended(env, r)
    {
      var saslConfig :- GetAdminCredentials(env, cluster);
      if saslConfig.None? {
        r := Degrade(env, user, REQUEUE_DEGRADED);
        return;
      }

      var password :- GetPassword(user);
      if password.None? {
        r := Degrade(env, user, REQUEUE_DEGRADED);
        return;
      }

      r := ConnectWith(user, cluster, saslConfig.value, password.value);
    }

    /** The part of a reconcile that connects, and upserts. */
    method ConnectWith(user: Resource, cluster: Cluster, saslConfig: Option<SaslConfig>, password: string)
      returns (r: Survival<Result>)
      requires env.Valid() && env.cfg.key.entry.CredentialEntry?
      requires KeyOf(env.cfg.namespace, env.cfg.name, user.spec) == env.cfg.key
      requires env.pc == At(Connect, user.Value(), password)
      requires AboutLive(env, user) && PastGate(env, cluster)
      requires WellDialed(env.notes, cluster.bootstrapServers, saslConfig)
      modifies env, user
      ensures env.Since(old(env.before), old(env.begun), old(env.deaths), r.Dead?)
      ensures Ended(env, r)
    {
      var bsClient :- Client.NewClient(env, cluster.bootstrapServers, saslConfig);
      if bsClient.None? {
        r := Degrade(env, user, REQUEUE_DEGRADED);
        return;
      }
      r := ApplyUser(user, password, bsClient.value);
    }

    /** The part of a reconcile that upserts the credential. */
    method ApplyUser(user: Resource, password: string, bsClient: Client) returns (r: Survival<Result>)
      requires env.Valid() && bsClient.env == env && env.cfg.key.entry.CredentialEntry?
      requires KeyOf(env.cfg.namespace, env.cfg.name, user.spec) == env.cfg.key
      requires env.pc == At(Upsert, user.Value(), password)
      requires AboutLive(env, user)
      modifies env, user
      ensures env.Since(old(env.before), old(env.begun), old(env.deaths), r.Dead?)
      ensures Ended(env, r)
    {
      var username := GetUsername(user);
      var mechanism := GetMechanism(user);
      var iterations := user.spec.iterations;
      if iterations == 0 {
        iterations := 4096;
      }
      var creds := UserCredentials(username, password, mechanism, iterations);
      var upserted :- bsClient.UpsertUserCredentials(creds);
      if !upserted {
        r := Degrade(env, user, REQUEUE_DEGRADED);
        return;
      }

      r := MarkReady(user, username);
    }

    /** The success part of the status. */
    method MarkReady(user: Resource, username: string) returns (r: Survival<Result>)
      requires env.Valid() && env.pc == At(Commit, Success(env.cfg, user.Value()), "")
      requires user.spec.UserSpec? && username == OrName(user.spec.username, env.cfg.name)
      requires AboutLive(env, user)
      modifies env, user
      ensures env.Since(old(env.before), old(env.begun), old(env.deaths), r.Dead?)
      ensures Ended(env, r)
    {
      SuccessIsReady(env.cfg, user.Value());
      user.status := user.status.(observedGeneration := user.generation);
      user.status := user.status.(detail := UserDetail(username, user.spec.mechanism));
      if user.status.detail.mechanism == "" {
        user.status := user.status.(detail := UserDetail(username, "SCRAM-SHA-512"));
      }

      user.SetCondition(Degraded, false);
      user.SetCondition(Progressing, false);
      user.SetCondition(Ready, true);

      var ok :- env.UpdateResourceStatus(user);
      if !ok {
        return Alive(Result(false, 0, true));
      }
      return Alive(Result(false, REQUEUE_HEALTHY, false));
    }

    /** The password in the user's Secret, under the named key or under "password". */
    method GetPassword(user: Resource) returns (r: Survival<Option<string>>)
      requires env.Valid() && env.pc.At? && env.pc.stage.Password? && user.spec.UserSpec?
      requires About(env, user)
      modifies env
      ensures env.Valid() && env.Since(old(env.before), old(env.begun), old(env.deaths), r.Dead?)
      ensures r.Dead? ==> env.pc.Idle? && env.notes == old(env.notes)
      ensures r.Alive? ==>
        && env.notes == old(env.notes).(user := env.notes.user) && env.notes.user.Some?
        && env.notes.user.value.name == user.spec.secretName && env.notes.user.value.namespace == env.cfg.namespace
        && var data := env.notes.user.value.data;
        && var key := if user.spec.secretKey == "" then "password" else user.spec.secretKey;
        && r.value == (if data.Some? && key in data.value then Some(data.value[key]) else None)
        && env.pc == AfterLook(env.cfg, old(env.pc), None, SecretIs(data))
    {
      var secret :- env.GetUserSecret(user.spec.secretName, env.cfg.namespace);
      if secret.None? {
        return Alive(None);
      }
      var key := user.spec.secretKey;
      if key == "" {
        key := "password";
      }
      if key !in secret.value {
        return Alive(None);
      }
      return Alive(Some(secret.value[key]));
    }

    function GetUsername(user: Resource): string
      reads user
      requires user.spec.UserSpec?
    {
      if user.spec.username != "" then user.spec.username else env.cfg.name
    }

    /** The library's mechanism for the spec's; it is the one in the key of the credential. */
    function GetMechanism(user: Resource): (m: int)
      reads user
      requires user.spec.UserSpec?
      ensures MechanismNumbered(m) == MechanismOf(user.spec.mechanism)
    {
      if user.spec.mechanism == "SCRAM-SHA-256" then SCRAM_SHA_256
      else if user.spec.mechanism == "SCRAM-SHA-512" then SCRAM_SHA_512
      else SCRAM_SHA_512
    }
  }
}
