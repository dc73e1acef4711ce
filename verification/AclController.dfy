/**
 The reconciler of ACL objects.
 */
module AclController {
  import opened Api
  import opened Broker
  import opened Protocol
  import opened Clusters
  import opened Runtime
  import opened Bufstream
  import opened ControllerHelpers
  import opened Convergence

  const ACL_FINALIZER := "bufstream.buf.build/acl-finalizer"

  class AclReconciler {
    const env: Environment

    constructor (env: Environment)
      ensures this.env == env
    {
      this.env := env;
    }

    /** One reconcile: whatever happens meanwhile, a run of the protocol that begins with one read and ends
        with an idle worker. */
    method Reconcile() returns (r: Survival<Result>)
      requires env.Valid() && env.pc.Idle? && env.cfg.key.entry.AclEntry?
      modifies env
      ensures env.Since(old(env.log), old(env.begun) + 1, old(env.deaths), r.Dead?)
      ensures OneReconcile(env.cfg, env.init, old(env.log), env.log)
      ensures Ended(env, r)
    {
      var got :- env.Get();
      if got.NotFound? {
        return Alive(Result(false, 0, false));
      }
      if got.ReadFailed? {
        return Alive(Result(false, 0, true));
      }
      var acl := got.resource;

      if acl.deleting {
        r := ReconcileDelete(acl);
        return;
      }

      if ACL_FINALIZER !in acl.finalizers {
        acl.AddFinalizer(ACL_FINALIZER);
        var ok :- env.UpdateResource(acl);
        return Alive(Result(ok, 0, !ok));
      }

      r := ReconcileAcl(acl);
    }

    /** Removes the rule from the broker, and only then releases the finalizer. */
    method ReconcileDelete(acl: Resource) returns (r: Survival<Result>)
      requires env.Valid() && acl.deleting && env.cfg.key.entry.AclEntry?
      requires KeyOf(env.cfg.namespace, env.cfg.name, acl.spec) == env.cfg.key
      requires env.pc == Dispatch(env.cfg, acl.Value())
      requires env.notes == NO_NOTES.(found := Some(Some(acl.Value())))
      modifies env, acl
      ensures env.Since(old(env.before), old(env.begun), old(env.deaths), r.Dead?)
      ensures Ended(env, r)
    {
      if ACL_FINALIZER !in acl.finalizers {
        return Alive(Result(false, 0, false));
      }

      var cluster :- env.GetCluster(acl.spec.cluster, env.cfg.namespace);
      if cluster.None? {
        return Alive(Result(false, REQUEUE_DEGRADED, true));
      }
      if !IsClusterReady(cluster.value.conditions) {
        return Alive(Result(false, CLUSTER_NOT_READY_REQUEUE, false));
      }

      r := ConnectAndRemove(acl, cluster.value);
    }

    /** The part of a deletion behind the gate. */
    method ConnectAndRemove(acl: Resource, cluster: Cluster) returns (r: Survival<Result>)
      requires env.Valid() && acl.deleting && ACL_FINALIZER in acl.finalizers && env.cfg.key.entry.AclEntry?
      requires KeyOf(env.cfg.namespace, env.cfg.name, acl.spec) == env.cfg.key
      requires env.pc == At(DelCredentials, acl.Value(), "")
      requires About(env, acl) && PastGate(env, cluster) && env.notes.dial.None?
      modifies env, acl
      ensures env.Since(old(env.before), old(env.begun), old(env.deaths), r.Dead?)
      ensures Ended(env, r)
    {
      var saslConfig :- GetAdminCredentials(env, cluster);
      if saslConfig.None? {
        return Alive(Result(false, REQUEUE_DEGRADED, true));
      }

      var bsClient :- Client.NewClient(env, cluster.bootstrapServers, saslConfig.value);
      if bsClient.None? {
        return Alive(Result(false, REQUEUE_DEGRADED, true));
      }

      r := RemoveAndRelease(acl, bsClient.value);
    }

    /** The end of a deletion: the rule is removed, and then the finalizer released. */
    method RemoveAndRelease(acl: Resource, bsClient: Client) returns (r: Survival<Result>)
      requires env.Valid() && acl.deleting && ACL_FINALIZER in acl.finalizers && env.cfg.key.entry.AclEntry?
      requires KeyOf(env.cfg.namespace, env.cfg.name, acl.spec) == env.cfg.key && bsClient.env == env
      requires env.pc == At(DelRemove, acl.Value(), "")
      requires About(env, acl) && SawReady(env.notes)
      modifies env, acl
      ensures env.Since(old(env.before), old(env.begun), old(env.deaths), r.Dead?)
      ensures Ended(env, r)
    {
      var aclConfig := ToAclConfig(acl);
      var deleted :- bsClient.DeleteAcl(aclConfig);
      if !deleted {
        return Alive(Result(false, REQUEUE_DEGRADED, true));
      }

      acl.RemoveFinalizer(ACL_FINALIZER);
      var ok :- env.UpdateResource(acl);
      return Alive(Result(false, 0, !ok));
    }

    /** Creates the rule, and records the outcome in the status. */
    method ReconcileAcl(acl: Resource) returns (r: Survival<Result>)
      requires env.Valid() && !acl.deleting && ACL_FINALIZER in acl.finalizers && env.cfg.key.entry.AclEntry?
      requires KeyOf(env.cfg.namespace, env.cfg.name, acl.spec) == env.cfg.key
      requires env.pc == Dispatch(env.cfg, acl.Value())
      requires env.notes == NO_NOTES.(found := Some(Some(acl.Value())))
      modifies env, acl
      ensures env.Since(old(env.before), old(env.begun), old(env.deaths), r.Dead?)
      ensures Ended(env, r)
    {
      if acl.status.observedGeneration == acl.generation {
        var readyCondition := FindStatusCondition(acl.status.conditions, Ready);
        if readyCondition.Some? && readyCondition.value.status {
          return Alive(Result(false, REQUEUE_HEALTHY, false));
        }
      }

      var cluster :- env.GetCluster(acl.spec.cluster, env.cfg.namespace);
      if cluster.None? {
        r := Degrade(env, acl, REQUEUE_DEGRADED);
        return;
      }
      if !IsClusterReady(cluster.value.conditions) {
        return Alive(Result(false, CLUSTER_NOT_READY_REQUEUE, false));
      }

      acl.SetCondition(Progressing, true);
      r := ConnectAndApply(acl, cluster.value);
    }

    /** The part of a reconcile behind the gate. */
    method ConnectAndApply(acl: Resource, cluster: Cluster) returns (r: Survival<Result>)
      requires env.Valid() && env.cfg.key.entry.AclEntry?
      requires KeyOf(env.cfg.namespace, env.cfg.name, acl.spec) == env.cfg.key
      requires env.pc == At(Credentials, acl.Value(), "")
      requires AboutLive(env, acl) && PastGate(env, cluster) && env.notes.dial.None?
      modifies env, acl
      ensures env.Since(old(env.before), old(env.begun), old(env.deaths), r.Dead?)
      ensures Ended(env, r)
    {
      var saslConfig :- GetAdminCredentials(env, cluster);
      if saslConfig.None? {
        r := Degrade(env, acl, REQUEUE_DEGRADED);
        return;
      }

      var bsClient :- Client.NewClient(env, cluster.bootstrapServers, saslConfig.value);
      if bsClient.None? {
        r := Degrade(env, acl, REQUEUE_DEGRADED);
        return;
      }

      r := ApplyAcl(acl, bsClient.value);
    }

    /** The part of a reconcile that creates the rule. */
    method ApplyAcl(acl: Resource, bsClient: Client) returns (r: Survival<Result>)
      requires env.Valid() && bsClient.env == env && env.cfg.key.entry.AclEntry?
      requires KeyOf(env.cfg.namespace, env.cfg.name, acl.spec) == env.cfg.key
      requires env.pc == At(Upsert, acl.Value(), "")
      requires AboutLive(env, acl)
      modifies env, acl
      ensures env.Since(old(env.before), old(env.begun), old(env.deaths), r.Dead?)
      ensures Ended(env, r)
    {
      var aclConfig := ToAclConfig(acl);
      var created :- bsClient.CreateAcl(aclConfig);
      if !created {
        r := Degrade(env, acl, REQUEUE_DEGRADED);
        return;
      }

      r := MarkReady(acl);
    }

    /** The success part of the status. */
    method MarkReady(acl: Resource) returns (r: Survival<Result>)
      requires env.Valid() && env.pc == At(Commit, Success(env.cfg, acl.Value()), "") && acl.spec.AclSpec?
      requires AboutLive(env, acl)
      modifies env, acl
      ensures env.Since(old(env.before), old(env.begun), old(env.deaths), r.Dead?)
      ensures Ended(env, r)
    {
      SuccessIsReady(env.cfg, acl.Value());
      acl.status := acl.status.(observedGeneration := acl.generation);
      acl.SetCondition(Progressing, false);
      acl.SetCondition(Degraded, false);
      acl.SetCondition(Ready, true);

      var ok :- env.UpdateResourceStatus(acl);
      if !ok {
        return Alive(Result(false, 0, true));
      }
      return Alive(Result(false, REQUEUE_HEALTHY, false));
    }

    /** The library's configuration for the spec, enumeration by enumeration. */
    method ToAclConfig(acl: Resource) returns (config: AclConfig)
      requires acl.spec.AclSpec?
      ensures Represents(config, acl.spec)
    {
      config := AclConfig(acl.spec.principal, acl.spec.host, 0, acl.spec.resource.name, 0, 0, 0);

      match acl.spec.resource.rtype {
        case "Group" => config := config.(resourceType := ACL_RESOURCE_GROUP);
        case "Cluster" => config := config.(resourceType := ACL_RESOURCE_CLUSTER);
        case "TransactionalId" => config := config.(resourceType := ACL_RESOURCE_TRANSACTIONAL_ID);
        case _ => config := config.(resourceType := ACL_RESOURCE_TOPIC);
      }

      match acl.spec.resource.patternType {
        case "Prefixed" => config := config.(resourcePattern := ACL_PATTERN_PREFIXED);
        case _ => config := config.(resourcePattern := ACL_PATTERN_LITERAL);
      }

      match acl.spec.permission {
        case "Deny" => config := config.(permission := ACL_PERMISSION_DENY);
        case _ => config := config.(permission := ACL_PERMISSION_ALLOW);
      }

      var operation := MapOperation(acl.spec.operation);
      config := config.(operation := operation);
    }

    method MapOperation(operation: string) returns (n: int)
      ensures n == OperationNumber(OperationOf(operation))
    {
      n := 0;
      match operation {
        case "Read" => n := ACL_OPERATION_READ;
        case "Write" => n := ACL_OPERATION_WRITE;
        case "Create" => n := ACL_OPERATION_CREATE;
        case "Delete" => n := ACL_OPERATION_DELETE;
        case "Alter" => n := ACL_OPERATION_ALTER;
        case "Describe" => n := ACL_OPERATION_DESCRIBE;
        case "ClusterAction" => n := ACL_OPERATION_CLUSTER_ACTION;
        case "DescribeConfigs" => n := ACL_OPERATION_DESCRIBE_CONFIGS;
        case "AlterConfigs" => n := ACL_OPERATION_ALTER_CONFIGS;
        case "IdempotentWrite" => n := ACL_OPERATION_IDEMPOTENT_WRITE;
        case "All" => n := ACL_OPERATION_ALL;
        case _ =>
      }
    }
  }
}
