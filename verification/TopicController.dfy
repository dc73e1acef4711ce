/**
 The reconciler of Topic objects.
 */
module TopicController {
  import opened Api
  import opened Broker
  import opened Protocol
  import opened Clusters
  import opened Runtime
  import opened Bufstream
  import opened ControllerHelpers
  import opened Convergence

  const TOPIC_FINALIZER := "bufstream.buf.build/topic-finalizer"

  class TopicReconciler {
    const env: Environment

    constructor (env: Environment)
      ensures this.env == env
    {
      this.env := env;
    }

    /** One reconcile: whatever happens meanwhile, a run of the protocol that begins with one read and ends
        with an idle worker. */
    method Reconcile() returns (r: Survival<Result>)
      requires env.Valid() && env.pc.Idle? && env.cfg.key.entry.TopicEntry?
      modifies env
      ensures env.Since(old(env.log), old(env.begun) + 1, old(env.deaths), r.Dead?)
      ensures OneReconcile(env.cfg, env.init, old(env.log), env.log)
      ensures Ended(env, r)
    {
      var got :- env.Get();
      if got.NotFound? {
        return Alive(Result(false, 0, false));
      }
      if got.ReadFailed? {
        return Alive(Result(false, 0, true));
      }
      var topic := got.resource;

      if topic.deleting {
        r := ReconcileDelete(topic);
        return;
      }

      if TOPIC_FINALIZER !in topic.finalizers {
        topic.AddFinalizer(TOPIC_FINALIZER);
        var ok :- env.UpdateResource(topic);
        return Alive(Result(ok, 0, !ok));
      }

      r := ReconcileTopic(topic);
    }

    /** Removes the topic from the broker, and only then releases the finalizer. */
    method ReconcileDelete(topic: Resource) returns (r: Survival<Result>)
      requires env.Valid() && topic.deleting && env.cfg.key.entry.TopicEntry?
      requires KeyOf(env.cfg.namespace, env.cfg.name, topic.spec) == env.cfg.key
      requires env.pc == Dispatch(env.cfg, topic.Value())
      requires env.notes == NO_NOTES.(found := Some(Some(topic.Value())))
      modifies env, topic
      ensures env.Since(old(env.before), old(env.begun), old(env.deaths), r.Dead?)
      ensures Ended(env, r)
    {
      if TOPIC_FINALIZER !in topic.finalizers {
        return Alive(Result(false, 0, false));
      }

      var cluster :- env.GetCluster(topic.spec.cluster, env.cfg.namespace);
      if cluster.None? {
        return Alive(Result(false, REQUEUE_DEGRADED, true));
      }
      if !IsClusterReady(cluster.value.conditions) {
        return Alive(Result(false, CLUSTER_NOT_READY_REQUEUE, false));
      }

      r := ConnectAndRemove(topic, cluster.value);
    }

    /** The part of a deletion behind the gate. */
    method ConnectAndRemove(topic: Resource, cluster: Cluster) returns (r: Survival<Result>)
      requires env.Valid() && topic.deleting && TOPIC_FINALIZER in topic.finalizers && env.cfg.key.entry.TopicEntry?
      requires KeyOf(env.cfg.namespace, env.cfg.name, topic.spec) == env.cfg.key
      requires env.pc == At(DelCredentials, topic.Value(), "")
      requires About(env, topic) && PastGate(env, cluster) && env.notes.dial.None?
      modifies env, topic
      ensures env.Since(old(env.before), old(env.begun), old(env.deaths), r.Dead?)
      ensures Ended(env, r)
    {
      var saslConfig :- GetAdminCredentials(env, cluster);
      if saslConfig.None? {
        return Alive(Result(false, REQUEUE_DEGRADED, true));
      }

      var bsClient :- Client.NewClient(env, cluster.bootstrapServers, saslConfig.value);
      if bsClient.None? {
        return Alive(Result(false, REQUEUE_DEGRADED, true));
      }

      r := RemoveAndRelease(topic, bsClient.value);
    }

    /** The end of a deletion: the topic is removed, and then the finalizer released. */
    method RemoveAndRelease(topic: Resource, bsClient: Client) returns (r: Survival<Result>)
      requires env.Valid() && topic.deleting && TOPIC_FINALIZER in topic.finalizers && env.cfg.key.entry.TopicEntry?
      requires KeyOf(env.cfg.namespace, env.cfg.name, topic.spec) == env.cfg.key && bsClient.env == env
      requires env.pc == At(DelRemove, topic.Value(), "")
      requires About(env, topic) && SawReady(env.notes)
      modifies env, topic
      ensures env.Since(old(env.before), old(env.begun), old(env.deaths), r.Dead?)
      ensures Ended(env, r)
    {
      var topicName := GetTopicName(topic);
      var deleted :- bsClient.DeleteTopic(topicName);
      if !deleted {
        return Alive(Result(false, REQUEUE_DEGRADED, true));
      }

      topic.RemoveFinalizer(TOPIC_FINALIZER);
      var ok :- env.UpdateResource(topic);
      return Alive(Result(false, 0, !ok));
    }

    /** Creates or updates the topic, and records the outcome in the status. */
    method ReconcileTopic(topic: Resource) returns (r: Survival<Result>)
      requires env.Valid() && !topic.deleting && TOPIC_FINALIZER in topic.finalizers && env.cfg.key.entry.TopicEntry?
      requires KeyOf(env.cfg.namespace, env.cfg.name, topic.spec) == env.cfg.key
      requires env.pc == Dispatch(env.cfg, topic.Value())
      requires env.notes == NO_NOTES.(found := Some(Some(topic.Value())))
      modifies env, topic
      ensures env.Since(old(env.before), old(env.begun), old(env.deaths), r.Dead?)
      ensures Ended(env, r)
    {
      if topic.status.observedGeneration == topic.generation {
        var readyCondition := FindStatusCondition(topic.status.conditions, Ready);
        if readyCondition.Some? && readyCondition.value.status {
          return Alive(Result(false, REQUEUE_HEALTHY, false));
        }
      }

      var cluster :- env.GetCluster(topic.spec.cluster, env.cfg.namespace);
      if cluster.None? {
        r := Degrade(env, topic, REQUEUE_DEGRADED);
        return;
      }
      if !IsClusterReady(cluster.value.conditions) {
        return Alive(Result(false, CLUSTER_NOT_READY_REQUEUE, false));
      }

      topic.SetCondition(Progressing, true);
      r := ConnectAndApply(topic, cluster.value);
    }

    /** The part of a reconcile behind the gate, up to a healthy connection. */
    method ConnectAndApply(topic: Resource, cluster: Cluster) returns (r: Survival<Result>)
      requires env.Valid() && env.cfg.key.entry.TopicEntry?
      requires KeyOf(env.cfg.namespace, env.cfg.name, topic.spec) == env.cfg.key
      requires env.pc == At(Credentials, topic.Value(), "")
      requires AboutLive(env, topic) && PastGate(env, cluster) && env.notes.dial.None?
      modifies env, topic
      ensures env.Since(old(env.before), old(env.begun), old(env.deaths), r.Dead?)
      ensures Ended(env, r)
    {
      var saslConfig :- GetAdminCredentials(env, cluster);
      if saslConfig.None? {
        r := Degrade(env, topic, REQUEUE_DEGRADED);
        return;
      }

      var bsClient :- Client.NewClient(env, cluster.bootstrapServers, saslConfig.value);
      if bsClient.None? {
        r := Degrade(env, topic, REQUEUE_DEGRADED);
        return;
      }

      r := CheckAndApply(topic, bsClient.value);
    }

    /** The part of a reconcile behind the connection: the health check, and then the topic. */
    method CheckAndApply(topic: Resource, bsClient: Client) returns (r: Survival<Result>)
      requires env.Valid() && bsClient.env == env && env.cfg.key.entry.TopicEntry?
      requires KeyOf(env.cfg.namespace, env.cfg.name, topic.spec) == env.cfg.key
      requires env.pc == At(Health, topic.Value(), "")
      requires AboutLive(env, topic)
      modifies env, topic
      ensures env.Since(old(env.before), old(env.begun), old(env.deaths), r.Dead?)
      ensures Ended(env, r)
    {
      var healthy :- bsClient.CheckHealth();
      if !healthy {
        r := Degrade(env, topic, REQUEUE_DEGRADED);
        return;
      }

      r := ApplyTopic(topic, bsClient);
    }

    /** The part of a reconcile that looks for the topic, and creates or updates it. */
    method ApplyTopic(topic: Resource, bsClient: Client) returns (r: Survival<Result>)
      requires env.Valid() && bsClient.env == env && env.cfg.key.entry.TopicEntry?
      requires KeyOf(env.cfg.namespace, env.cfg.name, topic.spec) == env.cfg.key
      requires env.pc == At(Exists, topic.Value(), "")
      requires AboutLive(env, topic)
      modifies env, topic
      ensures env.Since(old(env.before), old(env.begun), old(env.deaths), r.Dead?)
      ensures Ended(env, r)
    {
      var topicName := GetTopicName(topic);

      var existence :- bsClient.TopicExists(topicName);
      if existence.CheckFailed? {
        r := Degrade(env, topic, REQUEUE_DEGRADED);
        return;
      }

      if existence.Absent? {
        var config := TopicConfig(topicName, topic.spec.partitions, ToInt16(topic.spec.replicationFactor),
                                  topic.spec.config);
        var created :- bsClient.CreateTopic(config);
        if !created {
          r := Degrade(env, topic, REQUEUE_DEGRADED);
          return;
        }
        r := MarkReady(topic, topicName);
      } else {
        r := UpdateExisting(topic, topicName, bsClient, existence.info);
      }
    }

    /** The part of a reconcile that updates a topic which exists, if it may. */
    method UpdateExisting(topic: Resource, topicName: string, bsClient: Client, currentInfo: TopicInfo)
      returns (r: Survival<Result>)
      requires env.Valid() && bsClient.env == env && env.cfg.key.entry == TopicEntry(topicName)
      requires KeyOf(env.cfg.namespace, env.cfg.name, topic.spec) == env.cfg.key
      requires Reports(currentInfo, env.State().entity)
      requires env.pc == AfterExists(env.cfg, At(Exists, topic.Value(), ""), env.State().entity)
      requires AboutLive(env, topic)
      modifies env, topic
      ensures env.Since(old(env.before), old(env.begun), old(env.deaths), r.Dead?)
      ensures Ended(env, r)
    {
      if !topic.spec.assumeOwnership {
        r := Degrade(env, topic, 0);
        return;
      }
      var desiredReplicas := ToInt16(topic.spec.replicationFactor);
      if desiredReplicas == 0 {
        desiredReplicas := 1;
      }
      var updated :- bsClient.UpdateTopic(topicName, topic.spec.partitions, desiredReplicas, currentInfo,
                                          topic.spec.config, At(Exists, topic.Value(), ""));
      if !updated {
        r := Degrade(env, topic, REQUEUE_DEGRADED);
        return;
      }
      r := MarkReady(topic, topicName);
    }

    /** The success part of the status. */
    method MarkReady(topic: Resource, topicName: string) returns (r: Survival<Result>)
      requires env.Valid() && env.pc == At(Commit, Success(env.cfg, topic.Value()), "")
      requires topic.spec.TopicSpec? && topicName == OrName(topic.spec.topicName, env.cfg.name)
      requires AboutLive(env, topic)
      modifies env, topic
      ensures env.Since(old(env.before), old(env.begun), old(env.deaths), r.Dead?)
      ensures Ended(env, r)
    {
      SuccessIsReady(env.cfg, topic.Value());
      topic.status := topic.status.(observedGeneration := topic.generation);
      topic.status := topic.status.(
        detail := TopicDetail(topicName, topic.spec.partitions, topic.spec.replicationFactor));

      topic.SetCondition(Degraded, false);
      topic.SetCondition(Progressing, false);
      topic.SetCondition(Ready, true);

      var ok :- env.UpdateResourceStatus(topic);
      if !ok {
        return Alive(Result(false, 0, true));
      }
      return Alive(Result(false, REQUEUE_HEALTHY, false));
    }

    function GetTopicName(topic: Resource): string
      reads topic
      requires topic.spec.TopicSpec?
    {
      if topic.spec.topicName != "" then topic.spec.topicName else env.cfg.name
    }
  }
}
