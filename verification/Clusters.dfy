/**
 The Cluster resource: the readiness that gates every write to a broker, the administrator's
 credentials, and the reconciler that keeps the readiness up to date.
 */
module Clusters {
  import opened Api

  datatype CredentialsRef = CredentialsRef(name: string, namespace: string)

  datatype Cluster = Cluster(resourceVersion: nat, generation: nat, namespace: string, deleting: bool,
                             bootstrapServers: string,
                             adminCredentials: Option<CredentialsRef>,
                             observedGeneration: nat, conditions: seq<Condition>)

  datatype SaslConfig = SaslConfig(username: string, password: string)

  function ConditionsOf(cluster: Option<Cluster>): Option<seq<Condition>> {
    if cluster.Some? then Some(cluster.value.conditions) else None
  }
}
