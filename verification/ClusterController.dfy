/**
 The reconciler of Cluster objects: it produces the readiness that gates every write of the other
 reconcilers. Whichever version of a Cluster they read, the gate lets them pass exactly if the check
 recorded in that version found the cluster usable.
 */
module ClusterController {
  import opened Api
  import opened Broker
  import opened Protocol
  import opened Clusters
  import opened ControllerHelpers

  const CLUSTER_HEALTH_CHECK_INTERVAL := 10

  /** What one check of a cluster can find out: the Secret with the credentials, if the cluster names one,
      whether a connection succeeds, and whether listing the topics succeeds. */
  datatype Findings = Findings(secret: Option<map<string, string>>, connects: bool, healthy: bool)

  /** The cluster can be used. */
  predicate Usable(cluster: Cluster, f: Findings) {
    && (cluster.adminCredentials.None? || (f.secret.Some? && CredentialsIn(f.secret.value).Some?))
    && f.connects && f.healthy
  }

  /** A check: the version that was read, and what was found out about it. */
  datatype Check = Check(cluster: Cluster, findings: Findings)

  /** The conditions of a cluster after its last check, if there was one. */
  function Told(check: Option<Check>): seq<Condition> {
    if check.None? then []
    else [Condition(Ready, Usable(check.value.cluster, check.value.findings), check.value.cluster.generation)]
  }

  class ClusterReconciler {
    var versions: seq<Option<Cluster>>        // as stored by the API server, oldest first; None is absence
    ghost var checks: seq<Option<Check>>      // the last check before each version

    constructor ()
      ensures Valid() && versions == [None]
    {
      versions, checks := [None], [None];
    }

    ghost predicate Valid()
      reads this
    {
      && |versions| == |checks| > 0
      && forall i :: 0 <= i < |versions| && versions[i].Some? ==>
           versions[i].value.resourceVersion == i && versions[i].value.conditions == Told(checks[i])
    }

    function Stored(): Option<Cluster>
      requires |versions| > 0
      reads this
    {
      versions[|versions| - 1]
    }

    /** The gate of the other reconcilers, on whatever version they have read: it lets them pass exactly if
        the recorded check connected, found the broker healthy, and, if the cluster names a Secret, found a
        user name and a password in it. */
    lemma GateReadsCheck(i: nat, c: Config, pc: PC, e: Option<Entity>)
      requires Valid() && i < |versions| && pc.At? && (pc.stage.GateCluster? || pc.stage.DelCluster?)
      ensures var next := AfterLook(c, pc, e, ClusterIs(ConditionsOf(versions[i])));
        (next.At? && (next.stage.Credentials? || next.stage.DelCredentials?))
        <==> (&& versions[i].Some? && checks[i].Some?
              && checks[i].value.findings.connects && checks[i].value.findings.healthy
              && (checks[i].value.cluster.adminCredentials.None?
                  || (&& checks[i].value.findings.secret.Some?
                      && var data := checks[i].value.findings.secret.value;
                      "username" in data && ("password" in data || "plaintext" in data))))
    {
      if versions[i].Some? {
        assert versions[i].value.conditions == Told(checks[i]);
      }
    }

    /** A stored Ready condition is the outcome of a check, at the generation that was checked. */
    lemma ReadyWasChecked(i: nat)
      requires Valid() && i < |versions| && versions[i].Some? && versions[i].value.conditions != []
      ensures checks[i].Some?
      ensures var check, f := checks[i].value, checks[i].value.findings;
        var usable := f.connects && f.healthy && (check.cluster.adminCredentials.Some? ==>
          f.secret.Some? && "username" in f.secret.value
          && ("password" in f.secret.value || "plaintext" in f.secret.value));
        versions[i].value.conditions == [Condition(Ready, usable, check.cluster.generation)]
    {
      assert versions[i].value.conditions == Told(checks[i]);
    }

    /** Somebody creates, edits or deletes the object; the version and the status are not theirs to write. */
    method Edit(next: Option<Cluster>)
      requires Valid()
      modifies this
      ensures Valid() && |versions| == old(|versions|) + 1 && old(versions) <= versions
      ensures Stored() == (if next.None? then None else Some(next.value.(
        resourceVersion := old(|versions|),
        observedGeneration := if old(Stored()).Some? then old(Stored()).value.observedGeneration else 0,
        conditions := if old(Stored()).Some? then old(Stored()).value.conditions else [])))
    {
      var was := Stored();
      var check := if was.Some? then checks[|checks| - 1] else None;
      if next.None? {
        versions := versions + [None];
      } else {
        versions := versions + [Some(next.value.(
          resourceVersion := |versions|,
          observedGeneration := if was.Some? then was.value.observedGeneration else 0,
          conditions := if was.Some? then was.value.conditions else []))];
      }
      checks := checks + [check];
    }

    /** The optimistic lock. */
    predicate Unchanged(cluster: Cluster)
      requires |versions| > 0
      reads this
    {
      Stored().Some? && Stored().value.resourceVersion == cluster.resourceVersion
    }

    /** Status().Update: a write that changes nothing stores nothing. */
    method UpdateStatus(cluster: Cluster, out: Outcome, ghost check: Check) returns (ok: bool)
      requires Valid() && cluster.conditions == Told(Some(check))
      modifies this
      ensures Valid() && ok == (out.Ok? && old(Unchanged(cluster)))
      ensures if out.Failed? || !old(Unchanged(cluster)) then versions == old(versions)
        else Stored() == Some(old(Stored()).value.(resourceVersion := |versions| - 1, conditions := cluster.conditions,
                                                   observedGeneration := cluster.observedGeneration))
    {
      ok := out.Ok? && Unchanged(cluster);
      if out.Failed? || !Unchanged(cluster) {
        return;
      }
      var now := Stored().value.(conditions := cluster.conditions, observedGeneration := cluster.observedGeneration);
      if now != Stored().value {
        versions := versions + [Some(now.(resourceVersion := |versions|))];
        checks := checks + [Some(check)];
      }
    }

    method SetCondition(cluster: Cluster, status: bool) returns (c: Cluster)
      requires cluster.conditions == [] || (|cluster.conditions| == 1 && cluster.conditions[0].ctype == Ready)
      ensures c == cluster.(conditions := [Condition(Ready, status, cluster.generation)])
    {
      c := cluster.(conditions := SetStatusCondition(cluster.conditions, Condition(Ready, status, cluster.generation)));
    }

    /** One check of the version with this number, possibly an old one; None if the read fails. If the status
        write goes through, Ready is stored as true exactly if the connection and the health check succeeded and
        the Secret, if the cluster names one, has a user name and a password; only then does the observed
        generation move. Otherwise nothing changes. */
    method Reconcile(version: Option<nat>, f: Findings, out: Outcome) returns (r: Result)
      requires Valid() && (version.Some? ==> version.value < |versions|)
      modifies this
      ensures Valid()
      ensures var read := if version.Some? then old(versions)[version.value] else None;
        if read.Some? && !read.value.deleting && !out.Failed? && old(Unchanged(read.value))
        then
          var usable := f.connects && f.healthy && (read.value.adminCredentials.Some? ==>
            f.secret.Some? && "username" in f.secret.value
            && ("password" in f.secret.value || "plaintext" in f.secret.value));
          Stored() == Some(read.value.(
            resourceVersion := |versions| - 1,
            conditions := [Condition(Ready, usable, read.value.generation)],
            observedGeneration := if usable then read.value.generation else read.value.observedGeneration))
        else versions == old(versions)
      ensures version.None? ==> r == Result(false, 0, true)
      ensures version.Some? ==>
        var read := old(versions)[version.value];
        if read.None? || read.value.deleting then r == Result(false, 0, false)
        else
          var usable := f.connects && f.healthy && (read.value.adminCredentials.Some? ==>
            f.secret.Some? && "username" in f.secret.value
            && ("password" in f.secret.value || "plaintext" in f.secret.value));
          r == if usable && !(out.Ok? && old(Unchanged(read.value))) then Result(false, 0, true)
               else Result(false, 10, false)
    {
      if version.None? {
        return Result(false, 0, true);
      }
      if versions[version.value].None? {
        return Result(false, 0, false);
      }
      var cluster := versions[version.value].value;
      ghost var check := Check(cluster, f);
      if cluster.deleting {
        return Result(false, 0, false);
      }

      if cluster.adminCredentials.Some? && (f.secret.None? || CredentialsIn(f.secret.value).None?) {
        cluster := SetCondition(cluster, false);
        var _ := UpdateStatus(cluster, out, check);
        return Result(false, CLUSTER_HEALTH_CHECK_INTERVAL, false);
      }

      if !f.connects {
        cluster := SetCondition(cluster, false);
        var _ := UpdateStatus(cluster, out, check);
        return Result(false, CLUSTER_HEALTH_CHECK_INTERVAL, false);
      }

      if !f.healthy {
        cluster := SetCondition(cluster, false);
        var _ := UpdateStatus(cluster, out, check);
        return Result(false, CLUSTER_HEALTH_CHECK_INTERVAL, false);
      }

      cluster := cluster.(observedGeneration := cluster.generation);
      cluster := SetCondition(cluster, true);
      var ok := UpdateStatus(cluster, out, check);
      if !ok {
        return Result(false, 0, true);
      }
      return Result(false, CLUSTER_HEALTH_CHECK_INTERVAL, false);
    }
  }
}
