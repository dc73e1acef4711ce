# A verified model of the Bufstream operator's reconcile protocol

The operator keeps topics, SCRAM credentials and access rules of a Kafka-compatible broker in line with
Topic, User and ACL objects of a Kubernetes API server. It works through single calls: read the object, look
at the Cluster, connect, send one or two requests to the broker, write the status or the finalizers back. Any
call can fail, with or without having taken effect; other clients act between any two calls; and the worker
may die at any moment. This project writes that protocol down as a state machine, proves what holds in all of
its runs, and proves that the three reconcilers, written as imperative code in the form of the operator's,
produce only runs of that machine. A second, small part is the text rewriting of the end-to-end helpers.

## How the model is built

- `Api`, `Broker`: the values. An object is modelled by the sequence of all versions ever stored, and the
  resourceVersion of a version is its index. A broker answers a request about one entry.
- `Protocol`: one step is one external call with its outcome, one crash, or one act of the environment. `Run`
  folds any sequence of choices, so a statement about `Run(c, init, cs)` for every `cs` is a statement about
  every reachable state under every interleaving.
- `Invariant`, `CleanUp`, `StatusDiscipline`, `Readiness`, `Growth`, `Gate`, `Failure`: safety over whole runs.
- `Naming`: which entry an object stands for, in the literal terms of the custom resources.
- `Convergence`, `Deletion`, `Progress`: the liveness counts, and that the rounds they count can be completed.
- `Ownership`, `Inflation`, `FastPath`, `Update`: where the code does less than one would expect, with the
  exact conditions; the early return; retries of a topic update.
- `Operator`: any number of objects of the three kinds over one store, interleaved in any way.
- `Runtime`, `Bufstream`, `ControllerHelpers`, `TopicController`, `UserController`, `AclController`: the code.
  `Environment.Valid` says that the present state is the one `Run` reaches by what has happened; each external
  call may be made only where the protocol makes it, with the arguments it has there. A reconciler that keeps
  the environment valid therefore refines the protocol, and what it adds to the log is one reconcile. `Notes`
  keep what the reconcile at hand has read, where it has connected to and what it has last written; its
  result is stated in terms of them.
  `Assurance` states what follows for the code, now and over any number of reconciles.
- `Clusters`, `ClusterController`: the reconciler that produces the readiness the gate reads.
- `Uncomment`: the text rewriting, on contents instead of files.

Topic, User and ACL share the state machine: they differ in the stages between the gate and the status write.
Clean-up, status discipline, Ready soundness, convergence and deletion are proved once and hold for all three.

## Hypotheses

These are facts about libraries or about how the operator is used. None of them is checked by the code.

- The API server: a write succeeds only if the resourceVersion is unchanged; a write that changes nothing
  stores nothing; the status is a subresource, so the two kinds of write touch disjoint parts; an edit of the
  spec and a deletion request increase the generation; an object that is being deleted and has no finalizers
  disappears, and a dying object gains no finalizers.
- The broker: requests are atomic per topic, credential or rule; creating a topic that exists is rejected; a
  partition count can only be raised; a count of -1 stands for the broker's default and other counts below one
  are rejected; topics have at least one partition and a uniform replication. Upserts, removals and topic
  configurations are not rejected for their content. Removing a topic or credential that is not there is
  answered by an error, removing a rule that is not there by success.
- Two facts about the client library are left open, as fields of `Broker.Service`, because they decide what
  the operator does; everything is proved for either answer. `adds`: does the integer that
  internal/bufstream/topic.go:123 passes to CreatePartitions get added to the present count, or is it the new
  count? `absentText`: what is the text of the error for a missing topic or credential, which
  internal/bufstream/topic.go:173-174 and internal/bufstream/user.go:107-108 compare with bare error codes?
  The library's source is not part of the repository. For the versions pinned at go.mod:8-9 (franz-go v1.20.6
  and kadm v1.17.1), the library's documentation has the integer added, and an error's text is its code
  followed by a description. Read with these answers, the results are: a growth that is answered ends in a
  Ready status that is false, and one whose answer is lost locks the object out (`Inflation`); a topic or user
  deleted when its entry is missing is never released, against the comment at internal/bufstream/topic.go:172
  (`Deletion`); and the theorems on Ready, convergence, retries and deletion hold under the conditions named
  in them, which are exact where the table says so.
- One worker acts on an object at a time, and its reads never go backwards, not even over a restart.
- The cluster and the resolved name, credential key or rule of an object are fixed (`EnvEdit` and `EnvCreate`
  keep `KeyOf`). Others do not take away or add the operator's own finalizer.
- `Distinct`, for the whole operator only: no two objects stand for the same broker entry.
- `NobodyMeddles`, for Ready soundness and the early return: others may create the entry at any time, but do
  not change or remove it. Clean-up, status discipline, gating and deletion do not need this.
- Convergence: nobody else creates the entry meanwhile, edits of topics only ask for more, and ownership is
  assumed; `Ownership.LockOut` shows that the last one cannot be dropped for any spec. If partitions are
  added, the topic must not be too small to begin with and edits must keep the count; `Inflation.GrowthLockOut`
  shows that this cannot be dropped.

## Model

| member | source | states |
|---|---|---|
| CleanUp.CleanUpTheorem | internal/controller/topic_controller.go:80-161 | in every run, under any crashes, lost answers, conflicts, stale reads, outages, edits, recreations and foreign changes: an entry the operator wrote is backed by a stored object with the finalizer, so nothing of it is left once the object is gone |
| CleanUp.FinalizerFirst | internal/controller/topic_controller.go:85-97 | whenever a create, update or upsert is pending, the object stored at that moment holds the finalizer, whatever has happened to it since it was read |
| CleanUp.BackedStep | internal/controller/topic_controller.go:139-158 | every step keeps the clean-up invariant: written entries are held, every version still readable as live is still held, and the finalizer is given up only after the entry is gone |
| Invariant.SaneStep | internal/controller/topic_controller.go:66-98 | every step keeps: stored versions carry their own index and key, and the worker's copy is the version it last read apart from the changes made since |
| Invariant.StoreEffect | internal/controller/topic_controller.go:84-94 | a write of the worker has an effect only if the worker has read the stored version, and then it stores exactly the worker's spec, finalizers and deletion state |
| Invariant.WritesLittle | internal/controller/topic_controller.go:84-94 | in every run, a write of the worker changes the status and nothing else, or nothing but its own finalizer, put on a live object and taken off a dying one; the spec, the generation and other finalizers are left alone |
| StatusDiscipline.StatusDisciplineTheorem | internal/controller/topic_controller.go:178-321 | every version ever stored has unique condition types, Ready opposite to Degraded, a true Ready with Progressing false and all three at the observed generation, and an observed generation not above the generation; neither generation ever decreases over the versions of one object |
| StatusDiscipline.SuccessIsDisciplined | internal/controller/acl_controller.go:221-234 | the success part of a status, in the order of each of the three kinds, gives a disciplined status that is ready at the current generation, from any conditions with unique types |
| StatusDiscipline.FailIsDisciplined | internal/controller/user_controller.go:170-180 | the failure part of a status gives a disciplined status that is not ready |
| Readiness.ReadySoundness | internal/controller/topic_controller.go:250-318 | in every reachable state, a live object that is ready at its current generation has its broker entry: every configuration key and the converted replication of a topic, the iterations of a credential, the presence of a rule; and of a topic's partitions exactly as many as the spec asks for if no call ever added any in the run, otherwise no fewer |
| Readiness.ReadyTopicIsExact | internal/controller/topic_controller.go:304-313 | for a ready topic, in literal terms: every configuration key has the spec's value; the partitions are no fewer than the spec asks for, with zero read as one, and equal if none were ever added; the status repeats the spec's counts, and its replication is the broker's if and only if it is 1 to 32767 |
| Readiness.ReadyUserIsExact | internal/controller/user_controller.go:228-250 | the credential of a ready user has the spec's iterations, or 4096 if there are none |
| Readiness.ReplicationSent | internal/bufstream/topic.go:77-86 | the replication sent or compared is the spec's value modulo 65536 with zero replaced by one, and equals the spec's value exactly when that is a non-zero 16-bit number |
| Readiness.StatusNamesTheEntry | internal/controller/user_controller.go:253-264 | in literal terms: a ready status names the topic or user by the spec's name, or by the object's if that is blank, and the spec's mechanism, or SCRAM-SHA-512; and the entry is stored under just these |
| Naming.EntrySpelledOut | internal/controller/topic_controller.go:325-330 | in every run, every version ever stored asks for the same entry: on the spec's cluster, under the spec's topic or user name if it is not blank and otherwise the object's, the mechanism by its literal name, the rule as the spec says it |
| Naming.RuleSays | internal/controller/acl_controller.go:241-303 | the rule of a spec says what the spec says, literal by literal: deny exactly for Deny, prefixed exactly for Prefixed, the resource types and the eleven operations by name, a star for a blank host, kafka-cluster for a cluster |
| Naming.RuleReadBack | internal/bufstream/acl.go:146-207 | written out as a spec again, the rule of a spec is that spec with its defaults filled in, and has the same rule |
| Naming.RuleWrittenOut | internal/bufstream/acl.go:146-207 | every rule that the broker can hold, written out as a spec, is the rule of that spec |
| Naming.RuleInForce | internal/controller/acl_controller.go:127-229 | in every run: the rule in force for a ready ACL, and the rule of every creation and of every removal, is what the object's spec says |
| Naming.SameEntry | internal/controller/topic_controller.go:325-330 | two objects stand for the same entry if and only if they are of one kind, on one cluster of one namespace, and agree on the resolved name, on name and mechanism, or on the rule written out |
| Naming.NamedApart | internal/controller/user_controller.go:304-309 | objects with different non-blank names in their specs never share an entry |
| Naming.NamesMakeDistinct | internal/controller/topic_controller.go:325-330 | so the hypothesis of distinct entries holds of every system whose topics and users are all named differently |
| Readiness.ReadyStaysReady | internal/controller/topic_controller.go:166-175 | once ready, always ready until an edit or a deletion: no crash, failure, outage, conflict or stale read takes it back |
| Readiness.SoundStep | internal/bufstream/topic.go:110-161 | every step keeps the soundness invariant, in its exact form unless the step adds partitions: a stored promise is true and cannot be broken by anything the worker can still read, and each stage has established what it must before success is recorded |
| Readiness.FixedSizeNeverInflates | internal/bufstream/topic.go:117-134 | what a user can do to be safe if partitions are added: ask for the same count in every spec, of topics that start out with no fewer; then none are ever added, in any run |
| Convergence.ConvergenceTheorem | internal/controller/topic_controller.go:235-321 | for every k: with at most k disturbances the object is ready at its then current generation after at most k + 2 reconciles, where a reconcile whose read fails or kills the worker counts as one; if partitions are added, for topics that are not too small |
| Convergence.UndisturbedRound | internal/controller/topic_controller.go:84-97 | a reconcile without disturbance stores the finalizer, or makes the object ready if it was stored before |
| Convergence.ReadyOrSlow | internal/controller/topic_controller.go:164-322 | the measure: until it has been ready, every round but one was disturbed, and none was left over without the finalizer stored |
| Convergence.FreshObjectIsFeasible | internal/controller/topic_controller.go:235-262 | a new object whose counts the broker can follow, with ownership assumed for topics and no topic that would have partitions added, satisfies the hypothesis of convergence |
| Convergence.OneReconcileIsARound | internal/controller/topic_controller.go:66-98 | what a reconcile of the code adds to the log is a round, with exactly one beginning, and leads from the state before to the state after |
| Deletion.DeletionTheorem | internal/controller/topic_controller.go:101-161 | for every k: with at most k disturbances of any kind, k + 1 reconciles release the finalizer of a dying object, if the undisturbed ones find the entry there or its absence is recognised |
| Deletion.UndisturbedDeletion | internal/bufstream/topic.go:164-182 | an undisturbed reconcile of a dying object releases the finalizer if and only if the entry is there at its start, or it is a rule, or the text of the error for its absence is literally one of those compared with; in any case no entry is left |
| Deletion.ForgivingDeletion | internal/controller/acl_controller.go:89-146 | for access rules the bound of k + 1 holds without that condition, and so it does wherever the text of the error is one that is compared with |
| Deletion.StuckForever | internal/bufstream/topic.go:170-178 | a dying object whose entry is missing, if that is not recognised and nothing live can be read any more, never has its finalizer released, through any run in which nobody else makes the entry |
| Deletion.LostRemoval | internal/bufstream/topic.go:164-168 | one removal that takes effect and whose answer is lost leads there |
| Deletion.DeletedTooEarly | internal/controller/user_controller.go:131-151 | so does the deletion of a topic or user before anything was created for it, whatever its spec |
| Broker.OnlyTheBareCode | internal/bufstream/user.go:103-111 | of all error texts that begin with the code for a missing entry, exactly the bare code is taken for not found |
| Deletion.DyingRun | internal/controller/topic_controller.go:101-106 | whatever happens, a dying object stays dying until its finalizer is released |
| Progress.AnswerDescends | internal/controller/user_controller.go:157-278 | any answer to the pending call, good or bad, brings the reconcile nearer to its end |
| Progress.UndisturbedRoundExists | internal/controller/topic_controller.go:66-98 | from every idle state an undisturbed reconcile exists, of at most ten calls |
| Growth.GrowthOnly | internal/bufstream/topic.go:110-134 | between any two moments of a run without deletions, a topic keeps existing, never loses a partition and never changes its replication |
| Growth.RefusedLeavesAlone | internal/bufstream/topic.go:111-134 | while every readable spec asks for fewer partitions, for another replication, or does not assume ownership, the topic stays exactly as it is, configuration included |
| Growth.ForeignTopicsUntouched | internal/controller/topic_controller.go:271-283 | with ownership never assumed, a topic that exists at any moment is the same at every later moment, even if it appeared between the existence check and the create call |
| Ownership.LockOut | internal/controller/topic_controller.go:271-283 | the counterexample to convergence without assumed ownership, for every such spec: a new object, a created topic and one failed status write, after which it is never ready again although the topic is what the spec asks for |
| Ownership.RefusedIsNeverReady | internal/controller/topic_controller.go:271-300 | an object whose topic it may not update is never reported ready, in any run that introduces only such specs |
| Ownership.LostStatusWrite | internal/controller/topic_controller.go:263-316 | one lost status write after a create leads into that state |
| Inflation.GrowthOutcome | internal/bufstream/topic.go:121-131 | an undisturbed growth always ends with the object stored as ready and its count shown in the status; that is true if and only if the call sets the count |
| Inflation.FirstGrowth | internal/controller/topic_controller.go:285-313 | the same from the very beginning, for every spec and every topic that somebody else made too small: if the call adds, the topic ends with the sum of both counts |
| Inflation.GrowthLockOut | internal/bufstream/topic.go:121-134 | if partitions are added and the answer is lost, the object is never ready again, through any run that introduces only specs which ask for less than is there or may not be applied |
| Inflation.LostGrowth | internal/bufstream/topic.go:123-126 | one lost answer to a call that adds leads into the lock-out, from any moment at which the call is pending |
| Inflation.ThreeToSix | internal/bufstream/topic.go:121-131 | the instance with three partitions and a spec of six: nine, while the status says six; never ready if the answer is lost |
| Update.RetryConfluence | internal/bufstream/topic.go:110-161 | after any number of update attempts stopped anywhere, with their calls applied or not, one good attempt ends where a single good attempt would have ended, if and only if no partitions would be added to those that are there or the spec sets nothing new; a further attempt changes nothing in any case |
| Update.UpdateIsExact | internal/bufstream/topic.go:117-134 | an undisturbed update that is not refused ends with the spec's partitions if and only if the call sets the count or the count is right already; then the spec's configuration is set; if partitions are added, the count is the sum |
| Update.AttemptIsTheProtocol | internal/controller/topic_controller.go:235-302 | such an attempt, outcomes included, is what a reconcile does from its existence check on |
| Update.AnyOrder | internal/bufstream/topic.go:137-148 | every listing of the configuration map, in any order, yields the old configuration overlaid with the spec's, all other keys kept |
| FastPath.SkipIsSound | internal/controller/topic_controller.go:166-175 | if the update of the topic would not be refused, the reconcile that the early return skips, however far it is taken, changes neither the broker entry nor any stored status, and ends in the state the early return leaves |
| FastPath.SettledStatus | internal/controller/topic_controller.go:303-313 | the full reconcile of a ready object writes the status that is stored already, condition order included |
| FastPath.SkipIsTaken | internal/controller/user_controller.go:159-166 | in a settled state the reconcile ends with its read |
| FastPath.SkipHidesRefusal | internal/controller/topic_controller.go:273-283 | if the update would be refused, the skipped reconcile would have stored that the object is not ready, and the early return keeps Ready: the condition of SkipIsSound is exact for topics |
| FastPath.WelcomeBySpec | internal/controller/topic_controller.go:271-300 | as long as no partitions were ever added, that condition is one on the spec of the ready topic alone: ownership assumed and both counts at least one |
| FastPath.SkipMissesRotation | internal/controller/user_controller.go:159-166 | if the password in the Secret has changed, the skipped reconcile would have stored it and the early return does not: the condition of SkipIsSound is exact for users |
| FastPath.ReadyStatesAreSettled | internal/controller/topic_controller.go:164-175 | every reachable state with an idle worker and a ready live object is settled |
| Gate.GatedWrites | internal/controller/cluster_helpers.go:51-55 | in the trace of every run, each request to the broker is preceded in the same reconcile by reading a version with the finalizer, live for writes and dying for removals, then the Cluster with a true Ready condition, then the administrator's credentials, then a connection; a topic request further by a health check and a look for the topic, whose outcome it fits; and the request is the one that version asks for in literal terms: counts with zero read as one, the spec's configuration, the iterations or 4096, and as password what the Secret read in that reconcile holds under the spec's key, or under password if that is blank |
| Gate.OnlyRequestsChangeTheBroker | internal/controller/topic_controller.go:235-302 | an entry changes only by such a request, or by somebody else |
| Failure.FailureIsRecorded | internal/controller/topic_controller.go:177-300 | the law of recorded failures: in every run, whenever the cluster of a live object cannot be read, or a call from the credentials to the last broker request does not succeed, the following status write stores Degraded true and Ready false at the object's generation, and leaves the observed generation, the reported details and the spec as they were; if somebody has stored another version, it stores nothing |
| Failure.WrongIsToRecord | internal/controller/user_controller.go:170-253 | whatever goes wrong, the next thing the worker does is to write that status, with Progressing true exactly if the gate was passed |
| Failure.UnreadyStoresNothing | internal/controller/topic_controller.go:188-191 | a cluster without a true Ready condition ends the reconcile of a live or dying object, and stores nothing |
| Failure.FailedDeletionStoresNothing | internal/controller/acl_controller.go:98-132 | a deletion whose cluster cannot be read, or whose credentials, connection or removal fail, stores nothing |
| Operator.Projection | internal/controller/topic_controller.go:325-330 | what one object sees of any run of the whole operator is a run of the protocol, made of its own steps |
| Operator.Frame | internal/controller/topic_controller.go:139-148 | an act on one object leaves every other object, and its entry, as they were |
| Operator.UnclaimedUntouched | internal/controller/topic_controller.go:325-330 | entries that no object stands for are never changed |
| Operator.SystemCleanUp | internal/controller/user_controller.go:131-151 | with any number of objects, every entry the operator wrote is backed by an object that stands for it and holds the finalizer |
| Operator.SystemReadySoundness | internal/controller/user_controller.go:228-274 | with any number of objects, every ready one has its entry, its partitions exact as long as none were ever added to that topic |
| Operator.AclConservation | internal/controller/acl_controller.go:127-229 | in every reachable state the operator's rules are bindings of objects that still hold the finalizer, and the binding of every ready object is in force |
| Operator.ComeAndGone | internal/controller/acl_controller.go:89-146 | delete is the inverse of create and upsert: when all objects are gone the broker is exactly what it was, for any interleaving and any failures, provided it held none of their entries |
| Assurance.ValidIsSafe | internal/controller/topic_controller.go:164-322 | between any two calls of the reconcilers below: written entries are held, the stored status is disciplined, and a ready status is true up to added partitions |
| Assurance.CodeConverges | internal/controller/topic_controller.go:66-98 | of k + 2 calls of Reconcile with at most k disturbances, one leaves the object ready, under the conditions of convergence |
| Assurance.CodeReleases | internal/controller/topic_controller.go:101-161 | of k + 1 calls of Reconcile with at most k disturbances, one releases the finalizer of a dying object, under the condition of deletion |
| TopicController.TopicReconciler.Reconcile | internal/controller/topic_controller.go:66-98 | what it adds to the log is exactly one reconcile of the protocol, in which the worker dies only if a call kills it and ends idle; the cluster and Secrets it reads and the connection it makes are those its object names; and its result is exactly determined by what it has read and last written, intervals included |
| TopicController.TopicReconciler.ReconcileDelete | internal/controller/topic_controller.go:101-161 | from a dying version: only the calls of the protocol's deletion, in its order |
| TopicController.TopicReconciler.ConnectAndRemove | internal/controller/topic_controller.go:107-160 | behind the gate of a deletion: credentials, then the connection, a failure asking for a retry after 30 seconds |
| TopicController.TopicReconciler.RemoveAndRelease | internal/controller/topic_controller.go:139-160 | the removal, and only if it succeeds the release of the finalizer |
| TopicController.TopicReconciler.ReconcileTopic | internal/controller/topic_controller.go:164-191 | from a live version with the finalizer: early return, gate and the rest, each as in the protocol |
| TopicController.TopicReconciler.ConnectAndApply | internal/controller/topic_controller.go:196-221 | credentials and connection, a failure recorded in the status as in the protocol |
| TopicController.TopicReconciler.CheckAndApply | internal/controller/topic_controller.go:223-233 | the health check, a failure recorded in the status as in the protocol |
| TopicController.TopicReconciler.ApplyTopic | internal/controller/topic_controller.go:235-302 | existence check, then create or update, each as in the protocol, a failure recorded in the status |
| TopicController.TopicReconciler.UpdateExisting | internal/controller/topic_controller.go:271-301 | refusal without assumed ownership, or update, as in the protocol, a failure recorded in the status |
| TopicController.TopicReconciler.MarkReady | internal/controller/topic_controller.go:303-322 | writes exactly the status the protocol calls success, and reports success only if that is stored |
| UserController.UserReconciler.Reconcile | internal/controller/user_controller.go:58-90 | as for topics |
| UserController.UserReconciler.ReconcileDelete | internal/controller/user_controller.go:93-154 | as for topics, with the removal of the credential |
| UserController.UserReconciler.ConnectAndRemove | internal/controller/user_controller.go:99-153 | behind the gate of a deletion: credentials, then the connection, a failure asking for a retry after 30 seconds |
| UserController.UserReconciler.RemoveAndRelease | internal/controller/user_controller.go:131-153 | the removal, and only if it succeeds the release of the finalizer |
| UserController.UserReconciler.ReconcileUser | internal/controller/user_controller.go:157-190 | early return and gate as in the protocol |
| UserController.UserReconciler.ConnectAndApply | internal/controller/user_controller.go:187-226 | admin credentials, then the password: the order of the protocol, a failure recorded in the status |
| UserController.UserReconciler.ConnectWith | internal/controller/user_controller.go:215-226 | then the connection, with the credentials of the cluster that was read |
| UserController.UserReconciler.ApplyUser | internal/controller/user_controller.go:228-253 | upserts the credential of the spec's key, with the password that was read |
| UserController.UserReconciler.MarkReady | internal/controller/user_controller.go:254-278 | writes exactly the status the protocol calls success, the mechanism defaulted |
| UserController.UserReconciler.GetPassword | internal/controller/user_controller.go:281-301 | reads the Secret that the spec names in the object's namespace, and answers with what it holds under the spec's key, or under password if that is blank; with nothing if and only if Secret or key are missing |
| UserController.UserReconciler.GetMechanism | internal/controller/user_controller.go:312-321 | the library number stands for the mechanism in the credential's key |
| AclController.AclReconciler.Reconcile | internal/controller/acl_controller.go:54-86 | as for topics |
| AclController.AclReconciler.ReconcileDelete | internal/controller/acl_controller.go:89-146 | as for topics, with the removal of the rule |
| AclController.AclReconciler.ConnectAndRemove | internal/controller/acl_controller.go:95-145 | behind the gate of a deletion: credentials, then the connection, a failure asking for a retry after 30 seconds |
| AclController.AclReconciler.RemoveAndRelease | internal/controller/acl_controller.go:127-145 | the removal, and only if it succeeds the release of the finalizer |
| AclController.AclReconciler.ReconcileAcl | internal/controller/acl_controller.go:149-180 | early return and gate as in the protocol |
| AclController.AclReconciler.ConnectAndApply | internal/controller/acl_controller.go:181-206 | credentials and connection, a failure recorded in the status as in the protocol |
| AclController.AclReconciler.ApplyAcl | internal/controller/acl_controller.go:207-219 | creates the rule the spec stands for |
| AclController.AclReconciler.MarkReady | internal/controller/acl_controller.go:220-238 | writes exactly the status the protocol calls success for rules, which sets Progressing before Degraded |
| AclController.AclReconciler.ToAclConfig | internal/controller/acl_controller.go:241-303 | the library configuration says what the spec says: blanks and unknown values become topic, literal and allow |
| Bufstream.BuildAcl | internal/bufstream/acl.go:146-207 | from such a configuration, the built rule is the spec's binding, for creation and deletion alike |
| Bufstream.Client.CreateAcl | internal/bufstream/acl.go:81-100 | one request, for the spec's binding with a blank host made a star; success exactly when the broker accepted and the answer arrived |
| Bufstream.Client.DeleteAcl | internal/bufstream/acl.go:103-127 | the same for removal; a missing rule counts as removed |
| Bufstream.Client.TopicExists | internal/bufstream/topic.go:43-74 | reports the partitions and replication the broker holds, and absence exactly when there is no topic |
| Bufstream.Client.CreateTopic | internal/bufstream/topic.go:77-107 | one request, with the counts defaulted and the whole configuration in whatever order the map is walked |
| Bufstream.Client.UpdateTopic | internal/bufstream/topic.go:110-161 | refuses, raises the count, or configures exactly as the protocol does from the reported size, and succeeds exactly when all its calls did |
| Bufstream.Client.IncreasePartitions | internal/bufstream/topic.go:121-131 | one request with the desired count as its argument, whatever the library makes of that; success exactly when accepted and answered |
| Bufstream.Client.AlterConfigs | internal/bufstream/topic.go:136-158 | one request whose list, in any order, sets the spec's configuration |
| Bufstream.Client.DeleteTopic | internal/bufstream/topic.go:164-182 | one removal; an error counts as success exactly if its text is one of the two that are compared with |
| Bufstream.Client.UpsertUserCredentials | internal/bufstream/user.go:43-79 | one request for the spec's key, with the password that was read and the iterations defaulted |
| Bufstream.Client.DeleteUserCredentials | internal/bufstream/user.go:82-116 | one removal of that same key; an error counts as success exactly if its text is the bare code |
| Bufstream.Client.NewClient | internal/bufstream/client.go:46-94 | connects only to the servers of the cluster that was read as ready, with the user name and password in the Secret it names or with none if it names none; a client exactly when that succeeds |
| Bufstream.Client.CheckHealth | internal/bufstream/client.go:107-113 | true exactly when the listing succeeds |
| Bufstream.ListConfigs | internal/bufstream/topic.go:137-145 | lists the configuration map completely, each key once, in an order that is not determined |
| ControllerHelpers.GetAdminCredentials | internal/controller/cluster_helpers.go:59-96 | reads the Secret the cluster names, in its namespace or by default the cluster's; the credentials are exactly those in it, and fail exactly if the Secret, the user name or both passwords are missing; none are needed exactly when the cluster names none |
| ControllerHelpers.CredentialsIn | internal/controller/cluster_helpers.go:76-90 | credentials exist if and only if there is a user name and a password under one of two names; they are that user name, and the password under the first name if there is one, otherwise under the second |
| ControllerHelpers.Degrade | internal/controller/topic_controller.go:179-186 | from a failure of the protocol: the status written is the protocol's, and a retry is asked for whether or not the write succeeds |
| ControllerHelpers.NoRetryIsDone | internal/controller/topic_controller.go:66-161 | a reconcile that does not ask for a retry has found the object gone, or dying without the finalizer, or has just released it |
| ControllerHelpers.HealthyIsReady | internal/controller/topic_controller.go:166-175 | a reconcile that reports success has found the object ready or has left it ready |
| Runtime.Environment.Perform | internal/bufstream/topic.go:95-131 | the broker's side of a request: its effect on that one entry, none on others, none if rejected or if the call failed; the library's reading of a partition count and the error for a missing entry are the open ones |
| Runtime.ResponsesCount | internal/bufstream/topic.go:170-178 | scanning the responses for errors that matter finds success exactly where the protocol does, whatever the text of the error for a missing entry |
| Runtime.Environment.WriteObject | internal/controller/topic_controller.go:85-91 | the optimistic lock for metadata and spec, with lost answers |
| Runtime.Environment.WriteStatus | api/v1alpha1/topic_types.go:82-84 | the optimistic lock for the status subresource, with lost answers |
| Runtime.Environment.GetUserSecret | internal/controller/user_controller.go:282-288 | may be called only for the Secret that the object read in this reconcile names; the protocol goes on with what was read |
| Runtime.Environment.UpdateResourceStatus | internal/controller/topic_controller.go:315-318 | others may act before the write, and the worker may die in it; if it reports success for a ready object, the stored object is live and ready |
| Runtime.Resource.SetCondition | internal/controller/topic_controller.go:333-343 | sets one condition at the object's generation in place and nothing else |
| Api.FindAfterSet | internal/controller/topic_controller.go:333-343 | setting a condition determines that type and leaves every other type as it was |
| Api.SetKeepsUnique | internal/controller/user_controller.go:324-334 | setting a condition keeps one entry per type |
| ClusterController.ClusterReconciler.Reconcile | internal/controller/cluster_controller.go:55-121 | from any version, possibly an old one, or a failed read: if the status write goes through, the stored conditions are exactly one Ready entry, true exactly if the connection and the health check succeeded and the Secret, if one is named, has a user name and a password, at the generation that was read, and the observed generation moves only if it is true; otherwise nothing changes; the result is exact in every case |
| ClusterController.ClusterReconciler.UpdateStatus | internal/controller/cluster_controller.go:113-116 | the optimistic lock for a cluster's status; a write that changes nothing stores nothing |
| ClusterController.ClusterReconciler.GateReadsCheck | internal/controller/cluster_helpers.go:51-55 | whichever version of a cluster an object's reconcile reads, the gate of the protocol lets it pass if and only if the check recorded with it connected, was healthy and found a user name and a password in the Secret, if one is named |
| ClusterController.ClusterReconciler.ReadyWasChecked | internal/controller/cluster_controller.go:73-134 | every stored Ready condition is the outcome of a check, spelled out in its findings, at the generation that was checked |
| ClusterController.ClusterReconciler.SetCondition | internal/controller/cluster_controller.go:124-134 | the conditions of a cluster are always one Ready entry |
| Uncomment.RoundTrip | test/utils/utils.go:178-226 | uncommenting the first occurrence of a commented block restores the block and keeps everything around it, if and only if every commented line is shorter than 65536 characters and none ends in a carriage return (a blank line may, if the prefix is just that) |
| Uncomment.UnmarkedUntouched | test/utils/utils.go:197-211 | a block none of whose lines begins with the prefix is left as it is, and so is the whole file |
| Uncomment.UncommentCode | test/utils/utils.go:178-226 | rewrites the first occurrence of the target and nothing else; reports a missing target; leaves the file alone when the scanner yields no line |
| Uncomment.TrimBlock | test/utils/utils.go:197-211 | the scanner loop writes every scanned line without the prefix, newlines only in between |
| Uncomment.TrimmedCommented | test/utils/utils.go:197-211 | of a commented block, exactly the lines up to the scanner's limit come out, each restored |
| Uncomment.Index | test/utils/utils.go:187-190 | the first occurrence, or none if there is none |
| Uncomment.JoinInjective | test/utils/utils.go:197-211 | a list of lines can be read off its joined text, which is what makes the round trip an equivalence |

## Left out

- Messages, reasons, event recording, logging and wall-clock times: they have no effect on the protocol.
- Connections, SASL, pinging, timeouts, the development-mode dialer and `Close`: `NewClient` and
  `CheckHealth` are calls that may fail.
- The source of kadm and controller-runtime is not part of this model; the facts used are listed above.
- The work queue: that a reconcile whose result asks for a retry is called again is the queue's doing. The
  counts of `Convergence` and `Deletion` are in reconciles, not in time.
- Cluster and Secret reads are arbitrary answers of the environment, so nothing is assumed about when a
  cluster becomes ready. The Cluster reconciler is modelled on its own; its calls to the Secret and the broker
  are one parameter, what a check finds out.
- Reconcile: the three object reconcilers and `UpdateTopic` are divided into several methods, at the points
  where the operator's code goes on in one body; branches and their order are the code's.
- Several replies with per-partition errors, and topics with uneven replica counts in `TopicExists`.
- Drift repair after foreign changes, and clean-up after a rename, a change of mechanism or an edit of an ACL:
  the code does not do these. `NobodyMeddles` and the fixed key say so.
- ReadySoundness: the password of a credential is not part of a User's spec. `Gate.GatedWrites` states that it
  was read in the same reconcile; a later change of the Secret goes unnoticed, see `FastPath.SkipMissesRotation`.
- Ownership during deletion: the deletion of a Topic does not look at AssumeOwnership, so the model removes a
  stranger's topic as well, and nothing else is claimed.
- `UserExists`, `ACLExists`, `GetNonEmptyLines`, the shell helpers, `cmd/main.go`, charts, manifests and
  generated code.
- UncommentCode: reading and writing the file, and their errors.
