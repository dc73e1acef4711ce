/**
 What the theorems about runs say of the code: the reconcilers keep their environment valid, and a valid
 environment is one that a run of the protocol has led to; and what they add to its log is one reconcile.
 */
module Assurance {
  import opened Api
  import opened Broker
  import opened CleanUp
  import opened StatusDiscipline
  import opened Readiness
  import opened Convergence
  import opened Deletion
  import opened Invariant
  import opened Protocol
  import opened Runtime

  /** In every state that the code can be in, between any two of its calls: what the operator wrote to the
      broker is held by a finalizer, the stored status is disciplined, and a ready status is true, except
      that partitions may have been added to a topic. */
  lemma ValidIsSafe(env: Environment)
    requires env.Valid()
    ensures env.cfg.key.entry in env.store && env.mine ==> Holds(env.cfg, Current(env.history))
    ensures Current(env.history).Some? ==> Disciplined(env.cfg, Current(env.history).value)
    ensures NobodyMeddles(env.log) && LiveReady(Current(env.history)) ==>
      env.cfg.key.entry in env.store
      && Meets(Current(env.history).value.spec, env.store[env.cfg.key.entry],
               NeverInflates(env.cfg, env.init, env.log))
  {
    var s := env.State();
    CleanUpTheorem(env.cfg, env.init, env.log);
    DisciplineRun(env.cfg, env.init, env.log);
    assert s.history == env.history && s.entity == Lookup(env.store, env.cfg.key.entry);
    if NobodyMeddles(env.log) {
      ReadySoundness(env.cfg, env.init, env.log);
    }
  }

  // ---------------------------------------------------------------- the code over time

  /** The logs before and after each of a number of calls of Reconcile, on the same object. */
  ghost predicate Reconciled(c: Config, init: Sys, logs: seq<seq<Choice>>) {
    logs != [] && forall i :: 0 < i < |logs| ==> OneReconcile(c, init, logs[i - 1], logs[i])
  }

  function Added(before: seq<Choice>, after: seq<Choice>): seq<Choice> {
    if |before| <= |after| then after[|before|..] else []
  }

  /** What happened in each of these calls. */
  function RoundsOf(logs: seq<seq<Choice>>): (r: seq<seq<Choice>>)
    requires logs != []
    ensures |r| == |logs| - 1 && forall i :: 0 <= i < |r| ==> r[i] == Added(logs[i], logs[i + 1])
  {
    seq(|logs| - 1, i requires 0 <= i < |logs| - 1 => Added(logs[i], logs[i + 1]))
  }

  lemma RoundsOfFront(logs: seq<seq<Choice>>, m: nat)
    requires m < |logs|
    ensures RoundsOf(logs)[..m] == RoundsOf(logs[..m + 1])
  {
  }

  lemma RoundsOfLast(logs: seq<seq<Choice>>)
    requires |logs| > 1
    ensures var n := |logs| - 1; RoundsOf(logs) == RoundsOf(logs[..n]) + [Added(logs[n - 1], logs[n])]
  {
  }

  lemma LastAdded(c: Config, s: Sys, front: seq<seq<Choice>>, last: seq<Choice>)
    requires AllRounds(c, s, front) && Round(c, After(c, s, front), last)
    ensures AllRounds(c, s, front + [last])
    ensures After(c, s, front + [last]) == Run(c, After(c, s, front), last)
  {
    assert (front + [last])[..|front + [last]| - 1] == front;
  }

  lemma {:induction false} RoundsOfTheCode(c: Config, init: Sys, logs: seq<seq<Choice>>)
    requires Reconciled(c, init, logs)
    ensures var s, rounds := Run(c, init, logs[0]), RoundsOf(logs);
      AllRounds(c, s, rounds) && After(c, s, rounds) == Run(c, init, logs[|logs| - 1])
  {
    var n := |logs| - 1;
    if n > 0 {
      RoundsOfTheCode(c, init, logs[..n]);
      OneReconcileIsARound(c, init, logs[n - 1], logs[n]);
      RoundsOfLast(logs);
      LastAdded(c, Run(c, init, logs[0]), RoundsOf(logs[..n]), Added(logs[n - 1], logs[n]));
    }
  }

  lemma AfterSome(c: Config, init: Sys, logs: seq<seq<Choice>>, m: nat)
    requires Reconciled(c, init, logs) && m < |logs|
    ensures After(c, Run(c, init, logs[0]), RoundsOf(logs)[..m]) == Run(c, init, logs[m])
  {
    RoundsOfFront(logs, m);
    RoundsOfTheCode(c, init, logs[..m + 1]);
  }

  /** Convergence of the code: of `k + 2` calls of Reconcile with at most `k` disturbances, one leaves the
      object ready. */
  lemma {:induction false} CodeConverges(c: Config, init: Sys, logs: seq<seq<Choice>>, k: nat) returns (m: nat)
    requires Reconciled(c, init, logs) && |logs| >= k + 3
    requires Feasible(c, Run(c, init, logs[0]))
    requires TameThroughout(c, Run(c, init, logs[0]), RoundsOf(logs))
    requires Trouble(c, Run(c, init, logs[0]), RoundsOf(logs)) <= k
    ensures m <= k + 2 && LiveReady(Current(Run(c, init, logs[m]).history))
  {
    var s, rounds := Run(c, init, logs[0]), RoundsOf(logs);
    RoundsOfTheCode(c, init, logs);
    m := ConvergenceTheorem(c, s, rounds, k);
    AfterSome(c, init, logs, m);
  }

  /** Deletion by the code: of `k + 1` calls of Reconcile with at most `k` disturbances, one releases the
      finalizer of a dying object, if the undisturbed ones find the entry or do not need it. */
  lemma {:induction false} CodeReleases(c: Config, init: Sys, logs: seq<seq<Choice>>, k: nat)
    requires Reconciled(c, init, logs) && |logs| >= k + 2
    requires Initial(c, init) && Dying(c, Run(c, init, logs[0]))
    requires Removable(c, Run(c, init, logs[0]), RoundsOf(logs))
    requires Trouble(c, Run(c, init, logs[0]), RoundsOf(logs)) <= k
    ensures EverReleased(c, Run(c, init, logs[0]), RoundsOf(logs))
  {
    SaneRun(c, init, logs[0]);
    RoundsOfTheCode(c, init, logs);
    DeletionTheorem(c, Run(c, init, logs[0]), RoundsOf(logs), k);
  }
}
