/**
 * What one reconcile promises, case by case, and what repeated reconciles of the
 * same key do: a converged pair is a fixed point, and one fault-free call converges.
 */
module ReconcileProperties {
  import opened SagaFinderApi
  import opened DeploymentBuilder
  import opened ObjectStore
  import opened SagaFinderController

  /**
   * The Deployment of the SagaFinder filed under `req` exists and has the
   * SagaFinder's size; vacuous when there is no such SagaFinder.
   */
  ghost predicate Converged(c: Cluster, req: NamespacedName) {
    req in c.sagaFinders ==>
      req in c.deployments && c.deployments[req].spec.replicas == Some(c.sagaFinders[req].spec.size)
  }

  // ---- One reconcile, case by case ----

  /** Any failure to fetch the SagaFinder, NotFound or not, ends the call with Done and no write. */
  lemma SagaFetchFailureIsIgnored(c: Cluster, req: NamespacedName, f: Faults)
    requires f.sagaGet.Some? || req !in c.sagaFinders
    ensures Reconciled(c, req, f) == Step(Done, c, [])
  {
  }

  /**
   * A Deployment reported NotFound is created from the SagaFinder, with exactly one
   * Create; success is Done, failure is Create's error, never a requeue. A stale
   * NotFound for a stored Deployment makes the Create fail with AlreadyExists.
   */
  lemma MissingDeploymentIsCreated(c: Cluster, req: NamespacedName, f: Faults)
    requires WellFormed(c) && req in c.sagaFinders && f.sagaGet.None?
    requires f.deploymentGet == Some(NotFound) || (f.deploymentGet.None? && req !in c.deployments)
    ensures var saga, r := c.sagaFinders[req], Reconciled(c, req, f);
      r.writes == [CreateCall(DeploymentForSaga(saga))] &&
      (f.create.Some? ==> r == Step(Error(f.create.value), c, [CreateCall(DeploymentForSaga(saga))])) &&
      (f.create.None? && req in c.deployments ==>
         r == Step(Error(AlreadyExists), c, [CreateCall(DeploymentForSaga(saga))])) &&
      (f.create.None? && req !in c.deployments ==>
         r.outcome == Done && r.cluster.deployments == c.deployments[req := DeploymentForSaga(saga)])
  {
  }

  /**
   * A fetched Deployment whose count differs from the size is sent back with the
   * size in one Update: success asks for a requeue, failure returns the error and
   * leaves the store as it was.
   */
  lemma DriftIsCorrected(c: Cluster, req: NamespacedName, f: Faults)
    requires WellFormed(c) && req in c.sagaFinders && req in c.deployments
    requires f.sagaGet.None? && f.deploymentGet.None?
    requires c.deployments[req].spec.replicas != Some(c.sagaFinders[req].spec.size)
    ensures var u, r := WithReplicas(c.deployments[req], c.sagaFinders[req].spec.size), Reconciled(c, req, f);
      r.writes == [UpdateCall(u)] &&
      (f.update.None? ==> r.outcome == Requeue && r.cluster.deployments == c.deployments[req := u]) &&
      (f.update.Some? ==> r == Step(Error(f.update.value), c, [UpdateCall(u)]))
  {
    var found := c.deployments[req];
    assert WithReplicas(found, c.sagaFinders[req].spec.size).Key() == req;
  }

  /**
   * Whatever the faults, an Update sends the Deployment that was read with only its
   * replica count changed: identity, selector, template and owner references are untouched.
   */
  lemma UpdateChangesOnlyReplicas(c: Cluster, req: NamespacedName, f: Faults)
    requires WellFormed(c)
    ensures forall w :: w in Reconciled(c, req, f).writes && w.UpdateCall? ==>
      req in c.sagaFinders && req in c.deployments &&
      w.obj == WithReplicas(c.deployments[req], c.sagaFinders[req].spec.size)
  {
  }

  /** Every Create sends the Deployment built from the SagaFinder filed under `req`. */
  lemma CreateSendsBuiltDeployment(c: Cluster, req: NamespacedName, f: Faults)
    requires WellFormed(c)
    ensures forall w :: w in Reconciled(c, req, f).writes && w.CreateCall? ==>
      req in c.sagaFinders && w.obj == DeploymentForSaga(c.sagaFinders[req]) && w.obj.Key() == req
  {
  }

  /**
   * The call panics exactly when the SagaFinder was read and the Deployment read
   * failed with an error other than NotFound.
   */
  lemma PanicsExactlyOnDeploymentFetchError(c: Cluster, req: NamespacedName, f: Faults)
    requires WellFormed(c)
    ensures Reconciled(c, req, f).outcome == Panicked <==>
      req in c.sagaFinders && f.sagaGet.None? && f.deploymentGet.Some? && f.deploymentGet.value != NotFound
  {
  }

  // ---- Fixed point and convergence ----

  /**
   * On a converged pair a call never changes the store, whatever fails; when the
   * Deployment read succeeds it returns Done with no write.
   */
  lemma ConvergedIsFixedPoint(c: Cluster, req: NamespacedName, f: Faults)
    requires WellFormed(c) && Converged(c, req)
    ensures Reconciled(c, req, f).cluster == c
    ensures f.deploymentGet.None? ==> Reconciled(c, req, f) == Step(Done, c, [])
  {
  }

  /** Without failures, a call is a no-op returning Done exactly when the pair is converged. */
  lemma QuietIffConverged(c: Cluster, req: NamespacedName)
    requires WellFormed(c)
    ensures Reconciled(c, req, NoFaults) == Step(Done, c, []) <==> Converged(c, req)
  {
    if Reconciled(c, req, NoFaults) == Step(Done, c, []) && req in c.sagaFinders {
      assert req in c.deployments;
    }
  }

  /** One call without failures converges the pair, so the next such call is Done with no write. */
  lemma OneCallConverges(c: Cluster, req: NamespacedName)
    requires WellFormed(c)
    ensures Converged(Reconciled(c, req, NoFaults).cluster, req)
    ensures var c' := Reconciled(c, req, NoFaults).cluster;
      Reconciled(c', req, NoFaults) == Step(Done, c', [])
  {
    var r := Reconciled(c, req, NoFaults);
    if req in c.sagaFinders {
      var saga := c.sagaFinders[req];
      if req !in c.deployments {
        assert r.cluster.deployments == c.deployments[req := DeploymentForSaga(saga)];
      } else if c.deployments[req].spec.replicas != Some(saga.spec.size) {
        DriftIsCorrected(c, req, NoFaults);
      }
    }
    ConvergedIsFixedPoint(r.cluster, req, NoFaults);
  }

  /** What successive reconciles of one key leave behind, one fault record per call. */
  datatype Trace = Trace(cluster: Cluster, outcomes: seq<Outcome>, writes: seq<Write>)

  function Run(c: Cluster, req: NamespacedName, fs: seq<Faults>): (t: Trace)
    ensures |t.outcomes| == |fs|
    ensures t.cluster.sagaFinders == c.sagaFinders
    decreases |fs|
  {
    if fs == [] then Trace(c, [], [])
    else
      var r := Reconciled(c, req, fs[0]);
      var t := Run(r.cluster, req, fs[1..]);
      Trace(t.cluster, [r.outcome] + t.outcomes, r.writes + t.writes)
  }

  /**
   * A converged pair stays as it is under any number of further calls, whatever
   * fails; when every Deployment read succeeds, each call is Done and none writes.
   */
  lemma {:induction false} ConvergedStaysConverged(c: Cluster, req: NamespacedName, fs: seq<Faults>)
    requires WellFormed(c) && Converged(c, req)
    ensures Run(c, req, fs).cluster == c
    ensures (forall i :: 0 <= i < |fs| ==> fs[i].deploymentGet.None?) ==>
      Run(c, req, fs).writes == [] && forall i :: 0 <= i < |fs| ==> Run(c, req, fs).outcomes[i] == Done
    decreases |fs|
  {
    if fs != [] {
      ConvergedIsFixedPoint(c, req, fs[0]);
      ConvergedStaysConverged(c, req, fs[1..]);
      if forall i :: 0 <= i < |fs| ==> fs[i].deploymentGet.None? {
        assert forall i :: 0 <= i < |fs| - 1 ==> fs[1..][i].deploymentGet.None? by {
          forall i | 0 <= i < |fs| - 1 ensures fs[1..][i].deploymentGet.None? {
            assert fs[1..][i] == fs[i + 1];
          }
        }
      }
    }
  }

  /**
   * Level-triggered convergence: in a run of calls without failures only the first
   * may write, and every later call is Done.
   */
  lemma FaultFreeRunSettles(c: Cluster, req: NamespacedName, fs: seq<Faults>)
    requires WellFormed(c) && |fs| >= 1
    requires forall i :: 0 <= i < |fs| ==> fs[i] == NoFaults
    ensures Run(c, req, fs).writes == Reconciled(c, req, NoFaults).writes
    ensures forall i :: 1 <= i < |fs| ==> Run(c, req, fs).outcomes[i] == Done
  {
    var r := Reconciled(c, req, NoFaults);
    OneCallConverges(c, req);
    assert forall i :: 0 <= i < |fs| - 1 ==> fs[1..][i] == fs[i + 1];
    ConvergedStaysConverged(r.cluster, req, fs[1..]);
  }

  // ---- A concrete scenario ----

  /**
   * SagaFinder default/saga1 of size 3 and no Deployment: the first call creates
   * default/saga1 with 3 replicas owned by saga1 and returns Done; the second
   * returns Done with no write.
   */
  lemma CreateThenDone()
    ensures var saga := SagaFinder("saga1", "default", "uid-1", SagaFinderSpec(3));
      var key := NamespacedName("default", "saga1");
      var c := Cluster(map[key := saga], map[]);
      var r1 := Reconciled(c, key, NoFaults);
      var r2 := Reconciled(r1.cluster, key, NoFaults);
      r1.outcome == Done && key in r1.cluster.deployments &&
      r1.cluster.deployments[key].spec.replicas == Some(3) &&
      r1.cluster.deployments[key].metadata.ownerReferences[0].name == "saga1" &&
      r2 == Step(Done, r1.cluster, [])
  {
    var saga := SagaFinder("saga1", "default", "uid-1", SagaFinderSpec(3));
    var key := NamespacedName("default", "saga1");
    var c := Cluster(map[key := saga], map[]);
    assert WellFormed(c);
    OneCallConverges(c, key);
  }

  /**
   * The same scenario through the client and the reconciler: two calls, both Done,
   * leaving default/saga1 with 3 replicas after exactly one write, the Create.
   */
  method CreateThenDoneThroughClient() returns (first: Outcome, second: Outcome, replicas: Option<int>)
    ensures first == Done && second == Done && replicas == Some(3)
  {
    var saga := SagaFinder("saga1", "default", "uid-1", SagaFinderSpec(3));
    var key := NamespacedName("default", "saga1");
    var c := Cluster(map[key := saga], map[]);
    assert WellFormed(c);
    var client := new Client(c);
    var reconciler := new SagaFinderReconciler(client);
    first := reconciler.Reconcile(key, NoFaults);
    OneCallConverges(c, key);
    second := reconciler.Reconcile(key, NoFaults);
    assert client.writes == [CreateCall(DeploymentForSaga(saga))];
    replicas := client.deployments[key].spec.replicas;
  }

  // ---- The nil dereference on a failed Deployment read ----

  /**
   * As written: SagaFinder default/saga1 exists and the Deployment read fails with
   * Unavailable; the call dereferences the empty Deployment's nil count and panics.
   */
  lemma UnavailableDeploymentReadPanics()
    ensures var saga := SagaFinder("saga1", "default", "uid-1", SagaFinderSpec(3));
      var key := NamespacedName("default", "saga1");
      var c := Cluster(map[key := saga], map[]);
      Reconciled(c, key, Faults(None, Some(Unavailable), None, None)).outcome == Panicked
  {
  }

  /**
   * Corrected: the guarded reconcile returns the read error instead of panicking,
   * without writing, and agrees with the code as written on every other input.
   */
  lemma GuardedReportsReadError(c: Cluster, req: NamespacedName, f: Faults)
    requires WellFormed(c)
    ensures ReconciledGuarded(c, req, f).outcome != Panicked
    ensures Reconciled(c, req, f).outcome != Panicked ==> ReconciledGuarded(c, req, f) == Reconciled(c, req, f)
    ensures Reconciled(c, req, f).outcome == Panicked ==>
      ReconciledGuarded(c, req, f) == Step(Error(f.deploymentGet.value), c, [])
  {
    PanicsExactlyOnDeploymentFetchError(c, req, f);
  }
}
