/**
 * One reconcile of a SagaFinder: fetch it, then create its Deployment when it is
 * missing, or overwrite the Deployment's replica count when it differs from the
 * SagaFinder's size. `Reconciled` says what one call does to the store and what it
 * returns; `SagaFinderReconciler.Reconcile` performs the calls and is proved to
 * match it.
 */
module SagaFinderController {
  import opened SagaFinderApi
  import opened DeploymentBuilder
  import opened ObjectStore

  /**
   * What a reconcile returns to the work queue:
   *   Done        -- an empty Result and a nil error,
   *   Requeue     -- Result{Requeue: true} and a nil error,
   *   Error(e)    -- an empty Result and the error e,
   *   Panicked    -- the call dereferenced a nil replica count and never returned.
   */
  datatype Outcome = Done | Requeue | Error(cause: StoreError) | Panicked

  /** The failure, if any, that each of the (at most three) store calls of one reconcile suffers. */
  datatype Faults = Faults(sagaGet: Option<StoreError>, deploymentGet: Option<StoreError>,
                           create: Option<StoreError>, update: Option<StoreError>)

  const NoFaults := Faults(None, None, None, None)

  /** The outcome of one reconcile, the store afterwards, and the writes it issued. */
  datatype Step = Step(outcome: Outcome, cluster: Cluster, writes: seq<Write>)

  /** The Create branch: build the Deployment and return Create's error, never asking for a requeue. */
  function CreateBranch(c: Cluster, saga: SagaFinder, fault: Option<StoreError>): (r: Step)
    ensures r.writes == [CreateCall(DeploymentForSaga(saga))]
    ensures r.cluster.sagaFinders == c.sagaFinders
    ensures r.outcome == Done || r.outcome.Error?
    ensures r.outcome == Done <==> r.cluster.deployments != c.deployments
    ensures var e := CreateError(c.deployments, DeploymentForSaga(saga), fault);
      r.outcome == (if e.None? then Done else Error(e.value)) &&
      r.cluster.deployments == AfterCreate(c.deployments, DeploymentForSaga(saga), fault)
  {
    var dep := DeploymentForSaga(saga);
    var err := CreateError(c.deployments, dep, fault);
    Step(if err.None? then Done else Error(err.value),
         c.(deployments := AfterCreate(c.deployments, dep, fault)),
         [CreateCall(dep)])
  }

  /** The Deployment after the update path: the fetched one with its count replaced by `size`. */
  function WithReplicas(d: Deployment, size: int): (u: Deployment)
    ensures u.metadata == d.metadata && u.spec.selector == d.spec.selector && u.spec.template == d.spec.template
    ensures u.spec.replicas == Some(size)
  {
    d.(spec := d.spec.(replicas := Some(size)))
  }

  /**
   * The comparison branch on the fetched Deployment `found`: a nil count panics, a
   * count equal to the size finishes with no write, any other count is overwritten
   * with the size and sent back with Update.
   */
  function ReplicaBranch(c: Cluster, saga: SagaFinder, found: Deployment, fault: Option<StoreError>): (r: Step)
    ensures r.cluster.sagaFinders == c.sagaFinders
    ensures found.spec.replicas.None? ==> r == Step(Panicked, c, [])
    ensures found.spec.replicas == Some(saga.spec.size) ==> r == Step(Done, c, [])
    ensures found.spec.replicas.Some? && found.spec.replicas != Some(saga.spec.size) ==>
      r.writes == [UpdateCall(WithReplicas(found, saga.spec.size))] &&
      r.outcome == (if UpdateError(c.deployments, found, fault).None? then Requeue else Error(UpdateError(c.deployments, found, fault).value)) &&
      r.cluster == c.(deployments := AfterUpdate(c.deployments, WithReplicas(found, saga.spec.size), fault))
  {
    var size := saga.spec.size;
    match found.spec.replicas
    case None => Step(Panicked, c, [])
    case Some(n) =>
      if n != size then
        var updated := WithReplicas(found, size);
        var err := UpdateError(c.deployments, updated, fault);
        Step(if err.None? then Requeue else Error(err.value),
             c.(deployments := AfterUpdate(c.deployments, updated, fault)),
             [UpdateCall(updated)])
      else
        Step(Done, c, [])
  }

  /**
   * One reconcile of `req`, as the code is written: any failure to fetch the
   * SagaFinder ends the call with Done; a NotFound Deployment is created; any other
   * Deployment fetch error leaves `found` empty and reaches the dereference of its
   * nil replica count.
   */
  function Reconciled(c: Cluster, req: NamespacedName, f: Faults): (r: Step)
    ensures r.cluster.sagaFinders == c.sagaFinders
    ensures |r.writes| <= 1
    ensures WellFormed(c) ==> WellFormed(r.cluster)
    ensures WellFormed(c) ==> c.deployments.Keys <= r.cluster.deployments.Keys
    ensures WellFormed(c) ==> r.cluster.deployments - {req} == c.deployments - {req}
    ensures r.outcome != Done && r.outcome != Panicked ==> |r.writes| == 1
  {
    match Lookup(c.sagaFinders, req, f.sagaGet)
    case Err(_) => Step(Done, c, [])
    case Ok(saga) =>
      var got := Lookup(c.deployments, saga.Key(), f.deploymentGet);
      if got.Err? && got.error == NotFound then
        CreateBranch(c, saga, f.create)
      else
        ReplicaBranch(c, saga, if got.Ok? then got.value else EmptyDeployment, f.update)
  }

  /**
   * The same reconcile with the Deployment fetch error handled: an error other
   * than NotFound is returned to the queue instead of reaching the dereference.
   */
  function ReconciledGuarded(c: Cluster, req: NamespacedName, f: Faults): (r: Step)
    ensures r.cluster.sagaFinders == c.sagaFinders
    ensures |r.writes| <= 1
    ensures WellFormed(c) ==> WellFormed(r.cluster) && r.outcome != Panicked
  {
    match Lookup(c.sagaFinders, req, f.sagaGet)
    case Err(_) => Step(Done, c, [])
    case Ok(saga) =>
      var got := Lookup(c.deployments, saga.Key(), f.deploymentGet);
      if got.Err? && got.error == NotFound then
        CreateBranch(c, saga, f.create)
      else if got.Err? then
        Step(Error(got.error), c, [])
      else
        ReplicaBranch(c, saga, got.value, f.update)
  }

  /** The controller, holding the client it reads and writes through. */
  class SagaFinderReconciler {
    const client: Client

    constructor (client: Client)
      ensures this.client == client
    {
      this.client := client;
    }

    method Reconcile(req: NamespacedName, faults: Faults) returns (outcome: Outcome)
      requires client.Valid()
      modifies client
      ensures client.Valid()
      ensures var r := Reconciled(old(client.View()), req, faults);
        outcome == r.outcome && client.View() == r.cluster && client.writes == old(client.writes) + r.writes
    {
      var fetched := client.GetSagaFinder(req, faults.sagaGet);
      if fetched.Err? {
        // NotFound or any other failure: an empty Result and a nil error.
        return Done;
      }
      var sagafinder := fetched.value;

      var found := EmptyDeployment;
      var got := client.GetDeployment(sagafinder.Key(), faults.deploymentGet);
      var err: Option<StoreError> := None;
      if got.Ok? {
        found := got.value;
      } else {
        err := Some(got.error);
      }

      if err.Some? && err.value == NotFound {
        var dep := DeploymentForSaga(sagafinder);
        err := client.Create(dep, faults.create);
        return if err.None? then Done else Error(err.value);
      }
      var size := sagafinder.spec.size;
      if found.spec.replicas.None? {
        // `*found.Spec.Replicas` on a nil pointer.
        return Panicked;
      }
      if found.spec.replicas.value != size {
        found := WithReplicas(found, size);
        err := client.Update(found, faults.update);
        if err.Some? {
          return Error(err.value);
        }
        return Requeue;
      }
      return Done;
    }
  }
}
