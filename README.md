# SagaFinder reconciler: a Dafny model

This project models the reconcile step of the SagaFinder operator, found in
`controllers/sagafinder_controller.go`. A SagaFinder is a custom resource with a desired
size. For each SagaFinder the controller keeps a Deployment with the same namespace and
name, and keeps that Deployment's replica count equal to the size. One reconcile does the
following:

- It reads the SagaFinder. If that read fails for any reason, the call ends.
- It reads the Deployment. If the Deployment is NotFound, the call creates it from the
  SagaFinder and returns Create's error.
- If the Deployment exists, the call compares its replica count with the size. When they
  differ, it writes the size back with Update and asks for a requeue. When they are equal,
  it is done.

The builder makes the Deployment from the SagaFinder. It sets:

- the name and namespace;
- the replica count, which is the size;
- one label map, used both as the selector and as the pod-template labels;
- a fixed single container, `nginx:latest`, on port 80;
- a controller owner reference to the SagaFinder.

Modules, one per component:

- `SagaFinderApi` (`api.dfy`): the SagaFinder and Deployment objects, reduced to the
  fields the controller touches. Nil pointers are `None`.
- `DeploymentBuilder` (`builder.dfy`): `labelsForSaga`, `deploymentForSaga` and the
  owner reference, all as pure functions.
- `ObjectStore` (`object_store.dfy`): the object store. Its semantics are pure functions
  (`Lookup`, `CreateError`, `AfterCreate`, `UpdateError`, `AfterUpdate`). `Client` is an
  in-memory client class that holds both maps and a ghost log of every write call.
- `SagaFinderController` (`controller.dfy`): `Reconciled` gives the effect and outcome of
  one call as a function. `SagaFinderReconciler.Reconcile` is the imperative method that
  makes the client calls. It is proved to return `Reconciled`'s outcome, leave the store as
  `Reconciled` says, and log the same writes.
- `ReconcileProperties` (`properties.dfy`): the case-by-case promises of one call and the
  fixed-point and convergence properties of repeated calls.

Every store call can fail. The caller passes the failure as an argument, one
`Option<StoreError>` per call, bundled in `Faults`. The outcome of a call is one of four
values:

- `Done` is an empty Result with a nil error.
- `Requeue` is `Result{Requeue: true}` with a nil error.
- `Error(e)` is an empty Result with the error `e`.
- `Panicked` is the nil-pointer dereference described under Findings.

The model follows the code as written on three points:

- A failed SagaFinder read returns an empty Result and a nil error for every error, not
  only NotFound (lines 55-60). A read error other than NotFound would usually be returned
  so that the queue retries; here it ends the call as Done.
- Line 64 declares `err` again with `:=` although it introduces no new variable. Go rejects
  this. The model treats it as an ordinary assignment.
- After the Deployment read, an error other than NotFound is not handled. The model keeps
  that behaviour (see Findings).

## Model

| member | source | states |
|---|---|---|
| `DeploymentBuilder.LabelsForSaga` | controllers/sagafinder_controller.go:127-129 | The label map has exactly the keys `app` and `sagaFinder_cr`, mapped to `sagaFinder` and the given name |
| `DeploymentBuilder.LabelsDetermineName` | controllers/sagafinder_controller.go:127-129 | Two names give equal label maps if and only if they are the same name |
| `DeploymentBuilder.ControllerReferenceTo` | controllers/sagafinder_controller.go:122-123 | The owner reference names the SagaFinder (kind, name, uid) and is marked controller and block-owner-deletion |
| `DeploymentBuilder.SetControllerReference` | controllers/sagafinder_controller.go:122-123 | Only the owner references change; on an object with no owner the result has exactly the controller reference to the SagaFinder |
| `DeploymentBuilder.SagaContainer` | controllers/sagafinder_controller.go:108-117 | The container is named `sagaFinder` and runs `nginx:latest` with an empty command and exactly one port, 80, also named `sagaFinder` |
| `DeploymentBuilder.DeploymentForSaga` | controllers/sagafinder_controller.go:89-125 | The built Deployment has the SagaFinder's namespace and name and replicas equal to its size. Its selector and pod-template labels are both `LabelsForSaga(name)`. Its only container is the fixed one. Its owner references are exactly the controller reference to the SagaFinder |
| `DeploymentBuilder.BuildsAgreeOnName` | controllers/sagafinder_controller.go:91-117 | Two builds from SagaFinders with the same name have identical selectors and pod templates, whatever else differs |
| `DeploymentBuilder.SelectorMatchesTemplate` | controllers/sagafinder_controller.go:101-107 | The selector of a built Deployment is set and equals its pod-template labels |
| `ObjectStore.Lookup` | controllers/sagafinder_controller.go:63-64 | A Get returns the stored object exactly when the call does not fail and the key is stored. With no failure a missing key is NotFound. A failed call reports its own error |
| `ObjectStore.Admitted` | controllers/sagafinder_controller.go:74 | A Deployment the store admits always has a replica count; a count that is already set is kept, and nothing else changes |
| `ObjectStore.CreateError` | controllers/sagafinder_controller.go:69 | Create succeeds exactly when the call does not fail and the identity is free. An injected failure is reported as is; otherwise a taken identity gives AlreadyExists |
| `ObjectStore.AfterCreate` | controllers/sagafinder_controller.go:69 | A successful Create adds the new identity and changes no existing object; a failed one changes nothing |
| `ObjectStore.UpdateError` | controllers/sagafinder_controller.go:76 | Update succeeds exactly when the call does not fail and the identity is stored. An injected failure is reported as is; otherwise a missing identity gives NotFound |
| `ObjectStore.AfterUpdate` | controllers/sagafinder_controller.go:76 | An Update keeps the set of identities, changes no other object, and replaces the target only on success |
| `ObjectStore.WritesKeepWellFormed` | controllers/sagafinder_controller.go:69-76 | Create and Update keep every object filed under its own identity and every stored Deployment with a replica count |
| `ObjectStore.Client.constructor` | controllers/sagafinder_controller.go:37-41 | The client starts with the given objects and an empty write log |
| `ObjectStore.Client.GetSagaFinder` | controllers/sagafinder_controller.go:53-54 | Reading a SagaFinder returns what `Lookup` gives on the stored SagaFinders and changes nothing |
| `ObjectStore.Client.GetDeployment` | controllers/sagafinder_controller.go:63-64 | Reading a Deployment returns what `Lookup` gives on the stored Deployments and changes nothing |
| `ObjectStore.Client.Create` | controllers/sagafinder_controller.go:69 | Create reports `CreateError`, leaves the Deployments as `AfterCreate` says, keeps the SagaFinders, and logs one Create call |
| `ObjectStore.Client.Update` | controllers/sagafinder_controller.go:76 | Update reports `UpdateError`, leaves the Deployments as `AfterUpdate` says, keeps the SagaFinders, and logs one Update call |
| `SagaFinderController.CreateBranch` | controllers/sagafinder_controller.go:66-72 | The NotFound branch issues exactly one Create, of the built Deployment. It never requeues. It returns Done exactly when the store changed, and otherwise Create's error (the injected failure, or AlreadyExists for a taken identity). The store becomes `AfterCreate` of the built Deployment |
| `SagaFinderController.ReplicaBranch` | controllers/sagafinder_controller.go:73-86 | A nil count panics with no write. A count equal to the size returns Done with no write and no change. Any other count issues one Update of the fetched Deployment with the size, returns Requeue on success or the Update error, and leaves the store as `AfterUpdate` of that Deployment |
| `SagaFinderController.Reconciled` | controllers/sagafinder_controller.go:49-87 | One call never touches SagaFinders, issues at most one write, and keeps the store well formed. It never deletes a Deployment and changes none except the requested one. An Error or Requeue outcome always comes with exactly one write |
| `SagaFinderController.ReconciledGuarded` | controllers/sagafinder_controller.go:63-74 | The corrected call, which returns a non-NotFound Deployment read error instead of dereferencing, never panics on a well-formed store |
| `SagaFinderController.SagaFinderReconciler.constructor` | controllers/sagafinder_controller.go:37-41 | The reconciler works through the client it is given |
| `SagaFinderController.SagaFinderReconciler.Reconcile` | controllers/sagafinder_controller.go:49-87 | The imperative reconcile returns `Reconciled`'s outcome, leaves the store as `Reconciled` says, appends exactly its writes to the log, and keeps the store well formed |
| `SagaFinderController.WithReplicas` | controllers/sagafinder_controller.go:74-75 | Replacing the count changes nothing but the count |
| `ReconcileProperties.SagaFetchFailureIsIgnored` | controllers/sagafinder_controller.go:53-61 | Any failed SagaFinder read (NotFound or another error) gives Done with no write and no change |
| `ReconcileProperties.MissingDeploymentIsCreated` | controllers/sagafinder_controller.go:63-72 | A NotFound Deployment leads to exactly one Create, of `DeploymentForSaga(saga)`. A failed Create returns its error and changes nothing, whether the failure is injected or is AlreadyExists after a stale NotFound read of a stored Deployment. A successful Create returns Done and stores the built Deployment |
| `ReconcileProperties.DriftIsCorrected` | controllers/sagafinder_controller.go:73-83 | A drifted count leads to exactly one Update, of the fetched Deployment with the size. On success the call requeues and the store holds it. On failure the call returns the error and the store is unchanged |
| `ReconcileProperties.UpdateChangesOnlyReplicas` | controllers/sagafinder_controller.go:74-76 | Any Update sends the stored Deployment with only its count replaced by the size. Name, namespace, selector, template and owner references go back unchanged |
| `ReconcileProperties.CreateSendsBuiltDeployment` | controllers/sagafinder_controller.go:64-69 | Any Create sends `DeploymentForSaga` of the requested SagaFinder, filed under the requested identity |
| `ReconcileProperties.PanicsExactlyOnDeploymentFetchError` | controllers/sagafinder_controller.go:63-74 | The call panics if and only if the SagaFinder was read and the Deployment read failed with an error other than NotFound |
| `ReconcileProperties.ConvergedIsFixedPoint` | controllers/sagafinder_controller.go:73-86 | On a converged pair no call changes the store, whatever fails. With a successful Deployment read the call is Done with zero writes |
| `ReconcileProperties.QuietIffConverged` | controllers/sagafinder_controller.go:73-86 | With no failures, a call is Done with no write and no change if and only if the pair is converged |
| `ReconcileProperties.OneCallConverges` | controllers/sagafinder_controller.go:63-86 | One call with no failures converges the pair, so the next such call is Done with zero writes |
| `ReconcileProperties.Run` | controllers/sagafinder_controller.go:49-87 | Successive calls on one key give one outcome per call and never change SagaFinders |
| `ReconcileProperties.ConvergedStaysConverged` | controllers/sagafinder_controller.go:73-86 | Once converged, any number of further calls leave the store exactly as it is, whatever fails. When every Deployment read succeeds, all of them are Done and none writes |
| `ReconcileProperties.FaultFreeRunSettles` | controllers/sagafinder_controller.go:49-87 | In a run of calls with no failures only the first call writes, and every later call is Done |
| `ReconcileProperties.CreateThenDone` | controllers/sagafinder_controller.go:63-86 | For SagaFinder default/saga1 of size 3 and no Deployment, the first call creates default/saga1 with 3 replicas owned by saga1 and returns Done. The second call returns Done with no write |
| `ReconcileProperties.CreateThenDoneThroughClient` | controllers/sagafinder_controller.go:49-87 | The same scenario run through the client and the imperative reconciler gives Done twice and 3 replicas |
| `ReconcileProperties.UnavailableDeploymentReadPanics` | controllers/sagafinder_controller.go:63-74 | As written: with SagaFinder default/saga1 stored and an Unavailable Deployment read, the call panics |
| `ReconcileProperties.GuardedReportsReadError` | controllers/sagafinder_controller.go:63-74 | The corrected call never panics. It returns the read error with no write where the code as written panics, and agrees with the code as written everywhere else |

## Left out

- Logging through `r.Log` (lines 51, 57, 59, 68, 78) has no effect on outcomes or on the store.
- `SetupWithManager` (lines 132-136) and the kubebuilder RBAC markers (lines 43-47) are manager wiring and code-generation annotations.
- `context.Background()` and cancellation (line 50) belong to the client library. A cancelled call reaches the model only as a store failure.
- The controller-runtime client, the API server and `runtime.Scheme` are modelled only as the in-memory `Client`. Any call may fail with an error the caller chooses. The only API-server behaviour modelled is defaulting a nil replica count to 1 on admission. Validation is not modelled: the store accepts every Deployment as given, including a negative size. The built container and its port are both named `sagaFinder` (lines 111 and 115). Kubernetes' naming rules require a lowercase DNS-1123 label for a container name and an IANA service name for a port name, so a validating API server would likely reject this Deployment as Invalid. The success halves of `MissingDeploymentIsCreated`, `OneCallConverges`, `CreateThenDone` and `CreateThenDoneThroughClient` therefore hold only for a store that skips validation.
- `DeploymentBuilder.SetControllerReference` appends a controller reference. The library call also looks up the owner's kind in the scheme, and it can reject an object that already has a different controller. Both are left out: the code ignores the error, and the builder applies the call only to a fresh object with no owners.
- Concurrency, the work queue, the worker pool and resource-version tokens are not modelled. A stale-version conflict appears only as an injected `Conflict` failure of Update. Repeated calls on one key are modelled by `Run`, one call after another.
- Cascading deletion by the garbage collector is performed by the cluster, not by this code.
- `Size` and `Replicas` are 32-bit integers in the API types. The code only compares and copies them and does no arithmetic on them, so the model uses unbounded `int`.
- Deployment and pod fields the controller never sets or reads (strategy, status, resource versions, the container port's protocol, and others) are not modelled.
- `SagaFinderController.SagaFinderReconciler.Reconcile` models the code as written, including the panic. The corrected `ReconciledGuarded` is a separate function, compared with it in `GuardedReportsReadError`.

## Findings

| source | as written | input that shows it | evidently intended | confidence | as-written member | corrected member |
|---|---|---|---|---|---|---|
| controllers/sagafinder_controller.go:63-74 | A Deployment read that fails with an error other than NotFound is not handled. Control falls through to `*found.Spec.Replicas` on the empty Deployment, whose replica pointer is nil, so the call panics | SagaFinder default/saga1 is stored, and the Deployment read returns Unavailable | Return an empty Result and the read error, as the Update failure path does | high; not executed | `ReconcileProperties.UnavailableDeploymentReadPanics` | `SagaFinderController.ReconciledGuarded` |
