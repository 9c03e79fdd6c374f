/**
 * The object kinds the SagaFinder controller reads and writes: the SagaFinder
 * custom resource (the desired state) and the apps/v1 Deployment it manages,
 * reduced to the fields the controller touches.
 */
module SagaFinderApi {

  datatype Option<+T> = None | Some(value: T)

  /** Identity of a namespaced object: (namespace, name). */
  datatype NamespacedName = NamespacedName(namespace: string, name: string)

  /** The errors a store call can report. */
  datatype StoreError = NotFound | AlreadyExists | Conflict | Unavailable

  /** The outcome of a store read: the object, or the error the call reported. */
  datatype Result<+T> = Ok(value: T) | Err(error: StoreError)

  datatype SagaFinderSpec = SagaFinderSpec(size: int)

  /** The desired-state object; the controller only reads it. */
  datatype SagaFinder = SagaFinder(name: string, namespace: string, uid: string, spec: SagaFinderSpec)
  {
    function Key(): NamespacedName { NamespacedName(namespace, name) }
  }

  /** An owner reference; `controller` marks the managing owner. */
  datatype OwnerReference = OwnerReference(kind: string, name: string, uid: string,
                                           controller: bool, blockOwnerDeletion: bool)

  datatype ObjectMeta = ObjectMeta(name: string, namespace: string, labels: map<string, string>,
                                   ownerReferences: seq<OwnerReference>)

  datatype ContainerPort = ContainerPort(containerPort: int, name: string)

  datatype Container = Container(name: string, image: string, command: seq<string>,
                                 ports: seq<ContainerPort>)

  datatype PodTemplateSpec = PodTemplateSpec(metadata: ObjectMeta, containers: seq<Container>)

  datatype LabelSelector = LabelSelector(matchLabels: map<string, string>)

  /** `replicas` and `selector` are pointers in the API type: `None` is nil. */
  datatype DeploymentSpec = DeploymentSpec(replicas: Option<int>, selector: Option<LabelSelector>,
                                           template: PodTemplateSpec)

  datatype Deployment = Deployment(metadata: ObjectMeta, spec: DeploymentSpec)
  {
    function Key(): NamespacedName { NamespacedName(metadata.namespace, metadata.name) }
  }

  const EmptyMeta := ObjectMeta("", "", map[], [])

  /** The zero value a caller allocates before a Get fills it in. */
  const EmptyDeployment := Deployment(EmptyMeta, DeploymentSpec(None, None, PodTemplateSpec(EmptyMeta, [])))
}
