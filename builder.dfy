/**
 * Construction of the Deployment a SagaFinder asks for: a pure function of the
 * SagaFinder, ending with the controller owner reference that lets the garbage
 * collector delete the Deployment together with its owner.
 */
module DeploymentBuilder {
  import opened SagaFinderApi

  const AppLabel := "sagaFinder"
  const ContainerName := "sagaFinder"
  const Image := "nginx:latest"
  const Port := 80
  const OwnerKind := "SagaFinder"

  /** The label map used both as the selector and as the pod-template labels. */
  function LabelsForSaga(name: string): (ls: map<string, string>)
    ensures ls.Keys == {"app", "sagaFinder_cr"}
    ensures ls["app"] == AppLabel && ls["sagaFinder_cr"] == name
  {
    map["app" := AppLabel, "sagaFinder_cr" := name]
  }

  /** The owner reference that marks `owner` as the managing controller. */
  function ControllerReferenceTo(owner: SagaFinder): (ref: OwnerReference)
    ensures ref.controller && ref.blockOwnerDeletion
    ensures ref.kind == OwnerKind && ref.name == owner.name && ref.uid == owner.uid
  {
    OwnerReference(OwnerKind, owner.name, owner.uid, true, true)
  }

  /**
   * Records `owner` as the controller of `dep`; everything else of `dep` is kept.
   * The builder only applies it to an object that has no owner yet.
   */
  function SetControllerReference(owner: SagaFinder, dep: Deployment): (r: Deployment)
    ensures r.spec == dep.spec
    ensures r.metadata == dep.metadata.(ownerReferences := r.metadata.ownerReferences)
    ensures dep.metadata.ownerReferences == [] ==> r.metadata.ownerReferences == [ControllerReferenceTo(owner)]
  {
    dep.(metadata := dep.metadata.(ownerReferences := dep.metadata.ownerReferences + [ControllerReferenceTo(owner)]))
  }

  /** The single container of every pod this controller runs. */
  function SagaContainer(): (c: Container)
    ensures c.name == ContainerName && c.image == Image && c.command == []
    ensures |c.ports| == 1 && c.ports[0].containerPort == Port && c.ports[0].name == ContainerName
  {
    Container(ContainerName, Image, [], [ContainerPort(Port, ContainerName)])
  }

  /** The Deployment wanted for `s`. */
  function DeploymentForSaga(s: SagaFinder): (dep: Deployment)
    ensures dep.Key() == s.Key()
    ensures dep.spec.replicas == Some(s.spec.size)
    ensures dep.spec.selector == Some(LabelSelector(LabelsForSaga(s.name)))
    ensures dep.spec.template.metadata.labels == LabelsForSaga(s.name)
    ensures dep.spec.template.containers == [SagaContainer()]
    ensures dep.metadata.ownerReferences == [ControllerReferenceTo(s)]
  {
    var ls := LabelsForSaga(s.name);
    var replicas := s.spec.size;
    var dep := Deployment(
      ObjectMeta(s.name, s.namespace, map[], []),
      DeploymentSpec(
        Some(replicas),
        Some(LabelSelector(ls)),
        PodTemplateSpec(ObjectMeta("", "", ls, []), [SagaContainer()])));
    SetControllerReference(s, dep)
  }

  /** Two names give the same labels exactly when they are the same name. */
  lemma LabelsDetermineName(a: string, b: string)
    ensures LabelsForSaga(a) == LabelsForSaga(b) <==> a == b
  {
    if LabelsForSaga(a) == LabelsForSaga(b) {
      assert LabelsForSaga(a)["sagaFinder_cr"] == LabelsForSaga(b)["sagaFinder_cr"];
    }
  }

  /**
   * The selector depends on the name only, so rebuilding for the same name never
   * changes it; the pod's container does not depend on the SagaFinder at all.
   */
  lemma BuildsAgreeOnName(s: SagaFinder, t: SagaFinder)
    requires s.name == t.name
    ensures DeploymentForSaga(s).spec.selector == DeploymentForSaga(t).spec.selector
    ensures DeploymentForSaga(s).spec.template == DeploymentForSaga(t).spec.template
  {
  }

  /** The selector of a built Deployment matches the labels of the pods it creates. */
  lemma SelectorMatchesTemplate(s: SagaFinder)
    ensures var dep := DeploymentForSaga(s);
      dep.spec.selector.Some? && dep.spec.selector.value.matchLabels == dep.spec.template.metadata.labels
  {
  }
}
