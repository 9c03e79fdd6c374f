/**
 * The object store the controller talks to, as an in-memory map per kind keyed by
 * (namespace, name). Every remote call may fail: the caller passes the failure the
 * call suffers, if any, as a `fault` argument (None means the call reaches the store).
 */
module ObjectStore {
  import opened SagaFinderApi

  /** A write the controller issued, whether or not the store accepted it. */
  datatype Write = CreateCall(obj: Deployment) | UpdateCall(obj: Deployment)

  /** What the store holds. */
  datatype Cluster = Cluster(sagaFinders: map<NamespacedName, SagaFinder>,
                             deployments: map<NamespacedName, Deployment>)

  /**
   * Every object is filed under its own identity, and every stored Deployment has
   * its replica count set (the API server defaults a nil count when it admits one).
   */
  ghost predicate WellFormed(c: Cluster) {
    (forall k :: k in c.sagaFinders ==> c.sagaFinders[k].Key() == k) &&
    (forall k :: k in c.deployments ==> c.deployments[k].Key() == k && c.deployments[k].spec.replicas.Some?)
  }

  /** A Get: the injected failure, else the stored object, else NotFound. */
  function Lookup<T>(m: map<NamespacedName, T>, key: NamespacedName, fault: Option<StoreError>): (r: Result<T>)
    ensures r.Ok? <==> fault.None? && key in m
    ensures r.Ok? ==> r.value == m[key]
    ensures fault.None? && key !in m ==> r == Err(NotFound)
    ensures fault.Some? ==> r == Err(fault.value)
  {
    if fault.Some? then Err(fault.value)
    else if key in m then Ok(m[key])
    else Err(NotFound)
  }

  /** The API server's defaulting of an admitted Deployment: a nil replica count becomes 1. */
  function Admitted(d: Deployment): (a: Deployment)
    ensures a.spec.replicas.Some?
    ensures d.spec.replicas.Some? ==> a == d
    ensures a.metadata == d.metadata && a.spec.selector == d.spec.selector && a.spec.template == d.spec.template
  {
    if d.spec.replicas.None? then d.(spec := d.spec.(replicas := Some(1))) else d
  }

  /** The error a Create reports: the injected failure, else AlreadyExists for a taken identity. */
  function CreateError(m: map<NamespacedName, Deployment>, d: Deployment, fault: Option<StoreError>): (e: Option<StoreError>)
    ensures e.None? <==> fault.None? && d.Key() !in m
    ensures fault.Some? ==> e == fault
    ensures fault.None? && d.Key() in m ==> e == Some(AlreadyExists)
  {
    if fault.Some? then fault
    else if d.Key() in m then Some(AlreadyExists)
    else None
  }

  /** The error an Update reports: the injected failure, else NotFound for a missing identity. */
  function UpdateError(m: map<NamespacedName, Deployment>, d: Deployment, fault: Option<StoreError>): (e: Option<StoreError>)
    ensures e.None? <==> fault.None? && d.Key() in m
    ensures fault.Some? ==> e == fault
    ensures fault.None? && d.Key() !in m ==> e == Some(NotFound)
  {
    if fault.Some? then fault
    else if d.Key() !in m then Some(NotFound)
    else None
  }

  /** The Deployments after a Create; a rejected Create changes nothing. */
  function AfterCreate(m: map<NamespacedName, Deployment>, d: Deployment, fault: Option<StoreError>)
    : (m': map<NamespacedName, Deployment>)
    ensures m'.Keys == if CreateError(m, d, fault).None? then m.Keys + {d.Key()} else m.Keys
    ensures forall k :: k in m ==> k in m' && m'[k] == m[k]
    ensures d.Key() in m' ==> m'[d.Key()] == (if d.Key() in m then m[d.Key()] else Admitted(d))
  {
    if CreateError(m, d, fault).None? then m[d.Key() := Admitted(d)] else m
  }

  /** The Deployments after an Update; a rejected Update changes nothing. */
  function AfterUpdate(m: map<NamespacedName, Deployment>, d: Deployment, fault: Option<StoreError>)
    : (m': map<NamespacedName, Deployment>)
    ensures m'.Keys == m.Keys
    ensures forall k :: k in m && k != d.Key() ==> m'[k] == m[k]
    ensures d.Key() in m ==> m'[d.Key()] == (if fault.None? then Admitted(d) else m[d.Key()])
  {
    if UpdateError(m, d, fault).None? then m[d.Key() := Admitted(d)] else m
  }

  lemma WritesKeepWellFormed(c: Cluster, d: Deployment, fault: Option<StoreError>)
    requires WellFormed(c)
    ensures WellFormed(c.(deployments := AfterCreate(c.deployments, d, fault)))
    ensures WellFormed(c.(deployments := AfterUpdate(c.deployments, d, fault)))
  {
  }

  /**
   * The in-memory client: both maps, and a ghost log of every write call made,
   * successful or not.
   */
  class Client {
    var sagaFinders: map<NamespacedName, SagaFinder>
    var deployments: map<NamespacedName, Deployment>
    ghost var writes: seq<Write>

    function View(): Cluster
      reads this
    {
      Cluster(sagaFinders, deployments)
    }

    ghost predicate Valid()
      reads this
    {
      WellFormed(View())
    }

    constructor (c: Cluster)
      requires WellFormed(c)
      ensures Valid() && View() == c && writes == []
    {
      sagaFinders := c.sagaFinders;
      deployments := c.deployments;
      writes := [];
    }

    method GetSagaFinder(key: NamespacedName, fault: Option<StoreError>) returns (r: Result<SagaFinder>)
      ensures r == Lookup(sagaFinders, key, fault)
    {
      if fault.Some? {
        r := Err(fault.value);
      } else if key in sagaFinders {
        r := Ok(sagaFinders[key]);
      } else {
        r := Err(NotFound);
      }
    }

    method GetDeployment(key: NamespacedName, fault: Option<StoreError>) returns (r: Result<Deployment>)
      ensures r == Lookup(deployments, key, fault)
    {
      if fault.Some? {
        r := Err(fault.value);
      } else if key in deployments {
        r := Ok(deployments[key]);
      } else {
        r := Err(NotFound);
      }
    }

    method Create(d: Deployment, fault: Option<StoreError>) returns (err: Option<StoreError>)
      requires Valid()
      modifies this
      ensures Valid()
      ensures err == CreateError(old(deployments), d, fault)
      ensures deployments == AfterCreate(old(deployments), d, fault)
      ensures sagaFinders == old(sagaFinders)
      ensures writes == old(writes) + [CreateCall(d)]
    {
      writes := writes + [CreateCall(d)];
      if fault.Some? {
        err := fault;
      } else if d.Key() in deployments {
        err := Some(AlreadyExists);
      } else {
        err := None;
        deployments := deployments[d.Key() := Admitted(d)];
      }
      WritesKeepWellFormed(old(View()), d, fault);
    }

    method Update(d: Deployment, fault: Option<StoreError>) returns (err: Option<StoreError>)
      requires Valid()
      modifies this
      ensures Valid()
      ensures err == UpdateError(old(deployments), d, fault)
      ensures deployments == AfterUpdate(old(deployments), d, fault)
      ensures sagaFinders == old(sagaFinders)
      ensures writes == old(writes) + [UpdateCall(d)]
    {
      writes := writes + [UpdateCall(d)];
      if fault.Some? {
        err := fault;
      } else if d.Key() !in deployments {
        err := Some(NotFound);
      } else {
        err := None;
        deployments := deployments[d.Key() := Admitted(d)];
      }
      WritesKeepWellFormed(old(View()), d, fault);
    }
  }
}
