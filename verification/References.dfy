/** The references of a cluster that an operation has to back up, and when they are accepted
    (`CheckClusterDataRef` in pkg/controllers/clusterops/controller.go). */
module References {
  import opened Objects

  function KeyOf(kind: Kind, ref: Ref): Key {
    Key(kind, ref.Ns(), ref.Name())
  }

  /** Reference `slot` still has to be backed up. */
  predicate Needs(spec: Spec, cl: Cluster, slot: Slot) {
    SpecRef(spec, slot).IsEmpty() && (slot == Ssh ==> !cl.ssh.IsEmpty())
  }

  /** The namespaces of the references still to be backed up. */
  function NamespaceOf(spec: Spec, cl: Cluster, slot: Slot): set<string> {
    if Needs(spec, cl, slot) then {ClusterRef(cl, slot).Ns()} else {}
  }

  function Namespaces(spec: Spec, cl: Cluster): set<string> {
    NamespaceOf(spec, cl, Hosts) + NamespaceOf(spec, cl, Vars) + NamespaceOf(spec, cl, Ssh)
  }

  /** What `CheckClusterDataRef` accepts: every reference still to be backed up leads to an object,
      and all of them are in one namespace. */
  predicate RefsOk(cl: Cluster, objs: map<Key, Obj>, spec: Spec) {
    && (forall slot: Slot :: Needs(spec, cl, slot) ==> SlotOk(cl, objs, slot))
    && |Namespaces(spec, cl)| <= 1
  }

  predicate SlotOk(cl: Cluster, objs: map<Key, Obj>, slot: Slot) {
    !ClusterRef(cl, slot).IsEmpty() && KeyOf(KindOf(slot), ClusterRef(cl, slot)) in objs
  }

  /** Which objects the references to be backed up lead to. */
  predicate LeadsTo(kind: Kind, ref: Ref, objs: map<Key, Obj>) {
    ref.Ref? && ref.name != "" && Key(kind, ref.ns, ref.name) in objs
  }

  /** The check in terms of the fields: hosts and vars of the operation, or else those of the cluster, the
      same for SSH if the cluster has it, and any two that come from the cluster are in one namespace. */
  lemma RefsOkMeans(cl: Cluster, objs: map<Key, Obj>, spec: Spec)
    ensures var hosts, vars := spec.hosts.IsEmpty(), spec.vars.IsEmpty();
      var ssh := spec.ssh.IsEmpty() && !cl.ssh.IsEmpty();
      RefsOk(cl, objs, spec) <==>
        && (hosts ==> LeadsTo(ConfigMap, cl.hosts, objs))
        && (vars ==> LeadsTo(ConfigMap, cl.vars, objs))
        && (ssh ==> LeadsTo(Secret, cl.ssh, objs))
        && (hosts && vars ==> cl.hosts.Ns() == cl.vars.Ns())
        && (hosts && ssh ==> cl.hosts.Ns() == cl.ssh.Ns())
        && (vars && ssh ==> cl.vars.Ns() == cl.ssh.Ns())
  {
    NamespacesMean(cl, spec);
    assert SlotOk(cl, objs, Hosts) <==> LeadsTo(ConfigMap, cl.hosts, objs);
    assert SlotOk(cl, objs, Vars) <==> LeadsTo(ConfigMap, cl.vars, objs);
    assert SlotOk(cl, objs, Ssh) <==> LeadsTo(Secret, cl.ssh, objs);
    assert Needs(spec, cl, Hosts) <==> spec.hosts.IsEmpty();
    assert Needs(spec, cl, Vars) <==> spec.vars.IsEmpty();
    assert Needs(spec, cl, Ssh) <==> spec.ssh.IsEmpty() && !cl.ssh.IsEmpty();
  }

  lemma AtMostOne<T>(s: set<T>)
    ensures |s| <= 1 <==> forall x, y | x in s && y in s :: x == y
  {
    if |s| > 1 {
      var x :| x in s;
      var rest := s - {x};
      assert |rest| == |s| - 1;
      var y :| y in rest;
      assert x in s && y in s && x != y;
    } else if x, y :| x in s && y in s && x != y {
      assert {x, y} <= s;
      SmallSubset({x, y}, s);
    }
  }

  /** All references to be backed up are in one namespace exactly if any two of them are. */
  lemma NamespacesMean(cl: Cluster, spec: Spec)
    ensures |Namespaces(spec, cl)| <= 1 <==>
      forall x: Slot, y: Slot | Needs(spec, cl, x) && Needs(spec, cl, y) ::
        ClusterRef(cl, x).Ns() == ClusterRef(cl, y).Ns()
  {
    AtMostOne(Namespaces(spec, cl));
    assert forall x: Slot | Needs(spec, cl, x) :: ClusterRef(cl, x).Ns() in Namespaces(spec, cl);
    assert forall n | n in Namespaces(spec, cl) :: exists x: Slot :: Needs(spec, cl, x) && ClusterRef(cl, x).Ns() == n;
  }

  /** Once the check passed it keeps passing while references are backed up one by one and objects
      are added. */
  lemma CheckKeepsPassing(cl: Cluster, objs: map<Key, Obj>, objs': map<Key, Obj>, spec: Spec, slot: Slot, ref: Ref)
    requires RefsOk(cl, objs, spec) && objs.Keys <= objs'.Keys && !ref.IsEmpty()
    ensures RefsOk(cl, objs', WithRef(spec, slot, ref))
    ensures RefsOk(cl, objs', spec)
  {
    assert forall x: Slot :: Needs(WithRef(spec, slot, ref), cl, x) ==> Needs(spec, cl, x);
    SmallSubset(Namespaces(WithRef(spec, slot, ref), cl), Namespaces(spec, cl));
  }

  /** Only the three references matter. */
  lemma SameReferences(cl: Cluster, objs: map<Key, Obj>, spec: Spec, spec': Spec)
    requires spec'.hosts == spec.hosts && spec'.vars == spec.vars && spec'.ssh == spec.ssh
    ensures RefsOk(cl, objs, spec') <==> RefsOk(cl, objs, spec)
  {
    assert forall x: Slot :: Needs(spec', cl, x) <==> Needs(spec, cl, x);
    assert Namespaces(spec', cl) == Namespaces(spec, cl);
  }

  lemma SmallSubset<T>(a: set<T>, b: set<T>)
    requires a <= b
    ensures |a| <= |b|
  {
    assert b == a + (b - a);
  }

  /** The references of an operation whose hosts and vars are backed up: only an SSH secret that is
      still to be backed up can be wrong. */
  predicate SecretMissing(cl: Cluster, objs: map<Key, Obj>, spec: Spec) {
    spec.ssh.IsEmpty() && !cl.ssh.IsEmpty() && KeyOf(Secret, cl.ssh) !in objs
  }

  lemma OnlySecretMissing(cl: Cluster, objs: map<Key, Obj>, spec: Spec)
    requires !spec.hosts.IsEmpty() && !spec.vars.IsEmpty()
    ensures !RefsOk(cl, objs, spec) <==> SecretMissing(cl, objs, spec)
  {
    assert Namespaces(spec, cl) == NamespaceOf(spec, cl, Ssh);
    assert Needs(spec, cl, Ssh) <==> spec.ssh.IsEmpty() && !cl.ssh.IsEmpty();
    assert !Needs(spec, cl, Hosts) && !Needs(spec, cl, Vars);
    assert SlotOk(cl, objs, Ssh) <==> !cl.ssh.IsEmpty() && KeyOf(Secret, cl.ssh) in objs;
  }
}
