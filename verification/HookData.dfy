/** The data behind the mounts of custom actions: ConfigMaps of other namespaces are copied to the
    operator's namespace under their own names, and a name that is taken there is left as it is
    (`injectCustomAction` in pkg/controllers/clusterops/controller.go). */
module HookData {
  import opened Objects
  import opened References
  import opened ControlPlane
  import JobVolumes

  function SourceKey(h: Hook): Key {
    KeyOf(ConfigMap, h.sourceRef)
  }

  /** A custom action whose ConfigMap is in another namespace. */
  predicate IsForeign(c: Config, h: Hook) {
    JobVolumes.IsCustom(h) && h.sourceRef.Ns() != c.ns
  }

  /** The objects after the ConfigMap of one action is brought here. */
  function Brought(c: Config, objs: map<Key, Obj>, u: nat, h: Hook): map<Key, Obj> {
    if IsForeign(c, h) && SourceKey(h) in objs && InjectKey(c, h.sourceRef) !in objs
    then objs[InjectKey(c, h.sourceRef) := Obj(objs[SourceKey(h)].data, [u])]
    else objs
  }

  function AllBrought(c: Config, objs: map<Key, Obj>, u: nat, hooks: seq<Hook>): map<Key, Obj> {
    if hooks == [] then objs
    else Brought(c, AllBrought(c, objs, u, hooks[..|hooks| - 1]), u, hooks[|hooks| - 1])
  }

  lemma NothingBrought(c: Config, objs: map<Key, Obj>, u: nat)
    ensures AllBrought(c, objs, u, []) == objs
  {
  }

  lemma BroughtOneMore(c: Config, objs: map<Key, Obj>, u: nat, hooks: seq<Hook>, h: Hook)
    ensures AllBrought(c, objs, u, hooks + [h]) == Brought(c, AllBrought(c, objs, u, hooks), u, h)
  {
    assert (hooks + [h])[..|hooks|] == hooks;
  }

  lemma {:induction false} AllBroughtAppends(c: Config, objs: map<Key, Obj>, u: nat, a: seq<Hook>, b: seq<Hook>)
    ensures AllBrought(c, objs, u, a + b) == AllBrought(c, AllBrought(c, objs, u, a), u, b)
  {
    if b == [] {
      assert a + b == a;
    } else {
      var front, last := b[..|b| - 1], b[|b| - 1];
      assert b == front + [last] && a + b == a + front + [last];
      AllBroughtAppends(c, objs, u, a, front);
      BroughtOneMore(c, objs, u, a + front, last);
      BroughtOneMore(c, AllBrought(c, objs, u, a), u, front, last);
    }
  }

  function DataOf(objs: map<Key, Obj>, key: Key): Option<Payload> {
    if key in objs then Some(objs[key].data) else None
  }

  /** The same objects with the same data; owners may differ. */
  ghost predicate SameData(objs: map<Key, Obj>, objs': map<Key, Obj>) {
    objs'.Keys == objs.Keys && forall k | k in objs :: objs'[k].data == objs[k].data
  }

  lemma {:induction false} BroughtSameData(c: Config, objs: map<Key, Obj>, objs': map<Key, Obj>, u: nat,
      hooks: seq<Hook>)
    requires SameData(objs, objs')
    ensures SameData(AllBrought(c, objs, u, hooks), AllBrought(c, objs', u, hooks))
  {
    if hooks != [] {
      BroughtSameData(c, objs, objs', u, hooks[..|hooks| - 1]);
    }
  }

  /** The first action that brings a ConfigMap of this name. */
  function FirstOf(c: Config, objs: map<Key, Obj>, hooks: seq<Hook>, name: string): Option<Hook> {
    if hooks == [] then None
    else
      var first := FirstOf(c, objs, hooks[..|hooks| - 1], name);
      var last := hooks[|hooks| - 1];
      if first.Some? then first
      else if IsForeign(c, last) && last.sourceRef.Name() == name && SourceKey(last) in objs then Some(last)
      else None
  }

  /** What is here under a name afterwards: what was here before, or else what the first action of
      that name brought. Objects in other namespaces stay as they are. */
  lemma {:induction false} BroughtData(c: Config, objs: map<Key, Obj>, u: nat, hooks: seq<Hook>, key: Key)
    ensures var objs' := AllBrought(c, objs, u, hooks); var first := FirstOf(c, objs, hooks, key.name);
      DataOf(objs', key) ==
        if key in objs then Some(objs[key].data)
        else if key.kind == ConfigMap && key.ns == c.ns && first.Some? then DataOf(objs, SourceKey(first.value))
        else None
    ensures var first := FirstOf(c, objs, hooks, key.name);
      first.Some? ==>
        && first.value in hooks && IsForeign(c, first.value) && first.value.sourceRef.Name() == key.name
        && SourceKey(first.value) in objs
  {
    if hooks != [] {
      var front, last := hooks[..|hooks| - 1], hooks[|hooks| - 1];
      BroughtData(c, objs, u, front, key);
      BroughtData(c, objs, u, front, InjectKey(c, last.sourceRef));
      BroughtData(c, objs, u, front, SourceKey(last));
      assert hooks == front + [last];
    }
  }

  /** After the pass the ConfigMap that action `h` mounts has the data of the one it refers to. */
  predicate OwnData(c: Config, objs: map<Key, Obj>, u: nat, hooks: seq<Hook>, h: Hook) {
    && SourceKey(h) in objs
    && DataOf(AllBrought(c, objs, u, hooks), InjectKey(c, h.sourceRef)) == DataOf(objs, SourceKey(h))
  }

  /** Exactly when: the ConfigMap that was here before has that data, or, if there was none, the one
      that the first action of this name brought. */
  lemma OwnDataIs(c: Config, objs: map<Key, Obj>, u: nat, hooks: seq<Hook>, h: Hook)
    requires h in hooks && JobVolumes.IsCustom(h) && SourceKey(h) in objs
    ensures var here := InjectKey(c, h.sourceRef); var data := DataOf(objs, SourceKey(h));
      OwnData(c, objs, u, hooks, h) <==>
        if here in objs then DataOf(objs, here) == data
        else
          FirstOf(c, objs, hooks, h.sourceRef.Name()).Some?
          && DataOf(objs, SourceKey(FirstOf(c, objs, hooks, h.sourceRef.Name()).value)) == data
  {
    BroughtData(c, objs, u, hooks, InjectKey(c, h.sourceRef));
  }

  predicate AllOwnData(c: Config, objs: map<Key, Obj>, u: nat, hooks: seq<Hook>) {
    forall h | h in hooks && JobVolumes.IsCustom(h) :: OwnData(c, objs, u, hooks, h)
  }

  /** What can be seen without looking into ConfigMaps: all are there, equal names mean equal
      namespaces, and the names of foreign ones are free here. */
  predicate NamesAgree(c: Config, keys: set<Key>, hooks: seq<Hook>) {
    && (forall h | h in hooks && JobVolumes.IsCustom(h) :: NameFits(c, keys, h))
    && (forall g, h | g in hooks && h in hooks && JobVolumes.IsCustom(g) && JobVolumes.IsCustom(h) ::
          g.sourceRef.Name() == h.sourceRef.Name() ==> g.sourceRef.Ns() == h.sourceRef.Ns())
  }

  predicate NameFits(c: Config, keys: set<Key>, h: Hook) {
    SourceKey(h) in keys && (IsForeign(c, h) ==> InjectKey(c, h.sourceRef) !in keys)
  }

  lemma FirstIsThere(c: Config, objs: map<Key, Obj>, hooks: seq<Hook>, h: Hook)
    requires h in hooks && IsForeign(c, h) && SourceKey(h) in objs
    ensures FirstOf(c, objs, hooks, h.sourceRef.Name()).Some?
  {
    var front, last := hooks[..|hooks| - 1], hooks[|hooks| - 1];
    assert hooks == front + [last];
    if h in front {
      FirstIsThere(c, objs, front, h);
    }
  }

  /** Whatever is in the ConfigMaps, every custom action gets the data it refers to: if and only if the
      names agree. */
  lemma OwnDataForAllContents(c: Config, keys: set<Key>, u: nat, hooks: seq<Hook>)
    ensures (forall objs: map<Key, Obj> | objs.Keys == keys :: AllOwnData(c, objs, u, hooks))
      <==> NamesAgree(c, keys, hooks)
  {
    if NamesAgree(c, keys, hooks) {
      forall objs: map<Key, Obj> | objs.Keys == keys
        ensures AllOwnData(c, objs, u, hooks)
      {
        NamesSuffice(c, objs, u, hooks);
      }
    }
    assert Telling(keys).Keys == keys;
    if forall objs: map<Key, Obj> | objs.Keys == keys :: AllOwnData(c, objs, u, hooks) {
      NamesFollow(c, keys, u, hooks);
    }
  }

  lemma NamesSuffice(c: Config, objs: map<Key, Obj>, u: nat, hooks: seq<Hook>)
    requires NamesAgree(c, objs.Keys, hooks)
    ensures AllOwnData(c, objs, u, hooks)
  {
    forall h | h in hooks && JobVolumes.IsCustom(h)
      ensures OwnData(c, objs, u, hooks, h)
    {
      assert NameFits(c, objs.Keys, h);
      OwnDataIs(c, objs, u, hooks, h);
      if IsForeign(c, h) {
        FirstIsThere(c, objs, hooks, h);
        BroughtData(c, objs, u, hooks, InjectKey(c, h.sourceRef));
      }
    }
  }

  /** Contents that tell namespaces apart. */
  function Telling(keys: set<Key>): (objs: map<Key, Obj>)
    ensures objs.Keys == keys
  {
    map k | k in keys :: Obj(Raw(k.ns), [])
  }

  lemma NamesFollow(c: Config, keys: set<Key>, u: nat, hooks: seq<Hook>)
    requires AllOwnData(c, Telling(keys), u, hooks)
    ensures NamesAgree(c, keys, hooks)
  {
    var objs := Telling(keys);
    forall h | h in hooks && JobVolumes.IsCustom(h)
      ensures NameFits(c, keys, h)
      ensures DataOf(AllBrought(c, objs, u, hooks), InjectKey(c, h.sourceRef)) == Some(Raw(h.sourceRef.Ns()))
    {
      assert OwnData(c, objs, u, hooks, h);
      OwnDataIs(c, objs, u, hooks, h);
    }
  }

  /** The mount of action `h` shows the data of the ConfigMap that it refers to. */
  predicate ShowsReference(c: Config, t: Template, objs: map<Key, Obj>, u: nat, hooks: seq<Hook>, h: Hook) {
    JobVolumes.Shows(t, JobVolumes.MountOf(h), h.sourceRef.Name()) && OwnData(c, objs, u, hooks, h)
  }

  predicate AllShowReferences(c: Config, t: Template, objs: map<Key, Obj>, u: nat, hooks: seq<Hook>) {
    forall h | h in hooks && JobVolumes.IsCustom(h) :: ShowsReference(c, t, objs, u, hooks, h)
  }

  /** No built-in volume has the name of a custom action's ConfigMap and shows something else. */
  predicate VolumesFree(t: Template, hooks: seq<Hook>) {
    forall h, v | h in hooks && JobVolumes.IsCustom(h) && v in t.volumes && v.name == h.sourceRef.Name() ::
      v.source == FromConfigMap(v.name)
  }

  /** In the Job for an operation, every mount of a custom action shows the data that the action
      refers to, whatever the contents: if and only if no built-in volume shows something else under
      its name, equal names mean equal namespaces, and the names of foreign ConfigMaps are free. */
  lemma MountsShowReferences(c: Config, spec: Spec, t: Template, keys: set<Key>, u: nat)
    requires JobVolumes.Added(JobVolumes.BaseTemplate(spec), t, JobVolumes.AllHooks(spec))
    ensures var hooks := JobVolumes.AllHooks(spec);
      (forall objs: map<Key, Obj> | objs.Keys == keys :: AllShowReferences(c, t, objs, u, hooks))
        <==> NamesAgree(c, keys, hooks) && VolumesFree(JobVolumes.BaseTemplate(spec), hooks)
  {
    var hooks := JobVolumes.AllHooks(spec);
    OwnDataForAllContents(c, keys, u, hooks);
    forall h | h in hooks && JobVolumes.IsCustom(h)
      ensures JobVolumes.Shows(t, JobVolumes.MountOf(h), h.sourceRef.Name())
        <==> forall v | v in JobVolumes.BaseTemplate(spec).volumes && v.name == h.sourceRef.Name() ::
               v.source == FromConfigMap(v.name)
    {
      ShownExactly(spec, t, h);
    }
    assert Telling(keys).Keys == keys;
    if forall objs: map<Key, Obj> | objs.Keys == keys :: AllShowReferences(c, t, objs, u, hooks) {
      forall objs: map<Key, Obj> | objs.Keys == keys
        ensures AllOwnData(c, objs, u, hooks)
      {
        assert AllShowReferences(c, t, objs, u, hooks);
      }
      assert AllShowReferences(c, t, Telling(keys), u, hooks);
    }
  }

  lemma ShownExactly(spec: Spec, t: Template, h: Hook)
    requires JobVolumes.Added(JobVolumes.BaseTemplate(spec), t, JobVolumes.AllHooks(spec))
    requires h in JobVolumes.AllHooks(spec) && JobVolumes.IsCustom(h)
    ensures JobVolumes.Shows(t, JobVolumes.MountOf(h), h.sourceRef.Name())
      <==> forall v | v in JobVolumes.BaseTemplate(spec).volumes && v.name == h.sourceRef.Name() ::
             v.source == FromConfigMap(v.name)
  {
    JobVolumes.BaseIsWellFormed(spec);
    JobVolumes.CustomHooksAre(JobVolumes.AllHooks(spec), h);
    JobVolumes.CustomMountBacked(JobVolumes.BaseTemplate(spec), JobVolumes.CustomHooks(JobVolumes.AllHooks(spec)), h);
  }

  /** Two actions with ConfigMaps of one name in two namespaces: both mounts show their volume, and
      the second one shows the data of the first. */
  lemma TwoNamespaces(c: Config, u: nat)
    ensures var g := Hook("shell", "a.sh", Some("configmap"), Ref(c.ns + "a", "scripts"), "");
      var h := Hook("shell", "b.sh", Some("configmap"), Ref(c.ns + "b", "scripts"), "");
      var objs := Telling({SourceKey(g), SourceKey(h)});
      && JobVolumes.IsCustom(g) && JobVolumes.IsCustom(h)
      && OwnData(c, objs, u, [g, h], g) && !OwnData(c, objs, u, [g, h], h)
      && DataOf(AllBrought(c, objs, u, [g, h]), InjectKey(c, h.sourceRef)) == DataOf(objs, SourceKey(g))
  {
    var g := Hook("shell", "a.sh", Some("configmap"), Ref(c.ns + "a", "scripts"), "");
    var h := Hook("shell", "b.sh", Some("configmap"), Ref(c.ns + "b", "scripts"), "");
    var objs := Telling({SourceKey(g), SourceKey(h)});
    assert "configmap"[0] != BUILTIN[0];
    assert (c.ns + "a")[|c.ns|] != (c.ns + "b")[|c.ns|];
    assert |c.ns + "a"| != |c.ns| && |c.ns + "b"| != |c.ns|;
    assert [g, h] == [] + [g] + [h];
    BroughtOneMore(c, objs, u, [], g);
    BroughtOneMore(c, objs, u, [g], h);
    assert [] + [g] == [g] && [g] + [h] == [g, h];
  }
}
