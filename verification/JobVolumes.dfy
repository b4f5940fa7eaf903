/** Compilation of the hooks of an operation to volumes and mounts of its Job
    (pkg/controllers/clusterops/controller.go), and its agreement with the entrypoint script. */
module JobVolumes {
  import opened Objects
  import EntryPoint

  /** What the Job module takes for an action that is not builtin. */
  predicate IsCustom(h: Hook) {
    h.source.Some? && h.source.value != BUILTIN
  }

  function CustomHooks(hooks: seq<Hook>): seq<Hook> {
    if hooks == [] then []
    else
      var front := CustomHooks(hooks[..|hooks| - 1]);
      if IsCustom(hooks[|hooks| - 1]) then front + [hooks[|hooks| - 1]] else front
  }

  /** The hooks of a spec in the order in which they run. */
  function AllHooks(spec: Spec): seq<Hook> {
    spec.preHook + [spec.main] + spec.postHook
  }

  function MountOf(h: Hook): Mount {
    var prefix := if h.actionType == EntryPoint.SH_ACTION then "/bin" else "/kubespray";
    Mount(h.sourceRef.Name(), prefix + "/" + h.action, h.action)
  }

  function BaseTemplate(spec: Spec): Template {
    var sshMounts := if spec.ssh.IsEmpty() then [] else [Mount("ssh-auth", "/auth/ssh-privatekey", "ssh-privatekey")];
    var sshVolumes := if spec.ssh.IsEmpty() then [] else [Volume("ssh-auth", FromSecret(spec.ssh.name))];
    Template(
      [Volume("entrypoint", FromConfigMap(spec.entry.Name())), Volume("hosts-conf", FromConfigMap(spec.hosts.Name())),
       Volume("vars-conf", FromConfigMap(spec.vars.Name()))] + sshVolumes,
      [Mount("entrypoint", "/bin/entrypoint.sh", "entrypoint.sh"), Mount("hosts-conf", "/conf/hosts.yml", "hosts.yml"),
       Mount("vars-conf", "/conf/group_vars.yml", "group_vars.yml")] + sshMounts)
  }

  predicate HasVolume(volumes: seq<Volume>, name: string) {
    exists v | v in volumes :: v.name == name
  }

  /** The template after one custom action: its mount, and its volume unless the name is taken. */
  function AddCustom(t: Template, h: Hook): Template
    requires !h.sourceRef.IsEmpty()
  {
    var name := h.sourceRef.name;
    Template(
      if HasVolume(t.volumes, name) then t.volumes else t.volumes + [Volume(name, FromConfigMap(name))],
      t.mounts + [MountOf(h)])
  }

  predicate Referenced(hooks: seq<Hook>) {
    forall h | h in hooks :: !h.sourceRef.IsEmpty()
  }

  function AddAll(t: Template, custom: seq<Hook>): Template
    requires Referenced(custom)
  {
    if custom == [] then t
    else AddCustom(AddAll(t, custom[..|custom| - 1]), custom[|custom| - 1])
  }

  /** Volume names are pairwise different, and every mount names a volume. */
  predicate WellFormed(t: Template) {
    && (forall i, j | 0 <= i < j < |t.volumes| :: t.volumes[i].name != t.volumes[j].name)
    && (forall m | m in t.mounts :: HasVolume(t.volumes, m.volume))
  }

  /** No two mounts have one path. */
  predicate PathsDistinct(mounts: seq<Mount>) {
    forall i, j | 0 <= i < j < |mounts| :: mounts[i].path != mounts[j].path
  }

  /** What the API server demands of volumes and mounts. */
  predicate Accepted(t: Template) {
    WellFormed(t) && PathsDistinct(t.mounts)
  }

  /** Mount `m` shows ConfigMap `name`. */
  predicate Shows(t: Template, m: Mount, name: string) {
    && m in t.mounts
    && Volume(m.volume, FromConfigMap(name)) in t.volumes
  }

  /** A mount at this path shows this key of this ConfigMap or Secret. */
  predicate ShowsAt(t: Template, path: string, key: string, source: Source) {
    exists m | m in t.mounts :: m.path == path && m.subPath == key && Volume(m.volume, source) in t.volumes
  }

  /** The inventory, the variables and the script are mounted where the script and Ansible look for them,
      each from its own reference, and the private key exactly if there is one. */
  predicate ShowsData(t: Template, spec: Spec) {
    && ShowsAt(t, "/conf/hosts.yml", "hosts.yml", FromConfigMap(spec.hosts.Name()))
    && ShowsAt(t, "/conf/group_vars.yml", "group_vars.yml", FromConfigMap(spec.vars.Name()))
    && ShowsAt(t, "/bin/entrypoint.sh", "entrypoint.sh", FromConfigMap(spec.entry.Name()))
    && if spec.ssh.IsEmpty() then forall m | m in t.mounts :: m.path != "/auth/ssh-privatekey"
       else ShowsAt(t, "/auth/ssh-privatekey", "ssh-privatekey", FromSecret(spec.ssh.Name()))
  }

  /** The Job object under construction. */
  class JobObject {
    var volumes: seq<Volume>
    var mounts: seq<Mount>

    function Content(): Template
      reads this
    {
      Template(volumes, mounts)
    }

    /** The volumes and mounts that `NewKubesprayJob` gives; it follows the three pointers. */
    constructor NewKubesprayJob(spec: Spec)
      requires !spec.entry.Nil? && !spec.hosts.Nil? && !spec.vars.Nil?
      ensures Content() == BaseTemplate(spec)
      ensures WellFormed(Content()) && ShowsData(Content(), spec)
    {
      volumes := [
        Volume("entrypoint", FromConfigMap(spec.entry.name)),
        Volume("hosts-conf", FromConfigMap(spec.hosts.name)),
        Volume("vars-conf", FromConfigMap(spec.vars.name))];
      mounts := [
        Mount("entrypoint", "/bin/entrypoint.sh", "entrypoint.sh"),
        Mount("hosts-conf", "/conf/hosts.yml", "hosts.yml"),
        Mount("vars-conf", "/conf/group_vars.yml", "group_vars.yml")];
      new;
      if !spec.ssh.IsEmpty() {
        mounts := mounts + [Mount("ssh-auth", "/auth/ssh-privatekey", "ssh-privatekey")];
        volumes := volumes + [Volume("ssh-auth", FromSecret(spec.ssh.name))];
      }
      BaseIsWellFormed(spec);
      BaseShowsData(spec);
    }

    /** The second half of `injectCustomAction`. */
    method InjectCustomAction(h: Hook)
      requires !h.sourceRef.IsEmpty()
      modifies this
      ensures Content() == AddCustom(old(Content()), h)
    {
      var name := h.sourceRef.name;
      var prefix := "/kubespray";
      if h.actionType == EntryPoint.SH_ACTION {
        prefix := "/bin";
      }
      var volumeExist := false;
      for i := 0 to |volumes|
        invariant !volumeExist
        invariant forall v | v in volumes[..i] :: v.name != name
      {
        if volumes[i].name == name {
          volumeExist := true;
          assert HasVolume(volumes, name);
          break;
        }
        assert volumes[..i + 1] == volumes[..i] + [volumes[i]];
      }
      assert !volumeExist ==> volumes[..|volumes|] == volumes;
      if !volumeExist {
        volumes := volumes + [Volume(name, FromConfigMap(name))];
      }
      mounts := mounts + [Mount(name, prefix + "/" + h.action, h.action)];
    }
  }

  lemma BaseIsWellFormed(spec: Spec)
    ensures WellFormed(BaseTemplate(spec))
  {
    var t := BaseTemplate(spec);
    var vs := t.volumes;
    assert "entrypoint"[0] != "hosts-conf"[0] && "vars-conf"[0] != "entrypoint"[0] && "ssh-auth"[0] != "entrypoint"[0];
    assert "hosts-conf"[0] != "vars-conf"[0] && "hosts-conf"[0] != "ssh-auth"[0] && "ssh-auth"[0] != "vars-conf"[0];
    assert vs[0] in vs && vs[1] in vs && vs[2] in vs;
    forall m | m in t.mounts
      ensures HasVolume(vs, m.volume)
    {
      if m.volume == "ssh-auth" {
        assert vs[3] in vs;
      }
    }
  }

  lemma ShownBy(t: Template, i: int, j: int)
    requires 0 <= i < |t.mounts| && 0 <= j < |t.volumes| && t.mounts[i].volume == t.volumes[j].name
    ensures ShowsAt(t, t.mounts[i].path, t.mounts[i].subPath, t.volumes[j].source)
  {
    assert t.mounts[i] in t.mounts;
    assert t.volumes[j] in t.volumes && t.volumes[j] == Volume(t.mounts[i].volume, t.volumes[j].source);
  }

  lemma BaseShowsData(spec: Spec)
    ensures ShowsData(BaseTemplate(spec), spec)
  {
    hide ShowsAt;
    var t := BaseTemplate(spec);
    ShownBy(t, 0, 0);
    ShownBy(t, 1, 1);
    ShownBy(t, 2, 2);
    if spec.ssh.IsEmpty() {
      assert "/conf/hosts.yml"[1] == 'c' && "/conf/group_vars.yml"[1] == 'c' && "/bin/entrypoint.sh"[1] == 'b';
      assert "/auth/ssh-privatekey"[1] == 'a';
    } else {
      ShownBy(t, 3, 3);
    }
  }

  lemma AddCustomKeepsJobWellFormed(t: Template, h: Hook)
    requires !h.sourceRef.IsEmpty() && WellFormed(t)
    ensures WellFormed(AddCustom(t, h))
  {
    var t' := AddCustom(t, h);
    forall v | v in t.volumes
      ensures v in t'.volumes
    {
    }
    if !HasVolume(t.volumes, h.sourceRef.name) {
      assert forall i | 0 <= i < |t.volumes| :: t.volumes[i] in t.volumes;
      assert t'.volumes[|t.volumes|] in t'.volumes;
    }
    forall m | m in t'.mounts
      ensures HasVolume(t'.volumes, m.volume)
    {
      if m in t.mounts {
        var v :| v in t.volumes && v.name == m.volume;
        assert v in t'.volumes;
      }
    }
  }

  /** However many custom actions are injected, and whatever their references are called, the Job
      stays well formed, and no volume that is there goes away. */
  lemma {:induction false} AddAllKeepsJobWellFormed(t: Template, custom: seq<Hook>)
    requires Referenced(custom) && WellFormed(t)
    ensures WellFormed(AddAll(t, custom))
    ensures t.volumes <= AddAll(t, custom).volumes
  {
    if custom != [] {
      var front := custom[..|custom| - 1];
      AddAllKeepsJobWellFormed(t, front);
      AddCustomKeepsJobWellFormed(AddAll(t, front), custom[|custom| - 1]);
    }
  }

  /** Mounts come in the order of the hooks. */
  lemma {:induction false} AddAllMountsInOrder(t: Template, custom: seq<Hook>)
    requires Referenced(custom)
    ensures |AddAll(t, custom).mounts| == |t.mounts| + |custom|
    ensures t.mounts <= AddAll(t, custom).mounts
    ensures forall i | 0 <= i < |custom| :: AddAll(t, custom).mounts[|t.mounts| + i] == MountOf(custom[i])
  {
    if custom != [] {
      AddAllMountsInOrder(t, custom[..|custom| - 1]);
    }
  }

  lemma MountThere(t: Template, custom: seq<Hook>, h: Hook)
    requires Referenced(custom) && h in custom
    ensures MountOf(h) in AddAll(t, custom).mounts
  {
    AddAllMountsInOrder(t, custom);
    var i :| 0 <= i < |custom| && custom[i] == h;
    assert AddAll(t, custom).mounts[|t.mounts| + i] == MountOf(h);
  }

  /** Volumes beyond the ones given are custom: each is backed by the ConfigMap of its own name. */
  lemma {:induction false} AddedVolumesAreOwn(t: Template, custom: seq<Hook>, v: Volume)
    requires Referenced(custom)
    requires v in AddAll(t, custom).volumes && v !in t.volumes
    ensures v == Volume(v.name, FromConfigMap(v.name))
  {
    if custom != [] && v in AddAll(t, custom[..|custom| - 1]).volumes {
      AddedVolumesAreOwn(t, custom[..|custom| - 1], v);
    }
  }

  lemma VolumeOfName(t: Template, v: Volume, w: Volume)
    requires WellFormed(t) && v in t.volumes && w in t.volumes && v.name == w.name
    ensures v == w
  {
  }

  lemma CustomVolume(t: Template, custom: seq<Hook>, h: Hook) returns (v: Volume)
    requires WellFormed(t) && Referenced(custom) && h in custom
    ensures MountOf(h) in AddAll(t, custom).mounts
    ensures v in AddAll(t, custom).volumes && v.name == h.sourceRef.name
    ensures v in t.volumes || v.source == FromConfigMap(v.name)
  {
    AddAllKeepsJobWellFormed(t, custom);
    MountThere(t, custom, h);
    v :| v in AddAll(t, custom).volumes && v.name == MountOf(h).volume;
    if v !in t.volumes {
      AddedVolumesAreOwn(t, custom, v);
    }
  }

  /** A custom mount shows the ConfigMap it was written for exactly if its name is not taken by a
      volume that was there before and shows something else. */
  lemma CustomMountBacked(t: Template, custom: seq<Hook>, h: Hook)
    requires WellFormed(t) && Referenced(custom) && h in custom
    ensures var name := h.sourceRef.name;
      (Shows(AddAll(t, custom), MountOf(h), name)
       <==> forall v | v in t.volumes && v.name == name :: v.source == FromConfigMap(name))
  {
    var t' := AddAll(t, custom);
    var name := h.sourceRef.name;
    AddAllKeepsJobWellFormed(t, custom);
    var v := CustomVolume(t, custom, h);
    forall w | w in t.volumes && w.name == name
      ensures w == v
    {
      assert w in t'.volumes;
      VolumeOfName(t', v, w);
    }
    var shown := Volume(name, FromConfigMap(name));
    if shown in t'.volumes {
      VolumeOfName(t', v, shown);
    }
  }

  const RESERVED: set<string> := {"entrypoint", "hosts-conf", "vars-conf", "ssh-auth"}

  /** References that avoid the four built-in volume names are always backed. */
  lemma UnreservedMountBacked(spec: Spec, custom: seq<Hook>, h: Hook)
    requires Referenced(custom) && h in custom && h.sourceRef.name !in RESERVED
    ensures Shows(AddAll(BaseTemplate(spec), custom), MountOf(h), h.sourceRef.name)
  {
    BaseIsWellFormed(spec);
    CustomMountBacked(BaseTemplate(spec), custom, h);
    assert forall v | v in BaseTemplate(spec).volumes :: v.name in RESERVED;
  }

  lemma {:induction false} CustomHooksAre(hooks: seq<Hook>, h: Hook)
    ensures h in CustomHooks(hooks) <==> h in hooks && IsCustom(h)
  {
    if hooks != [] {
      CustomHooksAre(hooks[..|hooks| - 1], h);
      assert hooks == hooks[..|hooks| - 1] + [hooks[|hooks| - 1]];
    }
  }

  lemma {:induction false} CustomHooksAppend(a: seq<Hook>, b: seq<Hook>)
    ensures CustomHooks(a + b) == CustomHooks(a) + CustomHooks(b)
  {
    if b == [] {
      assert a + b == a;
    } else {
      var ab := a + b;
      assert ab[..|ab| - 1] == a + b[..|b| - 1];
      CustomHooksAppend(a, b[..|b| - 1]);
    }
  }

  lemma AddAllOneMore(t: Template, custom: seq<Hook>, h: Hook)
    requires Referenced(custom) && !h.sourceRef.IsEmpty()
    ensures Referenced(custom + [h]) && AddAll(t, custom + [h]) == AddCustom(AddAll(t, custom), h)
  {
    assert (custom + [h])[..|custom|] == custom;
  }

  lemma {:induction false} AddAllAppends(t: Template, a: seq<Hook>, b: seq<Hook>)
    requires Referenced(a) && Referenced(b)
    ensures Referenced(a + b)
    ensures AddAll(t, a + b) == AddAll(AddAll(t, a), b)
  {
    if b == [] {
      assert a + b == a;
    } else {
      var front, last := b[..|b| - 1], b[|b| - 1];
      assert b == front + [last] && a + b == a + front + [last];
      AddAllAppends(t, a, front);
      AddAllOneMore(t, a + front, last);
      AddAllOneMore(AddAll(t, a), front, last);
    }
  }

  /** Template `t'` is `t` and what the custom ones of `hooks` add, all of which have references. */
  predicate Added(t: Template, t': Template, hooks: seq<Hook>) {
    Referenced(CustomHooks(hooks)) && t' == AddAll(t, CustomHooks(hooks))
  }

  lemma AddedIsWellFormed(t: Template, t': Template, hooks: seq<Hook>)
    requires WellFormed(t) && Added(t, t', hooks)
    ensures WellFormed(t')
  {
    AddAllKeepsJobWellFormed(t, CustomHooks(hooks));
  }

  // Mount paths.

  const ENTRYPOINT_PATH := "/bin/entrypoint.sh"

  /** Two custom actions have one mount path: they are called alike, and both are shell actions or
      neither is. */
  predicate SamePath(g: Hook, h: Hook) {
    g.action == h.action && (g.actionType == EntryPoint.SH_ACTION <==> h.actionType == EntryPoint.SH_ACTION)
  }

  /** What a spec needs for distinct mount paths: no custom action occurs twice, and none is a shell
      action with the name of the entrypoint script. */
  predicate PathsFree(hooks: seq<Hook>) {
    var custom := CustomHooks(hooks);
    && (forall i, j | 0 <= i < j < |custom| :: !SamePath(custom[i], custom[j]))
    && (forall h | h in custom :: !(h.actionType == EntryPoint.SH_ACTION && h.action == "entrypoint.sh"))
  }

  /** The first letter behind the slash tells shell actions, and the name of the action comes last. */
  lemma CustomPath(h: Hook)
    ensures var x := MountOf(h).path;
      && |x| > |h.action| && x[|x| - |h.action|..] == h.action
      && x[1] == (if h.actionType == EntryPoint.SH_ACTION then 'b' else 'k')
      && (h.actionType == EntryPoint.SH_ACTION ==> x == "/bin/" + h.action)
  {
    assert "/bin" + "/" == "/bin/";
  }

  lemma SamePathMeans(g: Hook, h: Hook)
    ensures MountOf(g).path == MountOf(h).path <==> SamePath(g, h)
  {
    CustomPath(g);
    CustomPath(h);
    if MountOf(g).path == MountOf(h).path {
      assert |g.action| == |h.action|;
    }
  }

  lemma CancelFront(a: string, x: string, y: string)
    ensures a + x == a + y ==> x == y
  {
    assert (a + x)[|a|..] == x && (a + y)[|a|..] == y;
  }

  lemma EntrypointPath(h: Hook)
    ensures MountOf(h).path == ENTRYPOINT_PATH <==>
      h.actionType == EntryPoint.SH_ACTION && h.action == "entrypoint.sh"
  {
    hide MountOf;
    CustomPath(h);
    EntrypointParts();
    CancelFront("/bin/", h.action, "entrypoint.sh");
  }

  lemma EntrypointParts()
    ensures ENTRYPOINT_PATH == "/bin/" + "entrypoint.sh" && ENTRYPOINT_PATH[1] == 'b'
  {
  }

  lemma BuiltinPathStart(m: Mount, spec: Spec)
    requires m in BaseTemplate(spec).mounts
    ensures |m.path| > 1 && (m.path == ENTRYPOINT_PATH || m.path[1] in {'a', 'c'})
  {
  }

  lemma BuiltinPath(h: Hook, m: Mount, spec: Spec)
    requires m in BaseTemplate(spec).mounts
    ensures MountOf(h).path == m.path <==>
      m.path == ENTRYPOINT_PATH && h.actionType == EntryPoint.SH_ACTION && h.action == "entrypoint.sh"
  {
    CustomPath(h);
    EntrypointPath(h);
    BuiltinPathStart(m, spec);
  }

  lemma BasePathsDistinct(spec: Spec)
    ensures PathsDistinct(BaseTemplate(spec).mounts) && BaseTemplate(spec).mounts[0].path == ENTRYPOINT_PATH
  {
    assert ENTRYPOINT_PATH[1] == 'b' && "/auth/ssh-privatekey"[1] == 'a';
    assert "/conf/hosts.yml"[1] == 'c' && "/conf/group_vars.yml"[1] == 'c';
    assert "/conf/hosts.yml"[6] != "/conf/group_vars.yml"[6];
  }

  lemma ShowsAtStays(t: Template, t': Template, path: string, key: string, source: Source)
    requires t.volumes <= t'.volumes && t.mounts <= t'.mounts && ShowsAt(t, path, key, source)
    ensures ShowsAt(t', path, key, source)
  {
    var m :| m in t.mounts && m.path == path && m.subPath == key && Volume(m.volume, source) in t.volumes;
    var i :| 0 <= i < |t.mounts| && t.mounts[i] == m;
    var j :| 0 <= j < |t.volumes| && t.volumes[j] == Volume(m.volume, source);
    assert t'.mounts[i] == m && t'.volumes[j] == Volume(m.volume, source);
  }

  /** Custom actions do not change what the built-in mounts show. */
  lemma JobShowsData(spec: Spec, t: Template)
    requires Added(BaseTemplate(spec), t, AllHooks(spec))
    ensures ShowsData(t, spec)
  {
    var base, custom := BaseTemplate(spec), CustomHooks(AllHooks(spec));
    BaseIsWellFormed(spec);
    BaseShowsData(spec);
    AddAllKeepsJobWellFormed(base, custom);
    AddAllMountsInOrder(base, custom);
    ShowsAtStays(base, t, "/conf/hosts.yml", "hosts.yml", FromConfigMap(spec.hosts.Name()));
    ShowsAtStays(base, t, "/conf/group_vars.yml", "group_vars.yml", FromConfigMap(spec.vars.Name()));
    ShowsAtStays(base, t, "/bin/entrypoint.sh", "entrypoint.sh", FromConfigMap(spec.entry.Name()));
    if spec.ssh.IsEmpty() {
      NoKeyMounted(base, t, custom);
    } else {
      ShowsAtStays(base, t, "/auth/ssh-privatekey", "ssh-privatekey", FromSecret(spec.ssh.Name()));
    }
  }

  lemma NoKeyMounted(base: Template, t: Template, custom: seq<Hook>)
    requires |t.mounts| == |base.mounts| + |custom| && base.mounts <= t.mounts
    requires forall i | 0 <= i < |custom| :: t.mounts[|base.mounts| + i] == MountOf(custom[i])
    requires forall m | m in base.mounts :: m.path != "/auth/ssh-privatekey"
    ensures forall m | m in t.mounts :: m.path != "/auth/ssh-privatekey"
  {
    forall i | 0 <= i < |t.mounts|
      ensures t.mounts[i].path != "/auth/ssh-privatekey"
    {
      if i < |base.mounts| {
        assert t.mounts[i] == base.mounts[i];
      } else {
        CustomPath(custom[i - |base.mounts|]);
        assert "/auth/ssh-privatekey"[1] == 'a';
      }
    }
  }

  /** And where no two mounts have one path, nothing else is shown there. */
  lemma ShownAlone(t: Template, path: string, key: string, source: Source, m: Mount, v: Volume)
    requires Accepted(t) && ShowsAt(t, path, key, source)
    requires m in t.mounts && m.path == path && v in t.volumes && v.name == m.volume
    ensures m.subPath == key && v.source == source
  {
    var n :| n in t.mounts && n.path == path && n.subPath == key && Volume(n.volume, source) in t.volumes;
    var i :| 0 <= i < |t.mounts| && t.mounts[i] == m;
    var j :| 0 <= j < |t.mounts| && t.mounts[j] == n;
    assert i == j;
    VolumeOfName(t, v, Volume(n.volume, source));
  }

  /** The mounts of the Job: the built-in ones, and then those of the custom actions. */
  predicate MountsAre(base: seq<Mount>, mounts: seq<Mount>, custom: seq<Hook>) {
    && |mounts| == |base| + |custom| && base <= mounts
    && forall i | 0 <= i < |custom| :: mounts[|base| + i] == MountOf(custom[i])
  }

  lemma MountsOf(spec: Spec, t: Template)
    requires Added(BaseTemplate(spec), t, AllHooks(spec))
    ensures MountsAre(BaseTemplate(spec).mounts, t.mounts, CustomHooks(AllHooks(spec)))
  {
    AddAllMountsInOrder(BaseTemplate(spec), CustomHooks(AllHooks(spec)));
  }

  lemma CustomPathsDistinct(base: seq<Mount>, mounts: seq<Mount>, custom: seq<Hook>, spec: Spec)
    requires base == BaseTemplate(spec).mounts && base[0].path == ENTRYPOINT_PATH
    requires MountsAre(base, mounts, custom) && PathsDistinct(mounts) && custom == CustomHooks(AllHooks(spec))
    ensures PathsFree(AllHooks(spec))
  {
    forall i, j | 0 <= i < j < |custom|
      ensures !SamePath(custom[i], custom[j])
    {
      SamePathMeans(custom[i], custom[j]);
      assert mounts[|base| + i].path != mounts[|base| + j].path;
    }
    forall h | h in custom
      ensures !(h.actionType == EntryPoint.SH_ACTION && h.action == "entrypoint.sh")
    {
      var i :| 0 <= i < |custom| && custom[i] == h;
      BuiltinPath(h, base[0], spec);
      assert mounts[0].path != mounts[|base| + i].path;
    }
  }

  lemma MountPathsDistinct(base: seq<Mount>, mounts: seq<Mount>, custom: seq<Hook>, spec: Spec)
    requires base == BaseTemplate(spec).mounts && PathsDistinct(base) && custom == CustomHooks(AllHooks(spec))
    requires MountsAre(base, mounts, custom) && PathsFree(AllHooks(spec))
    ensures PathsDistinct(mounts)
  {
    forall i, j | 0 <= i < j < |mounts|
      ensures mounts[i].path != mounts[j].path
    {
      if i >= |base| {
        SamePathMeans(custom[i - |base|], custom[j - |base|]);
      } else if j >= |base| {
        assert mounts[i] == base[i] && custom[j - |base|] in custom;
        BuiltinPath(custom[j - |base|], base[i], spec);
      } else {
        assert base[i].path != base[j].path;
      }
    }
  }

  /** The mount paths of the Job for a spec are distinct exactly if its custom actions allow it. */
  lemma PathsAre(spec: Spec, t: Template)
    requires Added(BaseTemplate(spec), t, AllHooks(spec))
    ensures PathsDistinct(t.mounts) <==> PathsFree(AllHooks(spec))
  {
    var base, custom := BaseTemplate(spec).mounts, CustomHooks(AllHooks(spec));
    MountsOf(spec, t);
    BasePathsDistinct(spec);
    if PathsDistinct(t.mounts) {
      CustomPathsDistinct(base, t.mounts, custom, spec);
    } else if PathsFree(AllHooks(spec)) {
      MountPathsDistinct(base, t.mounts, custom, spec);
    }
  }

  lemma NothingAdded(t: Template)
    ensures Added(t, t, [])
  {
  }

  lemma MoreAdded(t: Template, t': Template, t'': Template, a: seq<Hook>, b: seq<Hook>)
    requires Added(t, t', a) && Added(t', t'', b)
    ensures Added(t, t'', a + b)
  {
    CustomHooksAppend(a, b);
    AddAllAppends(t, CustomHooks(a), CustomHooks(b));
  }

  lemma OneAdded(t: Template, t': Template, t'': Template, hooks: seq<Hook>, h: Hook)
    requires Added(t, t', hooks)
    requires if IsCustom(h) then !h.sourceRef.IsEmpty() && t'' == AddCustom(t', h) else t'' == t'
    ensures Added(t, t'', hooks + [h])
  {
    var custom := if IsCustom(h) then [h] else [];
    assert CustomHooks([h]) == custom;
    assert custom != [] ==> AddAll(t', custom) == AddCustom(AddAll(t', []), h) by {
      assert custom != [] ==> custom[..|custom| - 1] == [];
    }
    MoreAdded(t, t', t'', hooks, [h]);
  }

  /** Script and Job agree for every spec that compiles and whose custom actions have references:
      - the two modules call every action either builtin or custom, never both and never neither;
      - the playbook that a hook's command runs is found where the Job mounts the custom action,
        under the key of the ConfigMap that has the action's name;
      - a shell action is mounted under `/bin`, and the command is its bare name. */
  lemma ScriptAndJobAgree(spec: Spec, h: Hook)
    requires EntryPoint.ValidActions(spec) && h in AllHooks(spec)
    requires Referenced(CustomHooks(AllHooks(spec)))
    ensures EntryPoint.IsBuiltin(h) <==> !IsCustom(h)
    ensures IsCustom(h) <==> h.source.Some? && h.source.value != "builtin"
    ensures IsCustom(h) ==> MountOf(h) in AddAll(BaseTemplate(spec), CustomHooks(AllHooks(spec))).mounts
    ensures IsCustom(h) ==> MountOf(h).subPath == h.action
    ensures h.actionType == EntryPoint.PB_ACTION && IsCustom(h) ==>
      EntryPoint.RunsPlaybook(EntryPoint.Command(h, !spec.ssh.IsEmpty()), MountOf(h).path)
    ensures h.actionType == EntryPoint.SH_ACTION ==>
      && MountOf(h).path == "/bin/" + h.action
      && EntryPoint.Command(h, !spec.ssh.IsEmpty()) == h.action
  {
    assert EntryPoint.ValidAction(h);
    EntryPoint.HookCommandMeaning(h, !spec.ssh.IsEmpty());
    assert "/kubespray" + "/" + h.action == "/kubespray/" + h.action;
    assert "/bin" + "/" + h.action == "/bin/" + h.action;
    if IsCustom(h) {
      var custom := CustomHooks(AllHooks(spec));
      CustomHooksAre(AllHooks(spec), h);
      MountThere(BaseTemplate(spec), custom, h);
    }
  }
}
