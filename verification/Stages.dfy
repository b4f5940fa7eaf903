/** The stages of a pass before its operation has a Job, as properties of the stored operation. */
module Stages {
  import opened Text
  import opened Objects
  import opened References
  import opened ControlPlane
  import EntryPoint
  import JobVolumes

  datatype Stage = OwnerStage | DigestStage | FlagStage | HostsStage | VarsStage | SshStage | EntryStage | JobStage

  function StageOf(slot: Slot): Stage {
    match slot
    case Hosts => HostsStage
    case Vars => VarsStage
    case Ssh => SshStage
  }

  predicate Lacks(op: Op, cl: Cluster, g: Stage) {
    match g
    case OwnerStage => cl.uid != 0 && cl.uid !in op.owners
    case DigestStage => op.status.digest == NoDigest
    case FlagStage => op.status.digest != NoDigest && !op.status.modified && op.status.digest != CalSalt(op.spec)
    case HostsStage => Needs(op.spec, cl, Hosts)
    case VarsStage => Needs(op.spec, cl, Vars)
    case SshStage => Needs(op.spec, cl, Ssh)
    case EntryStage => op.spec.entry.IsEmpty()
    case JobStage => op.status.jobRef.IsEmpty()
  }

  /** The stage that the next pass completes. */
  function FirstLack(op: Op, cl: Cluster): Option<Stage> {
    if Lacks(op, cl, OwnerStage) then Some(OwnerStage)
    else if Lacks(op, cl, DigestStage) then Some(DigestStage)
    else if Lacks(op, cl, FlagStage) then Some(FlagStage)
    else if Lacks(op, cl, HostsStage) then Some(HostsStage)
    else if Lacks(op, cl, VarsStage) then Some(VarsStage)
    else if Lacks(op, cl, SshStage) then Some(SshStage)
    else if Lacks(op, cl, EntryStage) then Some(EntryStage)
    else if Lacks(op, cl, JobStage) then Some(JobStage)
    else None
  }

  /** The order in which passes complete the stages. */
  function Place(g: Stage): nat {
    match g
    case OwnerStage => 0
    case DigestStage => 1
    case FlagStage => 2
    case HostsStage => 3
    case VarsStage => 4
    case SshStage => 5
    case EntryStage => 6
    case JobStage => 7
  }

  /** The stage that the next pass completes is the first one in this order that is missing. */
  lemma FirstLackIsFirst(op: Op, cl: Cluster, g: Stage)
    ensures FirstLack(op, cl) == Some(g) <==>
      Lacks(op, cl, g) && forall x: Stage :: Lacks(op, cl, x) ==> Place(g) <= Place(x)
    ensures FirstLack(op, cl) == None <==> forall x: Stage :: !Lacks(op, cl, x)
  {
    var first := FirstLack(op, cl);
    if first.Some? {
      assert Lacks(op, cl, first.value);
      assert forall x: Stage :: Lacks(op, cl, x) ==> Place(first.value) <= Place(x);
      assert Lacks(op, cl, g) && Place(g) <= Place(first.value) ==> g == first.value;
    }
  }

  function One(op: Op, cl: Cluster, g: Stage): nat {
    if Lacks(op, cl, g) then 1 else 0
  }

  /** How many stages are missing: the measure that passes bring down. A digest that is missing cannot
      be wrong, so one stage is always done. */
  function StagesLeft(op: Op, cl: Cluster): (n: nat)
    ensures n <= 7
  {
    One(op, cl, OwnerStage) + One(op, cl, DigestStage) + One(op, cl, FlagStage)
    + One(op, cl, HostsStage) + One(op, cl, VarsStage) + One(op, cl, SshStage)
    + One(op, cl, EntryStage) + One(op, cl, JobStage)
  }

  /** The stage that a write completes, if it is one of the stages' writes. */
  function StageDone(w: OpWrite): Option<Stage> {
    match w
    case OwnByCluster(_, _) => Some(OwnerStage)
    case TakeDigest => Some(DigestStage)
    case FlagModified => Some(FlagStage)
    case FillRef(copy) => Some(StageOf(copy.slot))
    case FillEntry(_, _) => Some(EntryStage)
    case SetJobRef(_, _, _, _, _) => Some(JobStage)
    case _ => None
  }

  /** A stage's write completes that stage and undoes no other. */
  lemma WriteCompletesOneStage(c: Config, o: string, op: Op, cl: Cluster, w: OpWrite, rv: nat, g: Stage)
    requires StageDone(w).Some? && Lacks(op, cl, StageDone(w).value)
    requires w.OwnByCluster? ==> w.cl.uid == cl.uid
    requires w.FillRef? ==> !CopyRef(c, w.copy).IsEmpty()
    requires w.SetJobRef? ==> !w.key.IsEmpty()
    ensures Lacks(Written(c, o, op, w).(rv := rv), cl, g) <==> Lacks(op, cl, g) && Some(g) != StageDone(w)
  {
    assert |o + ENTRYPOINT_SUFFIX| > 0;
    if w.FillRef? {
      assert w.copy.slot == Hosts || w.copy.slot == Vars || w.copy.slot == Ssh;
    }
    assert Summary(Written(c, o, op, w).spec) == Summary(op.spec);
  }

  lemma OneGoesDown(op: Op, op': Op, cl: Cluster, g: Stage, done: Stage)
    requires Lacks(op, cl, done) && (Lacks(op', cl, g) <==> Lacks(op, cl, g) && g != done)
    ensures One(op', cl, g) == if g == done then One(op, cl, g) - 1 else One(op, cl, g)
  {
  }

  /** So the measure goes down by exactly one. */
  lemma StagesLeftGoDown(op: Op, op': Op, cl: Cluster, done: Stage)
    requires Lacks(op, cl, done)
    requires forall g :: Lacks(op', cl, g) <==> Lacks(op, cl, g) && g != done
    ensures StagesLeft(op', cl) == StagesLeft(op, cl) - 1
  {
    hide Lacks, One;
    OneGoesDown(op, op', cl, OwnerStage, done);
    OneGoesDown(op, op', cl, DigestStage, done);
    OneGoesDown(op, op', cl, FlagStage, done);
    OneGoesDown(op, op', cl, HostsStage, done);
    OneGoesDown(op, op', cl, VarsStage, done);
    OneGoesDown(op, op', cl, SshStage, done);
    OneGoesDown(op, op', cl, EntryStage, done);
    OneGoesDown(op, op', cl, JobStage, done);
  }

  // When passes go through.

  /** What `HookCustomAction` accepts. */
  predicate HookOk(c: Config, objs: map<Key, Obj>, h: Hook) {
    !h.sourceRef.IsEmpty() && (h.sourceRef.Ns() != c.ns ==> KeyOf(ConfigMap, h.sourceRef) in objs)
  }

  predicate HooksOk(c: Config, objs: map<Key, Obj>, hooks: seq<Hook>) {
    forall h | h in hooks && JobVolumes.IsCustom(h) :: HookOk(c, objs, h)
  }

  /** Where the backup of a reference goes that is taken at time `t`. */
  function StampedKey(c: Config, cl: Cluster, slot: Slot, t: nat): Key {
    Key(KindOf(slot), c.ns, ClusterRef(cl, slot).Name() + Stamp(t))
  }

  /** The names of backups of the cluster's references are free from time `t` on. */
  ghost predicate Unstamped(c: Config, objs: map<Key, Obj>, cl: Cluster, t: nat) {
    forall slot: Slot, u: nat | u >= t :: StampedKey(c, cl, slot, u) !in objs
  }

  /** Everything that passes need is there, and no Job of this name is where none can be found. */
  ghost predicate Ready(c: Config, s: State, o: string, t: nat) {
    && o in s.ops && Live(s.ops[o]) && s.ops[o].spec.cluster in s.clusters
    && var op := s.ops[o]; var cl := s.clusters[op.spec.cluster];
    && ValidImage(c.alnum, op.spec.image)
    && RefsOk(cl, s.objs, op.spec) && !cl.hosts.IsEmpty() && !cl.vars.IsEmpty()
    && EntryPoint.ValidActions(op.spec)
    && HooksOk(c, s.objs, JobVolumes.AllHooks(op.spec)) && JobVolumes.PathsFree(JobVolumes.AllHooks(op.spec))
    && s.accounts != []
    && (JobKey(c, o) !in s.jobs || op.spec.hosts.IsEmpty() || op.spec.hosts.Ns() == c.ns)
    && Unstamped(c, s.objs, cl, t)
  }

  lemma StampedOnce(c: Config, objs: map<Key, Obj>, obj: Obj, cl: Cluster, slot: Slot, t: nat)
    requires Unstamped(c, objs, cl, t)
    ensures Unstamped(c, objs[StampedKey(c, cl, slot, t) := obj], cl, t + 1)
  {
    forall x: Slot, u: nat | u >= t + 1
      ensures StampedKey(c, cl, x, u) !in objs[StampedKey(c, cl, slot, t) := obj]
    {
      if StampedKey(c, cl, x, u) == StampedKey(c, cl, slot, t) {
        StampedNameInjective(ClusterRef(cl, slot).Name(), t, ClusterRef(cl, x).Name(), u);
      }
    }
  }

  lemma EntryUnstamped(c: Config, objs: map<Key, Obj>, key: Key, obj: Obj, o: string, cl: Cluster, t: nat)
    requires Unstamped(c, objs, cl, t) && key.name == o + ENTRYPOINT_SUFFIX
    ensures Unstamped(c, objs[key := obj], cl, t + 1)
  {
    forall x: Slot, u: nat | u >= t + 1
      ensures StampedKey(c, cl, x, u) !in objs[key := obj]
    {
      StampedNameIsNoEntrypoint(ClusterRef(cl, x).Name(), u, o);
    }
  }

  /** What a pass does that completes stage `g` before the Job is recorded: this stage is done, the
      others are as before, and the next pass finds everything it needs. The last stage records the
      Job of this name: the one that is there already, if a pass crashed after creating it. */
  ghost predicate Progress(c: Config, s: State, s': State, o: string, cl: Cluster, g: Stage) {
    && o in s.ops && o in s'.ops && s'.ops[o].uid == s.ops[o].uid && s'.ops[o].spec.cluster == s.ops[o].spec.cluster
    && s'.clusters == s.clusters && s'.now == s.now
    && (forall x :: Lacks(s'.ops[o], cl, x) <==> Lacks(s.ops[o], cl, x) && x != g)
    && if g == JobStage
       then
         && s'.ops[o].status.jobRef == JobKey(c, o) && s'.ops[o].status.phase == Running
         && JobRecorded(c, s.jobs, s'.jobs, o)
       else s'.jobs == s.jobs && Ready(c, s', o, s.now + 1)
  }

  ghost predicate JobRecorded(c: Config, jobs: map<Ref, Job>, jobs': map<Ref, Job>, o: string) {
    && JobKey(c, o) in jobs'
    && if JobKey(c, o) in jobs then jobs' == jobs else jobs' == jobs[JobKey(c, o) := jobs'[JobKey(c, o)]]
  }

  lemma WriteKeepsActions(c: Config, o: string, op: Op, w: OpWrite)
    ensures var spec, spec' := op.spec, Written(c, o, op, w).spec;
      && JobVolumes.AllHooks(spec') == JobVolumes.AllHooks(spec)
      && (EntryPoint.ValidActions(spec') <==> EntryPoint.ValidActions(spec))
      && spec'.image == spec.image && spec'.cluster == spec.cluster
  {
    if w.FillRef? {
      assert w.copy.slot == Hosts || w.copy.slot == Vars || w.copy.slot == Ssh;
    }
  }

  /** A stage's write leaves the next pass the references it needs. */
  lemma WriteKeepsReferences(c: Config, o: string, op: Op, cl: Cluster, objs: map<Key, Obj>, objs': map<Key, Obj>,
      w: OpWrite)
    requires RefsOk(cl, objs, op.spec) && objs.Keys <= objs'.Keys
    requires w.FillRef? ==> !CopyRef(c, w.copy).IsEmpty()
    ensures RefsOk(cl, objs', Written(c, o, op, w).spec)
  {
    hide RefsOk;
    if w.FillRef? {
      CheckKeepsPassing(cl, objs, objs', op.spec, w.copy.slot, CopyRef(c, w.copy));
    } else {
      var spec' := Written(c, o, op, w).spec;
      CheckKeepsPassing(cl, objs, objs', op.spec, Hosts, Ref("", "x"));
      SameReferences(cl, objs', op.spec, spec');
    }
  }

  /** The stages before the last. */
  lemma StageProgress(c: Config, s: State, s': State, o: string, w: OpWrite)
    requires Ready(c, s, o, s.now)
    requires StageDone(w).Some? && !w.SetJobRef?
    requires w.FillRef? ==> !CopyRef(c, w.copy).IsEmpty()
    requires var cl := s.clusters[s.ops[o].spec.cluster];
      Lacks(s.ops[o], cl, StageDone(w).value) && (w.OwnByCluster? ==> w.cl.uid == cl.uid)
    requires s' == s.(ops := s.ops[o := Written(c, o, s.ops[o], w).(rv := s'.rev)], objs := s'.objs,
                      rev := s'.rev, hist := s'.hist)
    requires s.objs.Keys <= s'.objs.Keys && Unstamped(c, s'.objs, s.clusters[s.ops[o].spec.cluster], s.now + 1)
    ensures Progress(c, s, s', o, s.clusters[s.ops[o].spec.cluster], StageDone(w).value)
  {
    var op, op' := s.ops[o], s'.ops[o];
    var cl := s.clusters[op.spec.cluster];
    forall g
      ensures Lacks(op', cl, g) <==> Lacks(op, cl, g) && g != StageDone(w).value
    {
      WriteCompletesOneStage(c, o, op, cl, w, s'.rev, g);
    }
    WriteKeepsActions(c, o, op, w);
    WriteKeepsReferences(c, o, op, cl, s.objs, s'.objs, w);
  }

  lemma LaterUnstamped(c: Config, objs: map<Key, Obj>, cl: Cluster, t: nat)
    requires Unstamped(c, objs, cl, t)
    ensures Unstamped(c, objs, cl, t + 1)
  {
  }

  lemma BackupProgress(c: Config, s: State, s': State, o: string, copy: Copy)
    requires Ready(c, s, o, s.now)
    requires var cl := s.clusters[s.ops[o].spec.cluster];
      Needs(s.ops[o].spec, cl, copy.slot) && copy.src == ClusterRef(cl, copy.slot) && copy.stamp == s.now
    requires s' == s.(ops := s.ops[o := Written(c, o, s.ops[o], FillRef(copy)).(rv := s'.rev)], rev := s'.rev,
                      objs := s.objs[CopyKey(c, copy) := Obj(copy.data, [copy.uid])], hist := s'.hist)
    ensures Progress(c, s, s', o, s.clusters[s.ops[o].spec.cluster], StageOf(copy.slot))
  {
    StampedOnce(c, s.objs, Obj(copy.data, [copy.uid]), s.clusters[s.ops[o].spec.cluster], copy.slot, s.now);
    assert |copy.src.Name() + Stamp(copy.stamp)| > 0;
    StageProgress(c, s, s', o, FillRef(copy));
  }

  lemma EntryProgress(c: Config, s: State, s': State, o: string, script: Payload, u: nat, i: nat)
    requires Ready(c, s, o, s.now) && s.ops[o].spec.entry.IsEmpty()
    requires s' == s.(ops := s.ops[o := Written(c, o, s.ops[o], FillEntry(script, i)).(rv := s'.rev)], rev := s'.rev,
                      objs := s.objs[EntryKey(c, o) := Obj(script, [u])], hist := s'.hist)
    ensures Progress(c, s, s', o, s.clusters[s.ops[o].spec.cluster], EntryStage)
  {
    EntryUnstamped(c, s.objs, EntryKey(c, o), Obj(script, [u]), o, s.clusters[s.ops[o].spec.cluster], s.now);
    StageProgress(c, s, s', o, FillEntry(script, i));
  }

  /** Stages that write the operation only. */
  lemma WriteProgress(c: Config, s: State, s': State, o: string, w: OpWrite)
    requires Ready(c, s, o, s.now)
    requires w.OwnByCluster? || w.TakeDigest? || w.FlagModified?
    requires var cl := s.clusters[s.ops[o].spec.cluster];
      Lacks(s.ops[o], cl, StageDone(w).value) && (w.OwnByCluster? ==> w.cl.uid == cl.uid)
    requires s' == s.(ops := s.ops[o := Written(c, o, s.ops[o], w).(rv := s'.rev)], rev := s'.rev, hist := s'.hist)
    ensures Progress(c, s, s', o, s.clusters[s.ops[o].spec.cluster], StageDone(w).value)
  {
    LaterUnstamped(c, s.objs, s.clusters[s.ops[o].spec.cluster], s.now);
    StageProgress(c, s, s', o, w);
  }
}
