/** What single passes of the reconciler do, as relations between states of the store. */
module Passes {
  import opened Text
  import opened Objects
  import opened References
  import opened ControlPlane
  import opened Stages
  import EntryPoint
  import HookData
  import Invariants
  import JobVolumes
  import OwnerRefs
  import opened Runs

  /** Nothing but operation `o` changed, by write `w`. */
  ghost predicate OpWritten(c: Config, s: State, s': State, o: string, op: Op, w: OpWrite) {
    s' == s.(ops := s.ops[o := Written(c, o, op, w).(rv := s'.rev)], rev := s'.rev, hist := s'.hist)
  }

  /** The end of an operation: the Job's completion, or now if it has none. */
  function EndOf(s: State, job: Ref): int {
    if job in s.jobs then s.jobs[job].completion.GetOr(s.now) else s.now
  }

  /** Operation `o` was finished with verdict and end, and that is all. */
  ghost predicate EndedNow(s: State, s': State, o: string, op: Op, seen: Option<seq<Cond>>, end: int) {
    var st := op.status.(phase := FinalPhase(seen), end := Some(end));
    s' == s.(ops := s.ops[o := op.(status := st, rv := s'.rev)], rev := s'.rev, hist := s'.hist)
  }

  predicate HasJob(op: Op) {
    !op.status.jobRef.IsEmpty() && (op.status.phase == Running || op.status.phase == Unset)
  }

  /** Operation `o` is `op` with the label, and nothing else changed. */
  ghost predicate Marked(s: State, s': State, o: string, op: Op) {
    && o in s'.ops && s'.ops[o] == op.(labels := op.labels[COMPLETED_LABEL := "done"], rv := s'.ops[o].rv)
    && s' == s.(ops := s.ops[o := s'.ops[o]], rev := s'.rev, hist := s'.hist)
  }

  /** Nothing is left to suspend: there was no Job yet, or it is gone, suspended or finished. */
  predicate Settled(jobs: map<Ref, Job>, job: Ref) {
    job.IsEmpty() || job !in jobs || jobs[job].suspend || JobVerdict(jobs[job].conds) != Running
  }

  /** The pod that is noted as the one that works for operation `op`. */
  function Actor(op: Op): string {
    if ACTOR_ANNOTATION in op.annotations then op.annotations[ACTOR_ANNOTATION] else ""
  }

  /** A pass that sees this pod running stops early: no pod is noted yet, or it is another one. */
  predicate Interrupts(op: Op, pod: Option<string>) {
    pod.Some? && (Actor(op) == "" || Actor(op) != pod.value)
  }

  /** The first pod of a Job is written down as its actor, and any other pod suspends the Job. */
  ghost predicate ActorKept(c: Config, s: State, s': State, o: string, op: Op, pod: string) {
    if Actor(op) == "" then OpWritten(c, s, s', o, op, Annotate(pod)) else SuspendedNow(s, s', op.status.jobRef)
  }

  ghost predicate SuspendedNow(s: State, s': State, job: Ref) {
    job in s.jobs && s' == s.(jobs := s.jobs[job := s.jobs[job].(suspend := true)], hist := s'.hist)
  }

  predicate NeedsBackup(spec: Spec, cl: Cluster) {
    Needs(spec, cl, Hosts) || Needs(spec, cl, Vars) || Needs(spec, cl, Ssh)
  }

  function FirstBackup(spec: Spec, cl: Cluster): Stage {
    if Needs(spec, cl, Hosts) then HostsStage else if Needs(spec, cl, Vars) then VarsStage else SshStage
  }

  lemma ReadySlots(c: Config, s: State, o: string, cl: Cluster)
    ensures Ready(c, s, o, s.now) && s.clusters[s.ops[o].spec.cluster] == cl ==>
      && !cl.hosts.IsEmpty() && !cl.vars.IsEmpty()
      && forall slot :: Needs(s.ops[o].spec, cl, slot) ==> SlotOk(cl, s.objs, slot)
  {
  }

  /** Objects are only added, and only in the operator's namespace; nothing else changes. */
  ghost predicate Grew(c: Config, s: State, s': State) {
    && s' == s.(objs := s'.objs, hist := s'.hist)
    && (forall k | k in s.objs :: k in s'.objs && s'.objs[k] == s.objs[k])
    && (forall k | k in s'.objs && k.ns != c.ns :: k in s.objs)
  }

  /** Copies of some hooks' ConfigMaps make no difference for other hooks. */
  lemma GrewHooks(c: Config, s: State, s': State, hooks: seq<Hook>)
    requires Grew(c, s, s')
    ensures HooksOk(c, s'.objs, hooks) <==> HooksOk(c, s.objs, hooks)
  {
  }

  /** A pass changed nothing but objects, and none of those that hooks have to bring along. */
  ghost predicate Waits(c: Config, s: State, s': State) {
    && s' == s.(objs := s'.objs, hist := s'.hist)
    && s.objs.Keys <= s'.objs.Keys
    && forall k | k in s'.objs && k.ns != c.ns :: k in s.objs
  }

  /** A Job of the operation's name can be recorded: an existing one is found only through the
      namespace of the operation's hosts reference, a missing one can be
      created if there is a service account and the custom actions allow it. */
  predicate CanLaunch(c: Config, s: State, o: string, spec: Spec) {
    if JobKey(c, o) in s.jobs then spec.hosts.Ns() == c.ns
    else
      && s.accounts != [] && HooksOk(c, s.objs, JobVolumes.AllHooks(spec))
      && JobVolumes.PathsFree(JobVolumes.AllHooks(spec))
  }

  predicate CanStart(c: Config, s: State, o: string, op: Op) {
    op.status.jobRef.IsEmpty() && CanLaunch(c, s, o, op.spec)
  }

  predicate Stuck(c: Config, s: State, o: string, op: Op) {
    op.status.jobRef.IsEmpty() && !CanLaunch(c, s, o, op.spec)
  }

  /** The Job of `o` is there: the one that was, or a new one that mounts what the hooks need. */
  ghost predicate JobThere(c: Config, jobs: map<Ref, Job>, jobs': map<Ref, Job>, o: string, u: nat, spec: Spec) {
    if JobKey(c, o) in jobs then jobs' == jobs
    else
      && JobKey(c, o) in jobs'
      && var job := jobs'[JobKey(c, o)];
      && jobs' == jobs[JobKey(c, o) := job] && job == Job(u, false, [], None, job.template)
      && JobVolumes.Added(JobVolumes.BaseTemplate(spec), job.template, JobVolumes.AllHooks(spec))
  }

  /** The objects with which the Job of `o` runs: those that were there and, if the Job is a new one,
      those that its custom actions bring. */
  function LaunchObjs(c: Config, s: State, o: string, u: nat, spec: Spec): map<Key, Obj> {
    if JobKey(c, o) in s.jobs then s.objs else HookData.AllBrought(c, s.objs, u, JobVolumes.AllHooks(spec))
  }

  /** The Job of operation `op` is there and recorded, with the data that it mounts, and the rest is as
      before but for owners of objects. */
  ghost predicate Launched(c: Config, s: State, s': State, o: string, op: Op) {
    && JobThere(c, s.jobs, s'.jobs, o, op.uid, op.spec)
    && HookData.SameData(LaunchObjs(c, s, o, op.uid, op.spec), s'.objs)
    && s'.clusters == s.clusters && s'.now == s.now
    && o in s'.ops && s'.ops == s.ops[o := s'.ops[o]]
    && s'.ops[o].status
      == op.status.(jobRef := JobKey(c, o), start := Some(s.now), phase := Running, action := op.spec.main.action)
    && s'.ops[o] == op.(status := s'.ops[o].status, rv := s'.ops[o].rv)
  }

  /** The Job of `o` was found or created, and its reference is still to be recorded. */
  ghost predicate Supplied(c: Config, s: State, m: State, o: string, u: nat, spec: Spec) {
    && m == s.(objs := m.objs, jobs := m.jobs, hist := m.hist)
    && JobThere(c, s.jobs, m.jobs, o, u, spec) && m.objs == LaunchObjs(c, s, o, u, spec)
  }

  lemma LaunchedBy(c: Config, s: State, m: State, s': State, o: string, op: Op, w: OpWrite)
    requires Supplied(c, s, m, o, op.uid, op.spec)
    requires w.SetJobRef? && w.key == JobKey(c, o) && w.at == s.now && OpWritten(c, m, s', o, op, w)
    ensures Launched(c, s, s', o, op)
  {
  }

  /** Owners that were added before make no difference. */
  lemma OwnsLaunched(c: Config, s: State, m: State, s': State, keys: set<Key>, u: nat, o: string, op: Op)
    requires Owns(s, m, keys, u) && Launched(c, m, s', o, op)
    ensures Launched(c, s, s', o, op)
  {
    assert HookData.SameData(s.objs, m.objs);
    HookData.BroughtSameData(c, s.objs, m.objs, op.uid, JobVolumes.AllHooks(op.spec));
  }

  /** When the mount of custom action `h` shows the data of the ConfigMap that it refers to, after a pass
      that created the Job: exactly if no built-in volume shows something else under its name, and the
      ConfigMap that was here before has that data or, if there was none, the one that the first action
      of this name brought. */
  lemma LaunchedMounts(c: Config, s: State, s': State, o: string, op: Op, h: Hook)
    requires Launched(c, s, s', o, op) && JobKey(c, o) !in s.jobs
    requires h in JobVolumes.AllHooks(op.spec) && JobVolumes.IsCustom(h) && HookData.SourceKey(h) in s.objs
    ensures var name := h.sourceRef.Name(); var here := InjectKey(c, h.sourceRef);
      var data := HookData.DataOf(s.objs, HookData.SourceKey(h));
      var first := HookData.FirstOf(c, s.objs, JobVolumes.AllHooks(op.spec), name);
      JobVolumes.Shows(s'.jobs[JobKey(c, o)].template, JobVolumes.MountOf(h), name)
        && HookData.DataOf(s'.objs, here) == data
      <==>
        && (forall v | v in JobVolumes.BaseTemplate(op.spec).volumes && v.name == name ::
              v.source == FromConfigMap(name))
        && (if here in s.objs then HookData.DataOf(s.objs, here) == data
            else first.Some? && HookData.DataOf(s.objs, HookData.SourceKey(first.value)) == data)
  {
    HookData.ShownExactly(op.spec, s'.jobs[JobKey(c, o)].template, h);
    HookData.OwnDataIs(c, s.objs, op.uid, JobVolumes.AllHooks(op.spec), h);
  }

  /** Operation `o` was marked as failed, and that is all. */
  ghost predicate FailedNow(s: State, s': State, o: string) {
    && o in s.ops
    && s' == s.(ops := s.ops[o := s.ops[o].(status := s.ops[o].status.(phase := Failed), rv := s'.rev)],
        rev := s'.rev, hist := s'.hist)
  }

  const WRITE_STAGES := {Some(OwnerStage), Some(DigestStage), Some(FlagStage)}

  function StageWrite(g: Stage, cl: Cluster, i: nat): OpWrite {
    if g == OwnerStage then OwnByCluster(cl, i) else if g == DigestStage then TakeDigest else FlagModified
  }

  /** Neither a backup nor the script is missing. */
  predicate DataThere(spec: Spec, cl: Cluster) {
    !NeedsBackup(spec, cl) && !spec.entry.IsEmpty()
  }

  /** The script is the next stage, and one of the actions is not accepted. */
  predicate WrongArguments(op: Op, cl: Cluster) {
    HasData(cl) && FirstLack(op, cl) == Some(EntryStage) && !EntryPoint.ValidActions(op.spec)
  }

  /** The script is to be compiled, and one of the actions is not accepted. */
  predicate BadScript(spec: Spec, cl: Cluster) {
    HasData(cl) && !NeedsBackup(spec, cl) && spec.entry.IsEmpty() && !EntryPoint.ValidActions(spec)
  }

  /** Operation `o` is neither started nor finished. */
  predicate PhaseStays(s: State, s': State, o: string) {
    o in s.ops && o in s'.ops && s'.ops[o].status.phase == s.ops[o].status.phase
  }

  lemma FirstWriteProgress(c: Config, s: State, s': State, o: string, cl: Cluster, w: OpWrite, i: nat)
    requires Ready(c, s, o, s.now) && s.clusters[s.ops[o].spec.cluster] == cl
    requires FirstLack(s.ops[o], cl) in WRITE_STAGES && w == StageWrite(FirstLack(s.ops[o], cl).value, cl, i)
    requires OpWritten(c, s, s', o, s.ops[o], w)
    ensures Progress(c, s, s', o, cl, FirstLack(s.ops[o], cl).value)
  {
    WriteProgress(c, s, s', o, w);
  }

  function FirstData(spec: Spec, cl: Cluster): Stage {
    if NeedsBackup(spec, cl) then FirstBackup(spec, cl) else EntryStage
  }

  lemma FirstLackIs(op: Op, cl: Cluster)
    ensures var first := FirstLack(op, cl);
      first !in WRITE_STAGES ==>
        if DataThere(op.spec, cl) then first in {None, Some(JobStage)} else first == Some(FirstData(op.spec, cl))
  {
  }

  /** What a pass does to an operation whose Job is recorded: it asks again while the Job is under
      way, and otherwise it stores the verdict, the end and the label. */
  ghost predicate Followed(s: State, s': State, o: string, again: bool)
    requires o in s.ops
  {
    var op := s.ops[o];
    var phase := FinalPhase(SeenOf(s.jobs, op.status.jobRef));
    && s'.jobs == s.jobs && again == (phase == Running)
    && if again then s'.ops == s.ops
       else
         o in s'.ops && s'.ops == s.ops[o := s'.ops[o]]
         && s'.ops[o] == op.(status := op.status.(phase := phase, end := Some(EndOf(s, op.status.jobRef))),
                             labels := op.labels[COMPLETED_LABEL := "done"], rv := s'.ops[o].rv)
  }

  lemma OwnsWaits(c: Config, s: State, s': State, keys: set<Key>, u: nat, o: string, spec: Spec)
    ensures Owns(s, s', keys, u) ==> (CanLaunch(c, s', o, spec) <==> CanLaunch(c, s, o, spec))
    ensures Owns(s, s', keys, u) ==> Waits(c, s, s') && forall s'' :: Waits(c, s', s'') ==> Waits(c, s, s'')
  {
  }

  lemma LaunchProgress(c: Config, s: State, s': State, o: string, cl: Cluster)
    requires Ready(c, s, o, s.now) && s.clusters[s.ops[o].spec.cluster] == cl
    requires FirstLack(s.ops[o], cl) == Some(JobStage) && Launched(c, s, s', o, s.ops[o])
    ensures Progress(c, s, s', o, cl, JobStage)
  {
    forall g
      ensures Lacks(s'.ops[o], cl, g) <==> Lacks(s.ops[o], cl, g) && g != JobStage
    {
      assert g == JobStage || (Lacks(s'.ops[o], cl, g) <==> Lacks(s.ops[o], cl, g));
    }
  }

  lemma ReadyCanLaunch(c: Config, s: State, o: string, cl: Cluster)
    requires Ready(c, s, o, s.now) && FirstLack(s.ops[o], cl) == Some(JobStage)
    ensures CanStart(c, s, o, s.ops[o])
  {
  }

  /** Both references of the cluster to ConfigMaps are there. */
  predicate HasData(cl: Cluster) {
    !cl.hosts.IsEmpty() && !cl.vars.IsEmpty()
  }

  /** Only the Job is missing. */
  predicate AtLaunch(op: Op, cl: Cluster) {
    HasData(cl) && FirstLack(op, cl) == Some(JobStage)
  }

  /** All stages of the operation are done, its Job is recorded, and it is not finished. */
  predicate AllDone(op: Op, cl: Cluster) {
    HasJob(op) && FirstLack(op, cl) == None
  }

  /** The stages that write the operation only are done, and then the pass meets a cluster of which a
      reference was emptied. */
  predicate Emptied(op: Op, cl: Cluster) {
    !HasData(cl) && FirstLack(op, cl) !in WRITE_STAGES
  }

  /** The image or the references are not accepted. */
  predicate Invalid(c: Config, op: Op, cl: Cluster, objs: map<Key, Obj>) {
    !ValidImage(c.alnum, op.spec.image) || !RefsOk(cl, objs, op.spec)
  }

  /** One of the validations of a pass refuses the operation. */
  predicate Rejected(c: Config, op: Op, cl: Cluster, objs: map<Key, Obj>) {
    Invalid(c, op, cl, objs) || WrongArguments(op, cl)
  }

  lemma RejectedForSecret(c: Config, op: Op, cl: Cluster, objs: map<Key, Obj>)
    requires ValidImage(c.alnum, op.spec.image)
    requires !op.spec.hosts.IsEmpty() && !op.spec.vars.IsEmpty() && !op.spec.entry.IsEmpty()
    ensures Rejected(c, op, cl, objs) <==> SecretMissing(cl, objs, op.spec)
  {
    OnlySecretMissing(cl, objs, op.spec);
    assert !WrongArguments(op, cl);
  }

  ghost predicate NothingToSuspend(s: State, o: string) {
    o in s.ops && Settled(s.jobs, s.ops[o].status.jobRef)
  }

  /** Operation `o` is gone or finished. */
  predicate Over(s: State, o: string) {
    o in s.ops ==> Finished(s.ops[o].status.phase)
  }

  /** A pass refused the image or the references of operation `o` and could not say so. */
  ghost predicate Dropped(c: Config, s: State, s': State, o: string) {
    && s' == s.(hist := s'.hist) && o in s.ops && s.ops[o].spec.cluster in s.clusters
    && Invalid(c, s.ops[o], s.clusters[s.ops[o].spec.cluster], s.objs)
  }

  /** A pass that finds what it needs completes the first missing stage, and one that refuses the
      operation marks it as failed. */
  ghost predicate StageResult(c: Config, s: State, s': State, o: string, cl: Cluster, again: bool)
    requires o in s.ops
  {
    var op := s.ops[o];
    && (Ready(c, s, o, s.now) && FirstLack(op, cl).Some? ==>
          again && Progress(c, s, s', o, cl, FirstLack(op, cl).value))
    && (Rejected(c, op, cl, s.objs) ==> again == !Invalid(c, op, cl, s.objs) && FailedNow(s, s', o))
  }

  /** The first missing stage is one that writes the operation only, and its write was made. */
  ghost predicate StageWritten(c: Config, s: State, s': State, o: string, op: Op, cl: Cluster) {
    FirstLack(op, cl) in WRITE_STAGES ==> OpWritten(c, s, s', o, op, StageWrite(FirstLack(op, cl).value, cl, 0))
  }

  /** What other passes do, whether they find everything or not. */
  ghost predicate JobResult(c: Config, s: State, s': State, o: string, cl: Cluster, again: bool)
    requires o in s.ops
  {
    var op := s.ops[o];
    && StageWritten(c, s, s', o, op, cl)
    && (FirstLack(op, cl) !in {None, Some(JobStage)} ==> again && PhaseStays(s, s', o))
    && (AtLaunch(op, cl) && CanStart(c, s, o, op) ==> again && Launched(c, s, s', o, op))
    && (AtLaunch(op, cl) && Stuck(c, s, o, op) ==> again && Waits(c, s, s'))
    && (Emptied(op, cl) ==> again && Waits(c, s, s'))
    && (AllDone(op, cl) && HasData(cl) ==> Followed(s, s', o, again))
  }

  /** What one pass does that nobody disturbs. */
  ghost predicate PassResult(c: Config, s: State, s': State, o: string, again: bool)
    requires o in s.ops && s.ops[o].spec.cluster in s.clusters
  {
    var cl := s.clusters[s.ops[o].spec.cluster];
    && StageResult(c, s, s', o, cl, again)
    && (!Rejected(c, s.ops[o], cl, s.objs) ==> JobResult(c, s, s', o, cl, again))
  }

  /** The same for every pass that nobody disturbs, whatever pod it sees running: it keeps the actor and
      asks again, or it waits for the cluster, or it goes on. */
  ghost predicate PassDone(c: Config, s: State, s': State, o: string, pod: Option<string>, again: bool)
    requires o in s.ops
  {
    var op := s.ops[o];
    if Interrupts(op, pod) then again && ActorKept(c, s, s', o, op, pod.value)
    else if op.spec.cluster in s.clusters then PassResult(c, s, s', o, again)
    else again && s' == s.(hist := s'.hist)
  }

  /** The verdict of a Job that is over is stored if and only if both references of the cluster are
      still there: the backups, which are long done, are looked at first. */
  lemma VerdictIsStored(c: Config, s: State, s': State, o: string, again: bool)
    requires o in s.ops && s.ops[o].spec.cluster in s.clusters && PassResult(c, s, s', o, again)
    requires var op := s.ops[o]; var cl := s.clusters[op.spec.cluster];
      && AllDone(op, cl) && !Rejected(c, op, cl, s.objs)
      && FinalPhase(SeenOf(s.jobs, op.status.jobRef)) != Running
    ensures var op := s.ops[o]; var phase := FinalPhase(SeenOf(s.jobs, op.status.jobRef));
      (o in s'.ops && s'.ops[o].status.phase == phase) <==> HasData(s.clusters[op.spec.cluster])
  {
    var seen := SeenOf(s.jobs, s.ops[o].status.jobRef);
    if seen.Some? {
      Invariants.VerdictIsFinal(seen.value);
    }
  }

  /** A pass for an operation whose Job is recorded makes it Failed in two cases only, neither of which
      it comes to when it stops for a pod: a validation refuses it, or the pass comes to the Job and this
      failed or is missing. */
  lemma FailsExactly(c: Config, s: State, s': State, o: string, pod: Option<string>, again: bool)
    requires o in s.ops && s.ops[o].spec.cluster in s.clusters && PassDone(c, s, s', o, pod, again)
    requires InProgress(s.ops[o])
    ensures var op := s.ops[o]; var cl := s.clusters[op.spec.cluster];
      && (FailedNow(s, s', o) <==> !Interrupts(op, pod) && Rejected(c, op, cl, s.objs))
      && (o in s'.ops && s'.ops[o].status.phase == Failed <==>
            && !Interrupts(op, pod)
            && (Rejected(c, op, cl, s.objs) || (JobDecides(op, cl) && JobPhase(s, op) == Failed)))
  {
    var op, cl := s.ops[o], s.clusters[s.ops[o].spec.cluster];
    if Interrupts(op, pod) {
      ActorKeepsPhase(c, s, s', o, pod.value);
    } else if !Rejected(c, op, cl, s.objs) {
      UnrejectedPhase(c, s, s', o, cl, again);
    }
  }

  /** Its Job is recorded, and it is not finished. */
  predicate InProgress(op: Op) {
    !op.status.jobRef.IsEmpty() && op.status.phase == Running && COMPLETED_LABEL !in op.labels
  }

  /** The pass comes to the Job. */
  predicate JobDecides(op: Op, cl: Cluster) {
    AllDone(op, cl) && HasData(cl)
  }

  function JobPhase(s: State, op: Op): Phase {
    FinalPhase(SeenOf(s.jobs, op.status.jobRef))
  }

  lemma ActorKeepsPhase(c: Config, s: State, s': State, o: string, pod: string)
    requires o in s.ops && InProgress(s.ops[o]) && ActorKept(c, s, s', o, s.ops[o], pod)
    ensures o in s'.ops && s'.ops[o].status.phase == Running
  {
  }

  /** Tampering is flagged: a pass that comes to that stage sees every change of one digested field since
      the digest was taken, sets the flag, and changes nothing else in the status. */
  lemma TamperingIsFlagged(c: Config, s: State, s': State, o: string, pod: Option<string>, again: bool, was: Spec)
    requires o in s.ops && s.ops[o].spec.cluster in s.clusters && PassDone(c, s, s', o, pod, again)
    requires var op := s.ops[o]; var cl := s.clusters[op.spec.cluster];
      && !Interrupts(op, pod) && !Rejected(c, op, cl, s.objs) && !Lacks(op, cl, OwnerStage)
      && op.status.digest == CalSalt(was) && !op.status.modified && OneEdit(was, op.spec)
    ensures again && o in s'.ops && s'.ops[o].status == s.ops[o].status.(modified := true)
  {
    EditChangesSummary(was, s.ops[o].spec);
    assert FirstLack(s.ops[o], s.clusters[s.ops[o].spec.cluster]) == Some(FlagStage);
  }

  /** And where the digested text is the same, no pass sets the flag. */
  lemma NothingIsFlagged(c: Config, s: State, s': State, o: string, pod: Option<string>, again: bool, was: Spec)
    requires o in s.ops && s.ops[o].spec.cluster in s.clusters && PassDone(c, s, s', o, pod, again)
    requires !Interrupts(s.ops[o], pod) && !Rejected(c, s.ops[o], s.clusters[s.ops[o].spec.cluster], s.objs)
    requires s.ops[o].status.digest == CalSalt(was) && Summary(was) == Summary(s.ops[o].spec)
    requires FirstLack(s.ops[o], s.clusters[s.ops[o].spec.cluster]) in WRITE_STAGES
    ensures o in s'.ops && s'.ops[o].status == s.ops[o].status
  {
    hide Followed, Progress, Launched, Waits;
    var cl := s.clusters[s.ops[o].spec.cluster];
    assert !Lacks(s.ops[o], cl, DigestStage) && !Lacks(s.ops[o], cl, FlagStage);
    assert FirstLack(s.ops[o], cl) == Some(OwnerStage);
  }

  /** Two pods of one Job: a pass that sees the first one notes it and changes no Job; later passes that see
      it again are not interrupted; and one that sees another pod suspends the Job and changes no
      operation. */
  lemma SecondPodSuspends(c: Config, s: State, s': State, o: string, p: string, again: bool)
    requires o in s.ops && p != "" && PassDone(c, s, s', o, Some(p), again)
    ensures var op := s.ops[o]; var key := op.status.jobRef;
      var noted := if ACTOR_ANNOTATION in op.annotations then op.annotations[ACTOR_ANNOTATION] else "";
      && (noted == "" ==>
            && again && s'.jobs == s.jobs && o in s'.ops
            && ACTOR_ANNOTATION in s'.ops[o].annotations && s'.ops[o].annotations[ACTOR_ANNOTATION] == p
            && !Interrupts(s'.ops[o], Some(p)))
      && (noted == p && op.spec.cluster in s.clusters ==> PassResult(c, s, s', o, again))
      && (noted != "" && noted != p ==>
            && again && s'.ops == s.ops && key in s.jobs
            && s'.jobs == s.jobs[key := s.jobs[key].(suspend := true)])
  {
  }

  /** What a pass makes of an operation that it does not refuse: the verdict of the Job if it comes to
      that, and otherwise it stays Running and is called again. */
  lemma UnrejectedPhase(c: Config, s: State, s': State, o: string, cl: Cluster, again: bool)
    requires o in s.ops && InProgress(s.ops[o]) && JobResult(c, s, s', o, cl, again)
    ensures var phase := if JobDecides(s.ops[o], cl) then JobPhase(s, s.ops[o]) else Running;
      && o in s'.ops && s'.ops[o].status.phase == phase && again == (phase == Running)
    ensures !FailedNow(s, s', o)
  {
    if JobDecides(s.ops[o], cl) {
      FollowedKeepsLabel(s, s', o, again);
    } else {
      assert FirstLack(s.ops[o], cl) != Some(JobStage);
    }
  }

  /** What a pass stores that comes to a Job that is over or missing: the verdict of the first condition that
      says so, Failed for a missing Job, the completion of the Job, or the present time, and the label. */
  lemma FirstConditionDecides(c: Config, s: State, s': State, o: string, again: bool, i: int)
    requires o in s.ops && s.ops[o].spec.cluster in s.clusters && PassDone(c, s, s', o, None, again)
    requires var op := s.ops[o]; var cl := s.clusters[op.spec.cluster];
      InProgress(op) && JobDecides(op, cl) && !Rejected(c, op, cl, s.objs)
    requires var key := s.ops[o].status.jobRef; key in s.jobs ==> FirstTerminal(s.jobs[key].conds, i)
    ensures !again && o in s'.ops && s'.jobs == s.jobs
    ensures var key := s.ops[o].status.jobRef; var st := s'.ops[o].status;
      && COMPLETED_LABEL in s'.ops[o].labels
      && (key !in s.jobs ==> st.phase == Failed && st.end == Some(s.now))
      && (key in s.jobs ==>
            && st.phase == (if s.jobs[key].conds[i].kind == Complete then Succeeded else Failed)
            && st.end == if s.jobs[key].completion.Some? then s.jobs[key].completion else Some(s.now))
  {
    var op, cl := s.ops[o], s.clusters[s.ops[o].spec.cluster];
    if op.status.jobRef in s.jobs {
      FirstDecides(s.jobs[op.status.jobRef].conds);
    }
    UnrejectedPhase(c, s, s', o, cl, again);
    FollowedToEnd(s, s', o, again);
  }

  lemma FollowedToEnd(s: State, s': State, o: string, again: bool)
    requires o in s.ops && InProgress(s.ops[o]) && Followed(s, s', o, again) && !again
    ensures o in s'.ops && s'.jobs == s.jobs && COMPLETED_LABEL in s'.ops[o].labels
    ensures s'.ops[o].status.phase == JobPhase(s, s.ops[o])
    ensures s'.ops[o].status.end == Some(EndOf(s, s.ops[o].status.jobRef))
  {
  }

  /** As long as the Job is under way, a pass that refuses nothing asks to be called again, and the
      operation stays Running. */
  lemma LiveJobIsFollowed(c: Config, s: State, s': State, o: string, pod: Option<string>, again: bool)
    requires o in s.ops && s.ops[o].spec.cluster in s.clusters && PassDone(c, s, s', o, pod, again)
    requires InProgress(s.ops[o]) && JobPhase(s, s.ops[o]) == Running
    requires !Rejected(c, s.ops[o], s.clusters[s.ops[o].spec.cluster], s.objs)
    ensures again && o in s'.ops && s'.ops[o].status.phase == Running
  {
    if Interrupts(s.ops[o], pod) {
      ActorKeepsPhase(c, s, s', o, pod.value);
    } else {
      UnrejectedPhase(c, s, s', o, s.clusters[s.ops[o].spec.cluster], again);
    }
  }

  lemma FollowedKeepsLabel(s: State, s': State, o: string, again: bool)
    requires o in s.ops && InProgress(s.ops[o]) && Followed(s, s', o, again)
    ensures !FailedNow(s, s', o)
    ensures o in s'.ops && s'.ops[o].status.phase == JobPhase(s, s.ops[o])
    ensures again == (JobPhase(s, s.ops[o]) == Running)
  {
  }

  /** A pass that refuses the operation because of its image or its references. */
  lemma RefusedResult(c: Config, s: State, s': State, o: string)
    requires o in s.ops && s.ops[o].spec.cluster in s.clusters
    requires Invalid(c, s.ops[o], s.clusters[s.ops[o].spec.cluster], s.objs) && FailedNow(s, s', o)
    ensures PassResult(c, s, s', o, false)
  {
  }

  /** How a pass ends in one of the stages up to the script. */
  ghost predicate EndsEarly(c: Config, s: State, s': State, o: string, cl: Cluster)
    requires o in s.ops
  {
    var op := s.ops[o];
    && (FirstLack(op, cl) in {None, Some(JobStage)} ==> !HasData(cl))
    && (Ready(c, s, o, s.now) ==> FirstLack(op, cl).Some? && Progress(c, s, s', o, cl, FirstLack(op, cl).value))
    && StageWritten(c, s, s', o, op, cl)
    && (if WrongArguments(op, cl) then FailedNow(s, s', o) else PhaseStays(s, s', o))
    && (Emptied(op, cl) ==> s' == s)
  }

  lemma EarlyResult(c: Config, s: State, s': State, o: string, cl: Cluster)
    requires o in s.ops && s.ops[o].spec.cluster in s.clusters && s.clusters[s.ops[o].spec.cluster] == cl
    requires !Invalid(c, s.ops[o], cl, s.objs) && EndsEarly(c, s, s', o, cl)
    ensures PassResult(c, s, s', o, true)
  {
  }

  /** How a pass ends that came to the Job. */
  ghost predicate EndsLate(c: Config, s: State, s': State, o: string, cl: Cluster, again: bool)
    requires o in s.ops
  {
    var op := s.ops[o];
    && (Ready(c, s, o, s.now) && FirstLack(op, cl) == Some(JobStage) ==> again && Progress(c, s, s', o, cl, JobStage))
    && (CanStart(c, s, o, op) ==> again && Launched(c, s, s', o, op))
    && (Stuck(c, s, o, op) ==> again && Waits(c, s, s'))
    && (HasJob(op) ==> Followed(s, s', o, again))
  }

  lemma LateResult(c: Config, s: State, s': State, o: string, cl: Cluster, again: bool)
    requires o in s.ops && s.ops[o].spec.cluster in s.clusters && s.clusters[s.ops[o].spec.cluster] == cl
    requires !Invalid(c, s.ops[o], cl, s.objs) && FirstLack(s.ops[o], cl) in {None, Some(JobStage)} && HasData(cl)
    requires EndsLate(c, s, s', o, cl, again)
    ensures PassResult(c, s, s', o, again)
  {
  }

  /** What a pass does depends on the store and not on its history. */
  lemma ResultFrom(c: Config, s0: State, s: State, s': State, o: string, again: bool)
    requires s == s0.(hist := s.hist)
    requires o in s.ops && s.ops[o].spec.cluster in s.clusters && PassResult(c, s, s', o, again)
    ensures PassResult(c, s0, s', o, again)
  {
    var cl := s.clusters[s.ops[o].spec.cluster];
    StageResultFrom(c, s0, s, s', o, cl, again);
    if !Rejected(c, s.ops[o], cl, s.objs) {
      JobResultFrom(c, s0, s, s', o, cl, again);
    }
  }

  lemma DoneFrom(c: Config, s0: State, s: State, s': State, o: string, pod: Option<string>, again: bool)
    requires s == s0.(hist := s.hist) && o in s.ops && PassDone(c, s, s', o, pod, again)
    ensures PassDone(c, s0, s', o, pod, again)
  {
    if !Interrupts(s.ops[o], pod) && s.ops[o].spec.cluster in s.clusters {
      ResultFrom(c, s0, s, s', o, again);
    }
  }

  lemma StageResultFrom(c: Config, s0: State, s: State, s': State, o: string, cl: Cluster, again: bool)
    requires s == s0.(hist := s.hist) && o in s.ops && StageResult(c, s, s', o, cl, again)
    ensures StageResult(c, s0, s', o, cl, again)
  {
    assert Ready(c, s0, o, s0.now) ==> Ready(c, s, o, s.now);
    if Rejected(c, s.ops[o], cl, s.objs) {
      assert FailedNow(s0, s', o);
    }
  }

  lemma JobResultFrom(c: Config, s0: State, s: State, s': State, o: string, cl: Cluster, again: bool)
    requires s == s0.(hist := s.hist) && o in s.ops && JobResult(c, s, s', o, cl, again)
    ensures JobResult(c, s0, s', o, cl, again)
  {
  }

  ghost predicate AtStage(c: Config, s: State, o: string, cl: Cluster) {
    Ready(c, s, o, s.now) && s.clusters[s.ops[o].spec.cluster] == cl
  }

  predicate Arrived(c: Config, s: State, o: string, cl: Cluster) {
    && o in s.ops && s.ops[o].status.jobRef == JobKey(c, o) && s.ops[o].status.phase == Running
    && StagesLeft(s.ops[o], cl) == 0
  }

  /** Where a pass leads from: one stage less is missing, and after some time the next pass starts
      from where this one did, or the Job is recorded. */
  ghost predicate OneStageOn(c: Config, s: State, s': State, o: string, cl: Cluster)
    requires o in s.ops
  {
    && o in s'.ops && s'.ops[o].uid == s.ops[o].uid
    && StagesLeft(s'.ops[o], cl) == StagesLeft(s.ops[o], cl) - 1
    && if s'.ops[o].status.jobRef.IsEmpty() then AtStage(c, s', o, cl) && s'.jobs == s.jobs
       else Arrived(c, s', o, cl) && JobRecorded(c, s.jobs, s'.jobs, o)
  }

  lemma TickIsTick(c: Config, s: State)
    ensures var s' := Step(c, s, Others(Tick)); s' == s.(now := s.now + 1, hist := s'.hist)
  {
  }

  lemma ProgressAndTick(c: Config, s: State, s': State, s'': State, o: string, cl: Cluster)
    requires AtStage(c, s, o, cl) && s.ops[o].status.jobRef.IsEmpty()
    requires Progress(c, s, s', o, cl, FirstLack(s.ops[o], cl).value)
    requires s'' == s'.(now := s'.now + 1, hist := s''.hist)
    ensures OneStageOn(c, s, s'', o, cl)
  {
    ProgressCounts(c, s, s', o, cl);
  }

  lemma StageIsLive(c: Config, s: State, o: string, cl: Cluster)
    requires AtStage(c, s, o, cl) && s.ops[o].status.jobRef.IsEmpty()
    ensures Live(s.ops[o]) && NothingToSuspend(s, o)
  {
  }

  lemma DoneAndTick(c: Config, s: State, s': State, s'': State, o: string, cl: Cluster, pod: Option<string>,
      again: bool)
    requires AtStage(c, s, o, cl) && s.ops[o].status.jobRef.IsEmpty()
    requires PassDone(c, s, s', o, pod, again) && pod.None?
    requires s'' == s'.(now := s'.now + 1, hist := s''.hist)
    ensures OneStageOn(c, s, s'', o, cl)
  {
    ProgressAndTick(c, s, s', s'', o, cl);
  }

  /** A pass that completes a stage brings the measure down by one. */
  lemma ProgressCounts(c: Config, s: State, s': State, o: string, cl: Cluster)
    requires o in s.ops && s.ops[o].status.jobRef.IsEmpty()
    requires Progress(c, s, s', o, cl, FirstLack(s.ops[o], cl).value)
    ensures StagesLeft(s'.ops[o], cl) == StagesLeft(s.ops[o], cl) - 1
    ensures FirstLack(s.ops[o], cl) == Some(JobStage) <==> !s'.ops[o].status.jobRef.IsEmpty()
    ensures FirstLack(s.ops[o], cl) == Some(JobStage) ==> StagesLeft(s'.ops[o], cl) == 0
  {
    var first := FirstLack(s.ops[o], cl).value;
    StagesLeftGoDown(s.ops[o], s'.ops[o], cl, first);
    assert Lacks(s'.ops[o], cl, JobStage) <==> first != JobStage;
  }

  /** Undisturbed passes get nowhere: the Job can be neither found nor created, or the cluster lost a
      reference. */
  ghost predicate StuckAt(c: Config, s: State, o: string) {
    && o in s.ops && Invariants.Unfinished(s.ops[o]) && s.ops[o].spec.cluster in s.clusters
    && NothingToSuspend(s, o)
    && var op := s.ops[o]; var cl := s.clusters[op.spec.cluster];
    && ((AtLaunch(op, cl) && Stuck(c, s, o, op)) || Emptied(op, cl))
    && !Rejected(c, op, cl, s.objs)
  }

  lemma StuckStays(c: Config, s: State, s': State, s'': State, o: string)
    requires StuckAt(c, s, o) && Waits(c, s, s') && s'' == s'.(now := s'.now + 1, hist := s''.hist)
    ensures StuckAt(c, s'', o)
  {
    var op := s.ops[o];
    CheckKeepsPassing(s.clusters[op.spec.cluster], s.objs, s''.objs, op.spec, Hosts, Ref("", "x"));
    assert HooksOk(c, s''.objs, JobVolumes.AllHooks(op.spec)) <==> HooksOk(c, s.objs, JobVolumes.AllHooks(op.spec));
  }

  /** Such an operation keeps every other one out of its cluster. */
  lemma StuckBlocks(c: Config, s: State, o: string, name: string)
    requires StuckAt(c, s, o) && name != o
    ensures !Admits(s.ops, name, s.ops[o].spec.cluster)
  {
    assert Blocks(o, s.ops[o], name, s.ops[o].spec.cluster);
  }

  /** The objects of `keys` got their owner, and nothing else changed. */
  ghost predicate Owns(s: State, s': State, keys: set<Key>, u: nat) {
    s' == s.(objs := s'.objs, hist := s'.hist) && s'.objs == OwnerRefs.Owned(s.objs, keys, u)
  }

  lemma OwnNothing(s: State, u: nat)
    ensures Owns(s, s, {}, u)
  {
    OwnerRefs.RerunReachesTheSame(s.objs, {}, {}, u);
  }

  lemma OwnNext(kind: Kind, refs: seq<Ref>, i: nat)
    requires i < |refs|
    ensures OwnerRefs.Keys(kind, refs[..i + 1]) == OwnerRefs.Keys(kind, refs[..i]) + OwnerRefs.Keys(kind, [refs[i]])
    ensures OwnerRefs.Keys(kind, refs[..i + 1]) <= OwnerRefs.Keys(kind, refs)
  {
    assert refs[..i + 1] == refs[..i] + [refs[i]] && refs == refs[..i + 1] + refs[i + 1..];
    OwnerRefs.KeysAppend(kind, refs[..i], [refs[i]]);
    OwnerRefs.KeysAppend(kind, refs[..i + 1], refs[i + 1..]);
  }

  /** One more step on the way; where nothing was left to do, this step had nothing to do. */
  lemma OwnMore(s: State, s': State, s'': State, done: set<Key>, step: set<Key>, key: set<Key>, all: set<Key>, u: nat)
    requires Owns(s, s', done, u) && Owns(s', s'', step, u) && done <= all && key <= all
    ensures Owns(s, s'', done + step, u)
    ensures Owns(s, s, all, u) ==> Owns(s', s', key, u)
  {
    OwnerRefs.OwnTwice(s.objs, done, step, u);
    if Owns(s, s, all, u) {
      OwnerRefs.OwnPart(s.objs, done, all, u);
      OwnerRefs.OwnPart(s.objs, key, all, u);
    }
  }

  lemma OwnBoth(s: State, a: set<Key>, b: set<Key>, u: nat)
    ensures Owns(s, s, a + b, u) ==> Owns(s, s, a, u)
  {
    if Owns(s, s, a + b, u) {
      OwnerRefs.OwnPart(s.objs, a, a + b, u);
    }
  }

  /** The objects that an operation comes to own: the ConfigMaps of its data, its script and its actions, and
      the Secret of its SSH reference. */
  lemma DataKeysAre(spec: Spec, ns: string, name: string)
    requires name != ""
    ensures Key(ConfigMap, ns, name) in DataKeys(spec) <==>
      || Ref(ns, name) in {spec.hosts, spec.vars, spec.entry, spec.main.sourceRef}
      || exists h :: (h in spec.preHook || h in spec.postHook) && h.sourceRef == Ref(ns, name)
    ensures Key(Secret, ns, name) in DataKeys(spec) <==> spec.ssh == Ref(ns, name)
  {
    ConfigRefsAre(spec, Ref(ns, name));
    OwnerRefs.KeysAre(ConfigMap, ConfigRefs(spec), ns, name);
    OwnerRefs.KeysAre(Secret, [spec.ssh], ns, name);
  }

  function DataKeys(spec: Spec): set<Key> {
    OwnerRefs.Keys(ConfigMap, ConfigRefs(spec)) + OwnerRefs.Keys(Secret, [spec.ssh])
  }
}
