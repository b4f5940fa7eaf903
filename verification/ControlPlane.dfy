/** The control plane of ClusterOperations as a step system over the API server's store.

    Every write of the operator is one step, so a crash or a failed call is nothing but a run in
    which the following steps are missing. Users, the Job controller, the cluster controller and
    other operators' passes act between any two steps. `hist` is what the store itself forgets, and
    the theorems are about it. The environment is free of it, but for UIDs, which are never reused;
    the guards of the operator use it for what a pass has read: every value that a step of the
    operator rests on was there at some moment since its pass began. */
module ControlPlane {
  import opened Text
  import opened Objects
  import opened References
  import EntryPoint
  import JobVolumes

  /** `ns` is the namespace of the operator, `alnum` tells Unicode's letters and numbers, and
      `movable` says whether users may edit `spec.cluster` (the webhook guards creation only). */
  datatype Config = Config(ns: string, alnum: char -> bool, movable: bool)

  /** A backup: who took it for which reference of which cluster, of what, when, and what it read. */
  datatype Copy = Copy(uid: nat, slot: Slot, cluster: string, src: Ref, stamp: nat, data: Payload)

  datatype Fill = Fill(key: Key, copy: Copy)

  /** Which Job was recorded, whose it is, and since which place in the trail. */
  datatype Launch = Launch(key: Ref, maker: nat, at: nat)

  /** What can be read of the store beside the operations. */
  datatype World = World(clusters: map<string, Cluster>, objs: map<Key, Obj>, jobs: map<Ref, Job>)

  datatype History = History(
    names: map<nat, string>,       // the operation name behind every UID ever given out
    trail: seq<World>,             // the world at the beginning and after each step; the present one is last
    begun: map<nat, nat>,          // where in the trail the last pass for a UID began
    read: map<nat, Spec>,          // the spec that this pass read
    births: multiset<Ref>,         // Jobs created
    makers: multiset<(nat, Ref)>,  // the same, with the UID of the operation
    deaths: multiset<Ref>,         // Jobs deleted
    launched: map<nat, Launch>,    // the Job whose reference was persisted
    copyPast: set<(Key, Copy)>,    // backups taken
    fills: map<(nat, Slot), Fill>, // backups recorded in an operation
    touched: set<Key>,             // objects written or deleted by users
    tampered: set<nat>,            // operations whose digested text users changed after the digest
    edited: set<nat>,              // operations whose spec users edited
    editedLate: set<nat>)          // the same, after the Job was recorded

  datatype State = State(
    ops: map<string, Op>,
    clusters: map<string, Cluster>,
    objs: map<Key, Obj>,
    jobs: map<Ref, Job>,
    accounts: seq<string>,
    now: nat,
    rev: nat,
    hist: History)

  function Initial(): State {
    State(map[], map[], map[], map[], [], 0, 0,
          History(map[], [World(map[], map[], map[])], map[], map[],
                  multiset{}, multiset{}, multiset{}, map[], {}, map[], {}, {}, {}, {}))
  }

  function WorldOf(s: State): World {
    World(s.clusters, s.objs, s.jobs)
  }

  // Names that the operator gives.

  function JobKey(c: Config, o: string): Ref {
    Ref(c.ns, "kubean-" + o + "-job")
  }

  function EntryKey(c: Config, o: string): Key {
    Key(ConfigMap, c.ns, o + ENTRYPOINT_SUFFIX)
  }

  function CopyRef(c: Config, copy: Copy): Ref {
    Ref(c.ns, copy.src.Name() + Stamp(copy.stamp))
  }

  function CopyKey(c: Config, copy: Copy): Key {
    KeyOf(KindOf(copy.slot), CopyRef(c, copy))
  }

  predicate Live(op: Op) {
    !Finished(op.status.phase)
  }

  function CalSalt(spec: Spec): Digest {
    Md5(Summary(spec))
  }

  /** The status that the conditions of a Job stand for: the first true one of four decides. */
  function JobVerdict(conds: seq<Cond>): Phase {
    if conds == [] then Running
    else if conds[0].isTrue && conds[0].kind == Complete then Succeeded
    else if conds[0].isTrue && conds[0].kind != OtherCond then Failed
    else JobVerdict(conds[1..])
  }

  function FinalPhase(seen: Option<seq<Cond>>): Phase {
    match seen
    case None => Failed
    case Some(conds) => JobVerdict(conds)
  }

  /** The conditions of a Job that may be missing. */
  function SeenOf(jobs: map<Ref, Job>, job: Ref): Option<seq<Cond>> {
    if job in jobs then Some(jobs[job].conds) else None
  }

  // What the present pass for UID `u` has read: values from the trail since it began.

  predicate InPass(h: History, u: nat, i: nat) {
    u in h.begun && h.begun[u] <= i < |h.trail|
  }

  predicate ClusterSeen(h: History, u: nat, name: string, cl: Cluster, i: nat) {
    InPass(h, u, i) && name in h.trail[i].clusters && h.trail[i].clusters[name] == cl
  }

  predicate ObjSeen(h: History, u: nat, key: Key, data: Payload, i: nat) {
    InPass(h, u, i) && key in h.trail[i].objs && h.trail[i].objs[key].data == data
  }

  predicate JobSeen(h: History, u: nat, job: Ref, seen: Option<seq<Cond>>, i: nat) {
    InPass(h, u, i) && seen == SeenOf(h.trail[i].jobs, job)
  }

  /** The Job of operation `o` where a pass looks for it: in the namespace of the hosts reference. */
  function LookKey(o: string, spec: Spec): Ref {
    Ref(spec.hosts.Ns(), "kubean-" + o + "-job")
  }

  predicate OwnedBy(jobs: map<Ref, Job>, key: Ref, u: nat) {
    key in jobs && jobs[key].owner == u
  }

  /** How a pass for `u` came by the Job: it looked for it, and took the one it found, or else it
      created one; then the Job was there, and it is that of `maker`. */
  predicate JobFound(h: History, u: nat, look: Ref, key: Ref, find: Find) {
    && InPass(h, u, find.looked) && find.looked <= find.had && InPass(h, u, find.had)
    && OwnedBy(h.trail[find.had].jobs, key, find.maker)
    && if look in h.trail[find.looked].jobs
       then look == key && OwnedBy(h.trail[find.looked].jobs, key, find.maker)
       else find.maker == u
  }

  /** The present pass began when the Job was recorded already. */
  predicate BegunLaunched(h: History, u: nat) {
    u in h.launched && u in h.begun && h.launched[u].at <= h.begun[u]
  }

  // The webhook's rule.

  /** Operation `op` of name `n` keeps a new operation of name `name` out of its cluster. */
  predicate Blocks(n: string, op: Op, name: string, cluster: string) {
    && !Finished(op.status.phase)
    && n != name
    && op.spec.cluster == cluster
    && (op.status.phase == Unset || op.status.phase == Running)
  }

  predicate Admits(ops: map<string, Op>, name: string, cluster: string) {
    forall n | n in ops :: !Blocks(n, ops[n], name, cluster)
  }

  // Writes of the operator to an operation.

  /** The validations that mark an operation as failed. The references were refused because of the
      cluster as it was at `i` and of the objects as they were at `j`. */
  datatype Why = BadImage | BadRefs(cl: Cluster, i: nat, j: nat) | BadArgs

  /** Whose Job a pass found or made, and at which places it looked for it and had it. */
  datatype Find = Find(maker: nat, looked: nat, had: nat)

  /** A write, and what was read for it and when. */
  datatype OpWrite =
    | Annotate(pod: string)
    | OwnByCluster(cl: Cluster, i: nat)
    | TakeDigest
    | FlagModified
    | FillRef(copy: Copy)
    | FillEntry(script: Payload, i: nat)
    | SetJobRef(key: Ref, find: Find, cl: Cluster, at: int, i: nat)
    | Finish(seen: Option<seq<Cond>>, at: int, i: nat)
    | MarkFailed(why: Why)
    | MarkDone

  predicate IsStatusWrite(w: OpWrite) {
    w.TakeDigest? || w.FlagModified? || w.SetJobRef? || w.Finish? || w.MarkFailed?
  }

  function Written(c: Config, o: string, op: Op, w: OpWrite): Op {
    match w
    case Annotate(pod) => op.(annotations := op.annotations[ACTOR_ANNOTATION := pod])
    case OwnByCluster(cl, i) => op.(owners := op.owners + [cl.uid])
    case TakeDigest => op.(status := op.status.(digest := CalSalt(op.spec)))
    case FlagModified => op.(status := op.status.(modified := true))
    case FillRef(copy) =>
      op.(spec := WithRef(op.spec, copy.slot, CopyRef(c, copy)), labels := op.labels[CLUSTER_LABEL := op.spec.cluster])
    case FillEntry(script, i) =>
      op.(spec := op.spec.(entry := Ref(c.ns, o + ENTRYPOINT_SUFFIX)),
          labels := op.labels[CLUSTER_LABEL := op.spec.cluster])
    case SetJobRef(key, find, cl, at, i) =>
      op.(status := op.status.(jobRef := key, start := Some(at), phase := Running, action := op.spec.main.action))
    case Finish(seen, at, i) => op.(status := op.status.(phase := FinalPhase(seen), end := Some(at)))
    case MarkFailed(why) => op.(status := op.status.(phase := Failed))
    case MarkDone => op.(labels := op.labels[COMPLETED_LABEL := "done"])
  }

  /** When the operator may make a write, given the operation as it was read. */
  predicate CanWrite(c: Config, h: History, o: string, op: Op, w: OpWrite) {
    match w
    case Annotate(pod) => Live(op) && !op.status.jobRef.IsEmpty()
    case OwnByCluster(cl, i) =>
      Live(op) && ClusterSeen(h, op.uid, op.spec.cluster, cl, i) && cl.uid != 0 && cl.uid !in op.owners
    case TakeDigest => Live(op) && op.status.digest == NoDigest
    case FlagModified => Live(op) && op.status.digest != NoDigest && op.status.digest != CalSalt(op.spec)
    case FillRef(copy) =>
      && Live(op) && SpecRef(op.spec, copy.slot).IsEmpty()
      && copy.uid == op.uid && copy.cluster == op.spec.cluster && (CopyKey(c, copy), copy) in h.copyPast
    case FillEntry(script, i) =>
      && Live(op) && op.spec.entry.IsEmpty()
      && EntryPoint.Compile(op.spec) == Ok(script) && ObjSeen(h, op.uid, EntryKey(c, o), script, i)
    case SetJobRef(key, find, cl, at, i) =>
      && Live(op) && op.status.jobRef.IsEmpty() && op.status.digest != NoDigest
      && ValidImage(c.alnum, op.spec.image)
      && !op.spec.hosts.IsEmpty() && !op.spec.vars.IsEmpty() && !op.spec.entry.IsEmpty()
      && ClusterSeen(h, op.uid, op.spec.cluster, cl, i) && (op.spec.ssh.IsEmpty() ==> cl.ssh.IsEmpty())
      && key == JobKey(c, o) && (find.maker, key) in h.makers
      && JobFound(h, op.uid, LookKey(o, op.spec), key, find)
    case Finish(seen, at, i) =>
      && Live(op) && !op.status.jobRef.IsEmpty() && FinalPhase(seen) != Running
      && BegunLaunched(h, op.uid) && JobSeen(h, op.uid, op.status.jobRef, seen, i)
    case MarkFailed(why) => Live(op) && CanFail(c, h, op, why)
    case MarkDone => Finished(op.status.phase)
  }

  /** The validations that mark an operation as failed without a Job saying so. */
  predicate CanFail(c: Config, h: History, op: Op, why: Why) {
    && (op.uid in h.launched ==> BegunLaunched(h, op.uid))
    && match why
       case BadImage => !ValidImage(c.alnum, op.spec.image)
       case BadRefs(cl, i, j) =>
         && ClusterSeen(h, op.uid, op.spec.cluster, cl, i) && i <= j && InPass(h, op.uid, j)
         && !RefsOk(cl, h.trail[j].objs, op.spec)
       case BadArgs => op.spec.entry.IsEmpty() && !EntryPoint.ValidActions(op.spec)
  }

  // Steps.

  /** What a pass does; the first step of each is to read its operation. */
  datatype Ctl =
    | Begin
    | WriteOp(w: OpWrite)
    | CopyData(copy: Copy, cl: Cluster, i: nat, j: nat)
    | PutEntry(spec: Spec, script: Payload)
    | AddOwner(key: Key)
    | Inject(src: Ref, data: Payload, j: nat)
    | CreateJob(spec: Spec, template: Template)
    | Suspend(job: Ref)

  datatype Env =
    | CreateOp(name: string, uid: nat, labels: map<string, string>, annotations: map<string, string>, spec: Spec)
    | DeleteOp(name: string)
    | EditOp(name: string, labels: map<string, string>, annotations: map<string, string>, spec: Spec)
    | PutCluster(name: string, cl: Cluster)
    | DropCluster(name: string)
    | PutObj(key: Key, data: Payload)
    | OwnObj(key: Key, owner: nat)
    | DropObj(key: Key)
    | JobEvent(job: Ref, conds: seq<Cond>, completion: Option<int>, suspend: bool)
    | DropJob(job: Ref)
    | PutAccounts(accounts: seq<string>)
    | Tick

  /** A step of the pass that works on operation `o`, whose UID it read as `u`; or of anyone else. */
  datatype Action = Operator(o: string, u: nat, ctl: Ctl) | Others(env: Env)

  // Guards.

  /** The reads behind a backup: the cluster had this reference at `i`, and then, at `j`, the object
      behind it had this content. */
  predicate CopyRead(h: History, u: nat, copy: Copy, cl: Cluster, i: nat, j: nat) {
    && copy.uid == u && ClusterSeen(h, u, copy.cluster, cl, i)
    && copy.src == ClusterRef(cl, copy.slot) && !copy.src.IsEmpty()
    && i <= j && ObjSeen(h, u, KeyOf(KindOf(copy.slot), copy.src), copy.data, j)
  }

  predicate CanCopy(c: Config, s: State, u: nat, copy: Copy, cl: Cluster, i: nat, j: nat) {
    CopyRead(s.hist, u, copy, cl, i, j) && CopyKey(c, copy) !in s.objs
  }

  predicate InjectRead(h: History, u: nat, src: Ref, data: Payload, j: nat) {
    !src.IsEmpty() && ObjSeen(h, u, KeyOf(ConfigMap, src), data, j)
  }

  function InjectKey(c: Config, src: Ref): Key {
    Key(ConfigMap, c.ns, src.Name())
  }

  /** Spec `spec` is what the pass for `u` read. */
  predicate HasRead(h: History, u: nat, spec: Spec) {
    u in h.read && h.read[u] == spec
  }

  /** The template has the built-in volumes and mounts of the spec and those of its custom actions. */
  predicate JobFor(spec: Spec, template: Template) {
    JobVolumes.Added(JobVolumes.BaseTemplate(spec), template, JobVolumes.AllHooks(spec))
  }

  predicate CtlEnabled(c: Config, s: State, o: string, u: nat, ctl: Ctl) {
    && u in s.hist.names && s.hist.names[u] == o
    && match ctl
       case Begin => o in s.ops && s.ops[o].uid == u && Live(s.ops[o])
       case WriteOp(w) => o in s.ops && s.ops[o].uid == u && CanWrite(c, s.hist, o, s.ops[o], w)
       case CopyData(copy, cl, i, j) => CanCopy(c, s, u, copy, cl, i, j)
       case PutEntry(spec, script) => HasRead(s.hist, u, spec) && EntryPoint.Compile(spec) == Ok(script)
       case AddOwner(key) => key in s.objs && u !in s.objs[key].owners
       case Inject(src, data, j) => InjectRead(s.hist, u, src, data, j) && InjectKey(c, src) !in s.objs
       case CreateJob(spec, template) =>
         && u !in s.hist.launched && JobKey(c, o) !in s.jobs
         && HasRead(s.hist, u, spec) && JobFor(spec, template) && JobVolumes.Accepted(template)
       case Suspend(job) => job in s.jobs && u in s.hist.launched && s.hist.launched[u].key == job
  }

  predicate CanCreate(s: State, name: string, uid: nat, labels: map<string, string>, spec: Spec) {
    && uid !in s.hist.names && name !in s.ops && |spec.cluster| != 0
    && COMPLETED_LABEL !in labels
    && Admits(s.ops, name, spec.cluster)
  }

  predicate CanEdit(c: Config, s: State, name: string, labels: map<string, string>, spec: Spec) {
    && name in s.ops
    && (spec.cluster == s.ops[name].spec.cluster || c.movable)
    && (COMPLETED_LABEL in labels ==> COMPLETED_LABEL in s.ops[name].labels)
  }

  predicate EnvEnabled(c: Config, s: State, env: Env) {
    match env
    case CreateOp(name, uid, labels, annotations, spec) => CanCreate(s, name, uid, labels, spec)
    case DeleteOp(name) => name in s.ops
    case EditOp(name, labels, annotations, spec) => CanEdit(c, s, name, labels, spec)
    case OwnObj(key, owner) => key in s.objs
    case DropObj(key) => key in s.objs
    case JobEvent(job, conds, completion, suspend) => job in s.jobs
    case DropJob(job) => job in s.jobs
    case _ => true
  }

  predicate Enabled(c: Config, s: State, a: Action) {
    match a
    case Operator(o, u, ctl) => CtlEnabled(c, s, o, u, ctl)
    case Others(env) => EnvEnabled(c, s, env)
  }

  // Effects, part by part.

  function NewOp(uid: nat, created: int, labels: map<string, string>, annotations: map<string, string>, spec: Spec)
    : Op
  {
    Op(uid, 0, created, labels, annotations, [], spec, Status("", Nil, Unset, None, None, NoDigest, false))
  }

  function OpsAfter(c: Config, s: State, a: Action): map<string, Op> {
    match a
    case Operator(o, u, WriteOp(w)) =>
      if o in s.ops then s.ops[o := Written(c, o, s.ops[o], w).(rv := s.rev + 1)] else s.ops
    case Others(CreateOp(name, uid, labels, annotations, spec)) =>
      s.ops[name := NewOp(uid, s.now, labels, annotations, spec).(rv := s.rev + 1)]
    case Others(DeleteOp(name)) => s.ops - {name}
    case Others(EditOp(name, labels, annotations, spec)) =>
      if name in s.ops
      then s.ops[name := s.ops[name].(labels := labels, annotations := annotations, spec := spec, rv := s.rev + 1)]
      else s.ops
    case _ => s.ops
  }

  function ClustersAfter(s: State, a: Action): map<string, Cluster> {
    match a
    case Others(PutCluster(name, cl)) => s.clusters[name := cl]
    case Others(DropCluster(name)) => s.clusters - {name}
    case _ => s.clusters
  }

  /** The ConfigMap or Secret that a step writes, if it writes one. */
  function NewObj(c: Config, s: State, a: Action): Option<(Key, Obj)> {
    match a
    case Operator(o, u, CopyData(copy, cl, i, j)) => Some((CopyKey(c, copy), Obj(copy.data, [u])))
    case Operator(o, u, PutEntry(spec, script)) => Some((EntryKey(c, o), Obj(script, [u])))
    case Operator(o, u, Inject(src, data, j)) => Some((InjectKey(c, src), Obj(data, [u])))
    case Operator(o, u, AddOwner(key)) => WithOwner(s.objs, key, u)
    case Others(OwnObj(key, owner)) => WithOwner(s.objs, key, owner)
    case Others(PutObj(key, data)) => Some((key, Obj(data, if key in s.objs then s.objs[key].owners else [])))
    case _ => None
  }

  function WithOwner(objs: map<Key, Obj>, key: Key, owner: nat): Option<(Key, Obj)> {
    if key in objs then Some((key, objs[key].(owners := objs[key].owners + [owner]))) else None
  }

  function ObjsAfter(c: Config, s: State, a: Action): map<Key, Obj> {
    var put := NewObj(c, s, a);
    if put.Some? then s.objs[put.value.0 := put.value.1]
    else if a.Others? && a.env.DropObj? then s.objs - {a.env.key}
    else s.objs
  }

  /** The Job that a step writes, if it writes one. */
  function NewJob(c: Config, s: State, a: Action): Option<(Ref, Job)> {
    match a
    case Operator(o, u, CreateJob(spec, template)) => Some((JobKey(c, o), Job(u, false, [], None, template)))
    case Operator(o, u, Suspend(job)) => if job in s.jobs then Some((job, s.jobs[job].(suspend := true))) else None
    case Others(JobEvent(job, conds, completion, suspend)) =>
      if job in s.jobs
      then Some((job, s.jobs[job].(conds := conds, completion := completion, suspend := suspend)))
      else None
    case _ => None
  }

  function JobsAfter(c: Config, s: State, a: Action): map<Ref, Job> {
    var put := NewJob(c, s, a);
    if put.Some? then s.jobs[put.value.0 := put.value.1]
    else if a.Others? && a.env.DropJob? then s.jobs - {a.env.job}
    else s.jobs
  }

  /** The write to an operation that a step is, if it is one. */
  function OpWriteOf(a: Action): Option<OpWrite> {
    if a.Operator? && a.ctl.WriteOp? then Some(a.ctl.w) else None
  }

  function FillsAfter(c: Config, h: History, a: Action): map<(nat, Slot), Fill> {
    match OpWriteOf(a)
    case Some(FillRef(copy)) => h.fills[(a.u, copy.slot) := Fill(CopyKey(c, copy), copy)]
    case _ => h.fills
  }

  function LaunchedAfter(h: History, a: Action): map<nat, Launch> {
    match OpWriteOf(a)
    case Some(SetJobRef(key, find, cl, at, i)) => h.launched[a.u := Launch(key, find.maker, |h.trail|)]
    case _ => h.launched
  }

  /** Operations that users change under the digest. */
  function Tampers(s: State, a: Action): set<nat> {
    match a
    case Others(EditOp(name, labels, annotations, spec)) =>
      if name in s.ops && s.ops[name].status.digest != NoDigest && Summary(spec) != Summary(s.ops[name].spec)
      then {s.ops[name].uid} else {}
    case _ => {}
  }

  /** Operations whose spec users change. */
  function Edits(s: State, a: Action): set<nat> {
    match a
    case Others(EditOp(name, labels, annotations, spec)) =>
      if name in s.ops && spec != s.ops[name].spec then {s.ops[name].uid} else {}
    case _ => {}
  }

  /** Operations whose spec users change after their Job was recorded. */
  function LateEdits(s: State, a: Action): set<nat> {
    match a
    case Others(EditOp(name, labels, annotations, spec)) =>
      if name in s.ops && !s.ops[name].status.jobRef.IsEmpty() && spec != s.ops[name].spec
      then {s.ops[name].uid} else {}
    case _ => {}
  }

  function Touches(a: Action): set<Key> {
    match a
    case Others(PutObj(key, data)) => {key}
    case Others(DropObj(key)) => {key}
    case _ => {}
  }

  predicate IsCreateJob(a: Action) {
    a.Operator? && a.ctl.CreateJob?
  }

  function HistoryAfter(c: Config, s: State, a: Action): History {
    var h := s.hist;
    History(
      if a.Others? && a.env.CreateOp? then h.names[a.env.uid := a.env.name] else h.names,
      h.trail + [World(ClustersAfter(s, a), ObjsAfter(c, s, a), JobsAfter(c, s, a))],
      if a.Operator? && a.ctl.Begin? then h.begun[a.u := |h.trail|] else h.begun,
      if a.Operator? && a.ctl.Begin? && a.o in s.ops then h.read[a.u := s.ops[a.o].spec] else h.read,
      if IsCreateJob(a) then h.births + multiset{JobKey(c, a.o)} else h.births,
      if IsCreateJob(a) then h.makers + multiset{(a.u, JobKey(c, a.o))} else h.makers,
      if a.Others? && a.env.DropJob? then h.deaths + multiset{a.env.job} else h.deaths,
      LaunchedAfter(h, a),
      if a.Operator? && a.ctl.CopyData? then h.copyPast + {(CopyKey(c, a.ctl.copy), a.ctl.copy)} else h.copyPast,
      FillsAfter(c, h, a),
      h.touched + Touches(a),
      h.tampered + Tampers(s, a),
      h.edited + Edits(s, a),
      h.editedLate + LateEdits(s, a))
  }

  predicate WritesOp(a: Action) {
    OpWriteOf(a).Some? || (a.Others? && (a.env.CreateOp? || a.env.EditOp?))
  }

  function Apply(c: Config, s: State, a: Action): State {
    State(
      OpsAfter(c, s, a), ClustersAfter(s, a), ObjsAfter(c, s, a), JobsAfter(c, s, a),
      if a.Others? && a.env.PutAccounts? then a.env.accounts else s.accounts,
      if a.Others? && a.env.Tick? then s.now + 1 else s.now,
      if WritesOp(a) then s.rev + 1 else s.rev,
      HistoryAfter(c, s, a))
  }

  /** A step whose guard does not hold is refused and changes nothing. */
  function Step(c: Config, s: State, a: Action): State {
    if Enabled(c, s, a) then Apply(c, s, a) else s
  }

  /** The state after a run: any sequence of steps from the empty store. */
  function Run(c: Config, log: seq<Action>): State {
    if log == [] then Initial() else Step(c, Run(c, log[..|log| - 1]), log[|log| - 1])
  }

  /** The same, state by state: `states[i]` is what the first `i` steps lead to. */
  ghost predicate IsRun(c: Config, log: seq<Action>, states: seq<State>) {
    && |states| == |log| + 1
    && states[0] == Initial()
    && forall i {:trigger log[i]} | 0 <= i < |log| :: states[i + 1] == Step(c, states[i], log[i])
  }

  lemma RunGoesOn(c: Config, log: seq<Action>, states: seq<State>, a: Action)
    requires IsRun(c, log, states)
    ensures IsRun(c, log + [a], states + [Step(c, states[|log|], a)])
  {
    var states' := states + [Step(c, states[|log|], a)];
    forall i {:trigger (log + [a])[i]} | 0 <= i < |log| + 1
      ensures states'[i + 1] == Step(c, states'[i], (log + [a])[i])
    {
      if i < |log| {
        assert (log + [a])[i] == log[i];
      }
    }
  }

  lemma {:induction false} RunStates(c: Config, log: seq<Action>, states: seq<State>)
    requires IsRun(c, log, states)
    ensures states[|log|] == Run(c, log)
  {
    if log != [] {
      var n := |log| - 1;
      var front := log[..n];
      assert IsRun(c, front, states[..n + 1]) by {
        forall i {:trigger front[i]} | 0 <= i < n
          ensures states[..n + 1][i + 1] == Step(c, states[..n + 1][i], front[i])
        {
          assert front[i] == log[i];
        }
      }
      RunStates(c, front, states[..n + 1]);
      assert states[n + 1] == Step(c, states[n], log[n]);
    }
  }
}
