/** Runs in which the control plane fails what it is for: a Job that no pass ever adopts, an operation that
    is Failed although its Job completed and whose cluster is open for others before that, a verdict that
    is never stored, and an operation that is Succeeded on account of another one's Job. */
module Witnesses {
  import opened Objects
  import opened References
  import opened ControlPlane
  import opened Invariants
  import opened Runs
  import opened ApiServer
  import opened Passes
  import EntryPoint
  import JobVolumes
  import opened Stages

  // The runs.

  /** An operation whose data was given by its user. */
  function Wish(hosts: Ref): Spec {
    Spec("x", hosts, Ref("data", "vars"), Nil, Nil, Hook("shell", "true", None, Nil, ""), "i", [], [])
  }

  function TheCluster(hosts: Ref, ssh: Ref): Cluster {
    Cluster(7, hosts, Ref("data", "vars"), ssh)
  }

  function First(): Cluster {
    TheCluster(Ref("data", "hosts"), Nil)
  }

  function TheScript(): Payload {
    Rendered([], "true", [])
  }

  function EntryRef(c: Config): Ref {
    Ref(c.ns, "a" + ENTRYPOINT_SUFFIX)
  }

  function Op0(hosts: Ref): Op {
    NewOp(1, 0, map[], map[], Wish(hosts))
  }

  function Op1(c: Config, hosts: Ref): Op {
    Written(c, "a", Op0(hosts), OwnByCluster(First(), 4))
  }

  function Op2(c: Config, hosts: Ref): Op {
    Written(c, "a", Op1(c, hosts), TakeDigest)
  }

  function Op3(c: Config, hosts: Ref): Op {
    Written(c, "a", Op2(c, hosts), FillEntry(TheScript(), 9))
  }

  function TheTemplate(c: Config, hosts: Ref): Template {
    JobVolumes.BaseTemplate(Op3(c, hosts).spec)
  }

  function NewJob(c: Config, hosts: Ref): Job {
    Job(1, false, [], None, TheTemplate(c, hosts))
  }

  function Done(c: Config, hosts: Ref): Job {
    Job(1, false, [Cond(Complete, true)], None, TheTemplate(c, hosts))
  }

  function Completes(c: Config): Action {
    Others(JobEvent(JobKey(c, "a"), [Cond(Complete, true)], None, false))
  }

  function Pass(u: nat, ctl: Ctl): Action {
    Operator("a", u, ctl)
  }

  /** A cluster, an operation, three passes that go through, and one that crashes after it created the
      Job. */
  function CrashedRun(c: Config, hosts: Ref): seq<Action> {
    [Others(PutAccounts(["sa"])),
     Others(PutCluster("x", First())),
     Others(CreateOp("a", 1, map[], map[], Wish(hosts))),
     Pass(1, Begin), Pass(1, WriteOp(OwnByCluster(First(), 4))),
     Pass(1, Begin), Pass(1, WriteOp(TakeDigest)),
     Pass(1, Begin), Pass(1, PutEntry(Wish(hosts), TheScript())), Pass(1, WriteOp(FillEntry(TheScript(), 9))),
     Pass(1, Begin), Pass(1, CreateJob(Op3(c, hosts).spec, TheTemplate(c, hosts)))]
  }

  predicate StartsCrashed(c: Config, log: seq<Action>, hosts: Ref) {
    && |log| >= 12 && log[0] == Others(PutAccounts(["sa"])) && log[1] == Others(PutCluster("x", First()))
    && log[2] == Others(CreateOp("a", 1, map[], map[], Wish(hosts)))
    && log[3] == Pass(1, Begin) && log[4] == Pass(1, WriteOp(OwnByCluster(First(), 4)))
    && log[5] == Pass(1, Begin) && log[6] == Pass(1, WriteOp(TakeDigest))
    && log[7] == Pass(1, Begin) && log[8] == Pass(1, PutEntry(Wish(hosts), TheScript()))
    && log[9] == Pass(1, WriteOp(FillEntry(TheScript(), 9)))
    && log[10] == Pass(1, Begin) && log[11] == Pass(1, CreateJob(Op3(c, hosts).spec, TheTemplate(c, hosts)))
  }

  lemma CrashedRunStarts(c: Config, hosts: Ref)
    ensures StartsCrashed(c, CrashedRun(c, hosts), hosts) && CrashedRun(c, hosts)[..12] == CrashedRun(c, hosts)
  {
  }

  // Single steps.

  /** The UIDs of operations called "a": the first one, and perhaps a second. */
  function Uids(u: nat): map<nat, string> {
    if u == 1 then map[1 := "a"] else map[1 := "a", 2 := "a"]
  }

  /** What `n` steps lead to: nothing but this operation and this cluster. */
  ghost predicate Stands(s: State, n: nat, op: Op, cl: Cluster, jobs: map<Ref, Job>) {
    && s.ops.Keys == {"a"} && s.ops["a"] == op.(rv := s.ops["a"].rv) && op.uid in {1, 2}
    && Bare(s, n, op.uid, cl, jobs)
  }

  ghost predicate Bare(s: State, n: nat, u: nat, cl: Cluster, jobs: map<Ref, Job>) {
    && s.clusters == map["x" := cl] && s.jobs == jobs && s.now == 0
    && s.hist.names == Uids(u) && s.hist.editedLate == {} && (forall k :: (2, k) !in s.hist.makers)
    && |s.hist.trail| == n + 1 && s.hist.trail[n] == WorldOf(s)
  }

  /** A step changes neither objects nor what the pass knows. */
  predicate Kept(s: State, s': State) {
    && s'.objs == s.objs && s'.hist.launched == s.hist.launched
    && s'.hist.begun == s.hist.begun && s'.hist.read == s.hist.read
  }

  lemma Next(c: Config, log: seq<Action>, n: nat)
    requires n < |log|
    ensures Run(c, log[..n + 1]) == Step(c, Run(c, log[..n]), log[n])
  {
    assert log[..n + 1] == log[..n] + [log[n]];
    RunAppends(c, log[..n], log[n]);
  }

  lemma ClusterStands(c: Config)
    ensures var s := Step(c, Step(c, Initial(), Others(PutAccounts(["sa"]))), Others(PutCluster("x", First())));
      && s.ops == map[] && s.clusters == map["x" := First()] && s.objs == map[] && s.jobs == map[] && s.now == 0
      && s.hist.names == map[] && s.hist.makers == multiset{} && s.hist.launched == map[]
      && s.hist.editedLate == {} && |s.hist.trail| == 3
  {
  }

  lemma OpStands(c: Config, s: State, hosts: Ref)
    requires s.ops == map[] && s.clusters == map["x" := First()] && s.objs == map[] && s.jobs == map[] && s.now == 0
    requires s.hist.names == map[] && s.hist.makers == multiset{} && s.hist.launched == map[]
    requires s.hist.editedLate == {} && |s.hist.trail| == 3
    ensures var s' := Step(c, s, Others(CreateOp("a", 1, map[], map[], Wish(hosts))));
      Stands(s', 3, Op0(hosts), First(), map[]) && s'.objs == map[] && s'.hist.launched == map[]
  {
    assert Enabled(c, s, Others(CreateOp("a", 1, map[], map[], Wish(hosts))));
  }

  lemma Created(c: Config, log: seq<Action>, hosts: Ref)
    requires |log| >= 3 && log[0] == Others(PutAccounts(["sa"])) && log[1] == Others(PutCluster("x", First()))
    requires log[2] == Others(CreateOp("a", 1, map[], map[], Wish(hosts)))
    ensures var s := Run(c, log[..3]);
      Stands(s, 3, Op0(hosts), First(), map[]) && s.objs == map[] && s.hist.launched == map[]
  {
    hide Step;
    Next(c, log, 0);
    Next(c, log, 1);
    Next(c, log, 2);
    assert log[..0] == [];
    ClusterStands(c);
    OpStands(c, Run(c, log[..2]), hosts);
  }

  lemma Begins(c: Config, log: seq<Action>, n: nat, op: Op, cl: Cluster, jobs: map<Ref, Job>)
    requires n < |log| && Stands(Run(c, log[..n]), n, op, cl, jobs) && Live(op) && log[n] == Pass(op.uid, Begin)
    ensures var s, s' := Run(c, log[..n]), Run(c, log[..n + 1]);
      && Stands(s', n + 1, op, cl, jobs) && s'.objs == s.objs && s'.hist.launched == s.hist.launched
      && op.uid in s'.hist.begun && s'.hist.begun[op.uid] == n + 1 && HasRead(s'.hist, op.uid, op.spec)
  {
    Next(c, log, n);
    StepBegins(c, Run(c, log[..n]), "a", op.uid);
  }

  lemma WriteStands(c: Config, s: State, n: nat, op: Op, cl: Cluster, jobs: map<Ref, Job>, w: OpWrite)
    requires Stands(s, n, op, cl, jobs) && CanWrite(c, s.hist, "a", op, w)
    ensures var s' := Step(c, s, Pass(op.uid, WriteOp(w)));
      && Stands(s', n + 1, Written(c, "a", op, w), cl, jobs)
      && (!w.SetJobRef? ==> Kept(s, s')) && s'.objs == s.objs
  {
    hide Written, CanWrite;
    AnyRevision(c, s.hist, op, w, s.ops["a"].rv);
    StepWrites(c, s, "a", op.uid, w);
    WriteKeepsBare(c, s, n, op.uid, cl, jobs, w);
    WrittenIdentity(c, "a", op, w);
  }

  lemma AnyRevision(c: Config, h: History, op: Op, w: OpWrite, k: nat)
    ensures CanWrite(c, h, "a", op.(rv := k), w) <==> CanWrite(c, h, "a", op, w)
    ensures Written(c, "a", op.(rv := k), w) == Written(c, "a", op, w).(rv := k)
  {
  }

  lemma WriteKeepsBare(c: Config, s: State, n: nat, u: nat, cl: Cluster, jobs: map<Ref, Job>, w: OpWrite)
    requires Bare(s, n, u, cl, jobs) && Enabled(c, s, Pass(u, WriteOp(w)))
    ensures Bare(Step(c, s, Pass(u, WriteOp(w))), n + 1, u, cl, jobs)
  {
  }

  lemma Writes(c: Config, log: seq<Action>, n: nat, op: Op, cl: Cluster, jobs: map<Ref, Job>, w: OpWrite)
    requires n < |log| && Stands(Run(c, log[..n]), n, op, cl, jobs) && log[n] == Pass(op.uid, WriteOp(w))
    requires !w.SetJobRef? && CanWrite(c, Run(c, log[..n]).hist, "a", op, w)
    ensures var s, s' := Run(c, log[..n]), Run(c, log[..n + 1]);
      Stands(s', n + 1, Written(c, "a", op, w), cl, jobs) && Kept(s, s')
  {
    hide Step, Written, CanWrite;
    Next(c, log, n);
    WriteStands(c, Run(c, log[..n]), n, op, cl, jobs, w);
  }

  lemma StepLaunches(c: Config, s: State, a: Action)
    requires Enabled(c, s, a) && a.Operator? && a.ctl.WriteOp? && a.ctl.w.SetJobRef?
    ensures var h := Step(c, s, a).hist; a.u in h.launched && h.launched[a.u].at == |s.hist.trail|
  {
  }

  lemma Launches(c: Config, log: seq<Action>, n: nat, op: Op, cl: Cluster, jobs: map<Ref, Job>, w: OpWrite)
    requires n < |log| && Stands(Run(c, log[..n]), n, op, cl, jobs) && log[n] == Pass(op.uid, WriteOp(w))
    requires w.SetJobRef? && CanWrite(c, Run(c, log[..n]).hist, "a", op, w)
    ensures var s, s' := Run(c, log[..n]), Run(c, log[..n + 1]);
      && Stands(s', n + 1, Written(c, "a", op, w), cl, jobs) && s'.objs == s.objs
      && op.uid in s'.hist.launched && s'.hist.launched[op.uid].at == n + 1
  {
    hide Step, Written, CanWrite;
    Next(c, log, n);
    AnyRevision(c, Run(c, log[..n]).hist, op, w, Run(c, log[..n]).ops["a"].rv);
    WriteStands(c, Run(c, log[..n]), n, op, cl, jobs, w);
    StepLaunches(c, Run(c, log[..n]), log[n]);
  }

  lemma WritesScript(c: Config, log: seq<Action>, n: nat, op: Op, cl: Cluster)
    requires n < |log| && Stands(Run(c, log[..n]), n, op, cl, map[])
    requires log[n] == Pass(op.uid, PutEntry(op.spec, TheScript()))
    requires EntryPoint.Compile(op.spec) == Ok(TheScript()) && HasRead(Run(c, log[..n]).hist, op.uid, op.spec)
    ensures var s, s' := Run(c, log[..n]), Run(c, log[..n + 1]);
      && Stands(s', n + 1, op, cl, map[]) && s'.objs == s.objs[EntryKey(c, "a") := Obj(TheScript(), [op.uid])]
      && s'.hist.launched == s.hist.launched && s'.hist.begun == s.hist.begun
  {
    Next(c, log, n);
    StepPutsObj(c, Run(c, log[..n]), log[n]);
  }

  lemma MakesJob(c: Config, log: seq<Action>, n: nat, op: Op, cl: Cluster, t: Template)
    requires n < |log| && Stands(Run(c, log[..n]), n, op, cl, map[]) && op.uid == 1
    requires log[n] == Pass(1, CreateJob(op.spec, t)) && HasRead(Run(c, log[..n]).hist, 1, op.spec)
    requires Run(c, log[..n]).hist.launched == map[] && JobFor(op.spec, t) && JobVolumes.Accepted(t)
    ensures var s, s' := Run(c, log[..n]), Run(c, log[..n + 1]);
      && Stands(s', n + 1, op, cl, map[JobKey(c, "a") := Job(1, false, [], None, t)]) && Kept(s, s')
      && (1, JobKey(c, "a")) in s'.hist.makers && s.hist.trail <= s'.hist.trail
  {
    Next(c, log, n);
    StepCreatesJob(c, Run(c, log[..n]), "a", 1, op.spec, t);
  }

  lemma ClusterChanges(c: Config, log: seq<Action>, n: nat, op: Op, cl: Cluster, jobs: map<Ref, Job>, cl': Cluster)
    requires n < |log| && Stands(Run(c, log[..n]), n, op, cl, jobs) && log[n] == Others(PutCluster("x", cl'))
    ensures Stands(Run(c, log[..n + 1]), n + 1, op, cl', jobs) && Kept(Run(c, log[..n]), Run(c, log[..n + 1]))
  {
    Next(c, log, n);
  }

  lemma JobCompletes(c: Config, log: seq<Action>, n: nat, op: Op, cl: Cluster, hosts: Ref)
    requires n < |log| && Stands(Run(c, log[..n]), n, op, cl, map[JobKey(c, "a") := NewJob(c, hosts)])
    requires log[n] == Completes(c)
    ensures Stands(Run(c, log[..n + 1]), n + 1, op, cl, map[JobKey(c, "a") := Done(c, hosts)])
    ensures Kept(Run(c, log[..n]), Run(c, log[..n + 1]))
  {
    Next(c, log, n);
    JobStepCompletes(c, Run(c, log[..n]), hosts);
  }

  lemma JobStepCompletes(c: Config, s: State, hosts: Ref)
    requires s.jobs == map[JobKey(c, "a") := NewJob(c, hosts)]
    ensures Enabled(c, s, Completes(c)) && JobsAfter(c, s, Completes(c)) == map[JobKey(c, "a") := Done(c, hosts)]
  {
  }

  // Single passes.

  lemma CanOwn(c: Config, s: State, n: nat, op: Op, jobs: map<Ref, Job>)
    requires Stands(s, n, op, First(), jobs) && op.uid in s.hist.begun && s.hist.begun[op.uid] == n
    requires Live(op) && op.owners == [] && op.spec.cluster == "x"
    ensures CanWrite(c, s.hist, "a", op, OwnByCluster(First(), n))
  {
  }

  lemma OwnerAdded(c: Config, log: seq<Action>, n: nat, op: Op, jobs: map<Ref, Job>)
    requires |log| >= n + 2 && Stands(Run(c, log[..n]), n, op, First(), jobs)
    requires Live(op) && op.owners == [] && op.spec.cluster == "x"
    requires log[n] == Pass(op.uid, Begin) && log[n + 1] == Pass(op.uid, WriteOp(OwnByCluster(First(), n + 1)))
    ensures var s, s' := Run(c, log[..n]), Run(c, log[..n + 2]);
      && Stands(s', n + 2, Written(c, "a", op, OwnByCluster(First(), n + 1)), First(), jobs)
      && s'.objs == s.objs && s'.hist.launched == s.hist.launched
  {
    hide Step;
    Begins(c, log, n, op, First(), jobs);
    CanOwn(c, Run(c, log[..n + 1]), n + 1, op, jobs);
    Writes(c, log, n + 1, op, First(), jobs, OwnByCluster(First(), n + 1));
  }

  lemma DigestTaken(c: Config, log: seq<Action>, n: nat, op: Op, jobs: map<Ref, Job>)
    requires |log| >= n + 2 && Stands(Run(c, log[..n]), n, op, First(), jobs)
    requires Live(op) && op.status.digest == NoDigest
    requires log[n] == Pass(op.uid, Begin) && log[n + 1] == Pass(op.uid, WriteOp(TakeDigest))
    ensures var s, s' := Run(c, log[..n]), Run(c, log[..n + 2]);
      && Stands(s', n + 2, Written(c, "a", op, TakeDigest), First(), jobs)
      && s'.objs == s.objs && s'.hist.launched == s.hist.launched
  {
    hide Step;
    Begins(c, log, n, op, First(), jobs);
    Writes(c, log, n + 1, op, First(), jobs, TakeDigest);
  }

  lemma CanFill(c: Config, s: State, n: nat, op: Op)
    requires Stands(s, n, op, First(), map[]) && op.uid in s.hist.begun && s.hist.begun[op.uid] <= n
    requires Live(op) && op.spec.entry.IsEmpty() && EntryPoint.Compile(op.spec) == Ok(TheScript())
    requires EntryKey(c, "a") in s.objs && s.objs[EntryKey(c, "a")].data == TheScript()
    ensures CanWrite(c, s.hist, "a", op, FillEntry(TheScript(), n))
  {
  }

  lemma ScriptWritten(c: Config, log: seq<Action>, n: nat, op: Op)
    requires |log| >= n + 3 && Stands(Run(c, log[..n]), n, op, First(), map[])
    requires Live(op) && op.spec.entry.IsEmpty() && EntryPoint.Compile(op.spec) == Ok(TheScript())
    requires log[n] == Pass(op.uid, Begin) && log[n + 1] == Pass(op.uid, PutEntry(op.spec, TheScript()))
    requires log[n + 2] == Pass(op.uid, WriteOp(FillEntry(TheScript(), n + 2)))
    ensures var s, s' := Run(c, log[..n]), Run(c, log[..n + 3]);
      && Stands(s', n + 3, Written(c, "a", op, FillEntry(TheScript(), n + 2)), First(), map[])
      && s'.objs == s.objs[EntryKey(c, "a") := Obj(TheScript(), [op.uid])] && s'.hist.launched == s.hist.launched
  {
    Begins(c, log, n, op, First(), map[]);
    WritesScript(c, log, n + 1, op, First());
    CanFill(c, Run(c, log[..n + 2]), n + 2, op);
    Writes(c, log, n + 2, op, First(), map[], FillEntry(TheScript(), n + 2));
  }

  lemma JobCreated(c: Config, log: seq<Action>, n: nat, op: Op, t: Template)
    requires |log| >= n + 2 && Stands(Run(c, log[..n]), n, op, First(), map[]) && op.uid == 1
    requires Live(op) && Run(c, log[..n]).hist.launched == map[]
    requires JobFor(op.spec, t) && JobVolumes.Accepted(t)
    requires log[n] == Pass(1, Begin) && log[n + 1] == Pass(1, CreateJob(op.spec, t))
    ensures var s, s' := Run(c, log[..n]), Run(c, log[..n + 2]);
      && Stands(s', n + 2, op, First(), map[JobKey(c, "a") := Job(1, false, [], None, t)])
      && s'.objs == s.objs && s'.hist.launched == map[]
      && (1, JobKey(c, "a")) in s'.hist.makers && 1 in s'.hist.begun && s'.hist.begun[1] == n + 1
      && s'.hist.trail[n + 1].jobs == map[] && s'.hist.trail[n + 1].clusters == map["x" := First()]
  {
    Begins(c, log, n, op, First(), map[]);
    MakesJob(c, log, n + 1, op, First(), t);
  }

  // The passes that all runs begin with.

  lemma WishCompiles(hosts: Ref)
    ensures EntryPoint.Compile(Wish(hosts)) == Ok(TheScript())
  {
    assert EntryPoint.Commands([], false) == [];
    assert "shell"[0] != "playbook"[0];
  }

  lemma TemplateFits(c: Config, hosts: Ref)
    ensures JobFor(Op3(c, hosts).spec, TheTemplate(c, hosts)) && JobVolumes.Accepted(TheTemplate(c, hosts))
  {
    var spec := Op3(c, hosts).spec;
    assert JobVolumes.AllHooks(spec) == [spec.main];
    assert JobVolumes.CustomHooks([spec.main]) == [];
    JobVolumes.BaseIsWellFormed(spec);
    JobVolumes.BasePathsDistinct(spec);
  }

  lemma OpsOnTheWay(c: Config, hosts: Ref)
    ensures Live(Op0(hosts)) && Op0(hosts).owners == [] && Op0(hosts).spec == Wish(hosts)
    ensures Live(Op1(c, hosts)) && Op1(c, hosts).status.digest == NoDigest && Op1(c, hosts).spec == Wish(hosts)
    ensures Live(Op2(c, hosts)) && Op2(c, hosts).spec == Wish(hosts) && Wish(hosts).entry.IsEmpty()
    ensures Live(Op3(c, hosts)) && Op3(c, hosts).uid == 1
    ensures Op3(c, hosts).spec == Wish(hosts).(entry := EntryRef(c)) && !EntryRef(c).IsEmpty()
  {
    assert EntryRef(c).name != "";
  }

  lemma DigestStands(c: Config, log: seq<Action>, hosts: Ref)
    requires StartsCrashed(c, log, hosts)
    ensures var s := Run(c, log[..7]);
      Stands(s, 7, Op2(c, hosts), First(), map[]) && s.objs == map[] && s.hist.launched == map[]
  {
    hide Step;
    OpsOnTheWay(c, hosts);
    Created(c, log, hosts);
    OwnerAdded(c, log, 3, Op0(hosts), map[]);
    DigestTaken(c, log, 5, Op1(c, hosts), map[]);
  }

  lemma ScriptStands(c: Config, log: seq<Action>, hosts: Ref)
    requires StartsCrashed(c, log, hosts)
    ensures var s := Run(c, log[..10]);
      && Stands(s, 10, Op3(c, hosts), First(), map[])
      && s.objs == map[EntryKey(c, "a") := Obj(TheScript(), [1])] && s.hist.launched == map[]
  {
    OpsOnTheWay(c, hosts);
    WishCompiles(hosts);
    DigestStands(c, log, hosts);
    ScriptWritten(c, log, 7, Op2(c, hosts));
  }

  lemma JobStands(c: Config, log: seq<Action>, op: Op, t: Template)
    requires |log| >= 12 && Stands(Run(c, log[..10]), 10, op, First(), map[]) && op.uid == 1
    requires Live(op) && Run(c, log[..10]).hist.launched == map[]
    requires JobFor(op.spec, t) && JobVolumes.Accepted(t)
    requires log[10] == Pass(1, Begin) && log[11] == Pass(1, CreateJob(op.spec, t))
    ensures var s, s' := Run(c, log[..10]), Run(c, log[..12]);
      && Stands(s', 12, op, First(), map[JobKey(c, "a") := Job(1, false, [], None, t)])
      && s'.objs == s.objs && s'.hist.launched == map[]
      && (1, JobKey(c, "a")) in s'.hist.makers && 1 in s'.hist.begun && s'.hist.begun[1] == 11
      && s'.hist.trail[11].jobs == map[] && s'.hist.trail[11].clusters == map["x" := First()]
  {
    JobCreated(c, log, 10, op, t);
  }

  /** The Job is there, and the operation knows nothing of it. */
  lemma CrashedRunLeavesJob(c: Config, log: seq<Action>, hosts: Ref)
    requires StartsCrashed(c, log, hosts)
    ensures var s := Run(c, log[..12]);
      && Stands(s, 12, Op3(c, hosts), First(), map[JobKey(c, "a") := NewJob(c, hosts)])
      && s.objs == map[EntryKey(c, "a") := Obj(TheScript(), [1])] && s.hist.launched == map[]
      && (1, JobKey(c, "a")) in s.hist.makers && 1 in s.hist.begun && s.hist.begun[1] == 11
      && s.hist.trail[11].jobs == map[] && s.hist.trail[11].clusters == map["x" := First()]
  {
    hide Op3, TheTemplate;
    OpsOnTheWay(c, hosts);
    TemplateFits(c, hosts);
    ScriptStands(c, log, hosts);
    JobStands(c, log, Op3(c, hosts), TheTemplate(c, hosts));
  }

  // First run: a Job that no pass adopts.

  lemma OnlyJobLacks(c: Config, hosts: Ref, k: nat)
    requires !hosts.IsEmpty()
    ensures var op := Op3(c, hosts).(rv := k); AtLaunch(op, First()) && Live(op) && op.status.jobRef.IsEmpty()
  {
    OpsOnTheWay(c, hosts);
  }

  lemma NotRejected(c: Config, op: Op, hosts: Ref, cl: Cluster, objs: map<Key, Obj>)
    requires c.alnum('i') && !hosts.IsEmpty() && op.spec == Wish(hosts).(entry := EntryRef(c)) && cl.ssh.IsEmpty()
    ensures !Rejected(c, op, cl, objs)
  {
    assert EntryRef(c).name != "";
    RejectedForSecret(c, op, cl, objs);
  }

  lemma StandsStuck(c: Config, s: State, hosts: Ref)
    requires Stands(s, 12, Op3(c, hosts), First(), s.jobs) && JobKey(c, "a") in s.jobs
    requires !hosts.IsEmpty() && hosts.Ns() != c.ns && c.alnum('i')
    ensures StuckAt(c, s, "a")
  {
    OnlyJobLacks(c, hosts, s.ops["a"].rv);
    OpsOnTheWay(c, hosts);
    NotRejected(c, s.ops["a"], hosts, First(), s.objs);
  }

  /** A pass crashed after it had created the Job of an operation whose hosts reference its user gave in
      another namespace. No pass finds this Job, and none can create it again. */
  lemma JobIsNeverAdopted(c: Config, hosts: Ref)
    requires !hosts.IsEmpty() && hosts.Ns() != c.ns && c.alnum('i')
    ensures var s := Run(c, CrashedRun(c, hosts));
      StuckAt(c, s, "a") && JobKey(c, "a") in s.jobs && s.jobs[JobKey(c, "a")].owner == s.ops["a"].uid
  {
    hide CrashedRun, StartsCrashed, Step, Op3;
    OpsOnTheWay(c, hosts);
    CrashedRunStarts(c, hosts);
    CrashedRunLeavesJob(c, CrashedRun(c, hosts), hosts);
    StandsStuck(c, Run(c, CrashedRun(c, hosts)), hosts);
  }

  // Runs in which the pass goes on and records the Job.

  function Recording(c: Config): OpWrite {
    SetJobRef(JobKey(c, "a"), Find(1, 11, 12), First(), 0, 11)
  }

  function Op4(c: Config, hosts: Ref): Op {
    Written(c, "a", Op3(c, hosts), Recording(c))
  }

  lemma CanLaunchNow(c: Config, s: State, hosts: Ref)
    requires Stands(s, 12, Op3(c, hosts), First(), map[JobKey(c, "a") := NewJob(c, hosts)])
    requires c.alnum('i') && !hosts.IsEmpty()
    requires (1, JobKey(c, "a")) in s.hist.makers && 1 in s.hist.begun && s.hist.begun[1] == 11
    requires s.hist.trail[11].jobs == map[] && s.hist.trail[11].clusters == map["x" := First()]
    ensures CanWrite(c, s.hist, "a", Op3(c, hosts), Recording(c))
  {
    OpsOnTheWay(c, hosts);
    assert Op3(c, hosts).status.digest != NoDigest;
    assert JobFound(s.hist, 1, LookKey("a", Op3(c, hosts).spec), JobKey(c, "a"), Find(1, 11, 12));
  }

  lemma JobIsRecorded(c: Config, log: seq<Action>, hosts: Ref)
    requires StartsCrashed(c, log, hosts) && |log| > 12 && log[12] == Pass(1, WriteOp(Recording(c)))
    requires c.alnum('i') && !hosts.IsEmpty()
    ensures var s := Run(c, log[..13]);
      && Stands(s, 13, Op4(c, hosts), First(), map[JobKey(c, "a") := NewJob(c, hosts)])
      && s.objs == map[EntryKey(c, "a") := Obj(TheScript(), [1])]
      && 1 in s.hist.launched && s.hist.launched[1].at == 13
  {
    hide Step;
    OpsOnTheWay(c, hosts);
    CrashedRunLeavesJob(c, log, hosts);
    CanLaunchNow(c, Run(c, log[..12]), hosts);
    Launches(c, log, 12, Op3(c, hosts), First(), map[JobKey(c, "a") := NewJob(c, hosts)], Recording(c));
  }

  lemma RecordedOp(c: Config, hosts: Ref)
    requires !hosts.IsEmpty()
    ensures var op := Op4(c, hosts);
      && Live(op) && op.uid == 1 && op.spec == Wish(hosts).(entry := EntryRef(c))
      && op.status.jobRef == JobKey(c, "a") && op.status.phase == Running && op.owners == [7]
      && op.status.digest == CalSalt(op.spec)
  {
    OpsOnTheWay(c, hosts);
  }

  // Second run: an operation that is Failed although its Job completed.

  function Late(): Cluster {
    TheCluster(Ref("data", "hosts"), Ref("data", "key"))
  }

  function Refusal(): OpWrite {
    MarkFailed(BadRefs(Late(), 15, 15))
  }

  function Op5(c: Config, hosts: Ref): Op {
    Written(c, "a", Op4(c, hosts), Refusal())
  }

  /** The cluster gets an SSH reference without its Secret, and the next pass refuses the operation. The
      Job completes later. */
  function RefusedRun(c: Config, hosts: Ref): seq<Action> {
    CrashedRun(c, hosts) +
    [Pass(1, WriteOp(Recording(c))), Others(PutCluster("x", Late())), Pass(1, Begin), Pass(1, WriteOp(Refusal())),
     Completes(c)]
  }

  predicate GoesOn(c: Config, log: seq<Action>) {
    && |log| == 17 && log[12] == Pass(1, WriteOp(Recording(c))) && log[13] == Others(PutCluster("x", Late()))
    && log[14] == Pass(1, Begin) && log[15] == Pass(1, WriteOp(Refusal())) && log[16] == Completes(c)
  }

  lemma RefusedRunStarts(c: Config, hosts: Ref)
    ensures var log := RefusedRun(c, hosts); StartsCrashed(c, log, hosts) && GoesOn(c, log) && log[..17] == log
  {
    CrashedRunStarts(c, hosts);
  }

  lemma SecretIsMissing(c: Config, hosts: Ref, objs: map<Key, Obj>)
    requires !hosts.IsEmpty() && objs == map[EntryKey(c, "a") := Obj(TheScript(), [1])]
    ensures SecretMissing(Late(), objs, Op4(c, hosts).spec) && !RefsOk(Late(), objs, Op4(c, hosts).spec)
  {
    RecordedOp(c, hosts);
    OnlySecretMissing(Late(), objs, Op4(c, hosts).spec);
  }

  lemma CanRefuseNow(c: Config, s: State, hosts: Ref)
    requires Stands(s, 15, Op4(c, hosts), Late(), s.jobs) && !hosts.IsEmpty()
    requires s.objs == map[EntryKey(c, "a") := Obj(TheScript(), [1])]
    requires 1 in s.hist.launched && s.hist.launched[1].at == 13 && 1 in s.hist.begun && s.hist.begun[1] == 15
    ensures CanWrite(c, s.hist, "a", Op4(c, hosts), Refusal())
  {
    RecordedOp(c, hosts);
    SecretIsMissing(c, hosts, s.objs);
  }

  lemma KeyIsAsked(c: Config, log: seq<Action>, hosts: Ref)
    requires StartsCrashed(c, log, hosts) && GoesOn(c, log) && c.alnum('i') && !hosts.IsEmpty()
    ensures var s := Run(c, log[..15]);
      && Stands(s, 15, Op4(c, hosts), Late(), map[JobKey(c, "a") := NewJob(c, hosts)])
      && s.objs == map[EntryKey(c, "a") := Obj(TheScript(), [1])]
      && 1 in s.hist.launched && s.hist.launched[1].at == 13 && 1 in s.hist.begun && s.hist.begun[1] == 15
  {
    hide Step;
    RecordedOp(c, hosts);
    JobIsRecorded(c, log, hosts);
    ClusterChanges(c, log, 13, Op4(c, hosts), First(), map[JobKey(c, "a") := NewJob(c, hosts)], Late());
    Begins(c, log, 14, Op4(c, hosts), Late(), map[JobKey(c, "a") := NewJob(c, hosts)]);
  }

  lemma OpIsRefused(c: Config, log: seq<Action>, hosts: Ref)
    requires StartsCrashed(c, log, hosts) && GoesOn(c, log) && c.alnum('i') && !hosts.IsEmpty()
    ensures var s := Run(c, log[..16]);
      && Stands(s, 16, Op5(c, hosts), Late(), map[JobKey(c, "a") := NewJob(c, hosts)])
      && s.objs == map[EntryKey(c, "a") := Obj(TheScript(), [1])]
  {
    hide Step;
    RecordedOp(c, hosts);
    KeyIsAsked(c, log, hosts);
    CanRefuseNow(c, Run(c, log[..15]), hosts);
    Writes(c, log, 15, Op4(c, hosts), Late(), map[JobKey(c, "a") := NewJob(c, hosts)], Refusal());
  }

  /** Nobody edited the operation, its recorded Job is there with verdict `phase` and not suspended, and yet
      the operation is Failed: the Secret behind its cluster's reference is missing. */
  ghost predicate FailedUnderJob(s: State, phase: Phase) {
    && "a" in s.ops && s.ops["a"].uid !in s.hist.editedLate && s.ops["a"].status.phase == Failed
    && s.ops["a"].status.jobRef in s.jobs && !s.jobs[s.ops["a"].status.jobRef].suspend
    && JobVerdict(s.jobs[s.ops["a"].status.jobRef].conds) == phase
    && "x" in s.clusters && SecretMissing(s.clusters["x"], s.objs, s.ops["a"].spec)
  }

  lemma StandsFailed(c: Config, s: State, n: nat, hosts: Ref, job: Job)
    requires Stands(s, n, Op5(c, hosts), Late(), map[JobKey(c, "a") := job]) && !hosts.IsEmpty() && !job.suspend
    requires s.objs == map[EntryKey(c, "a") := Obj(TheScript(), [1])]
    ensures FailedUnderJob(s, JobVerdict(job.conds)) && Admits(s.ops, "b", "x")
  {
    RecordedOp(c, hosts);
    SecretIsMissing(c, hosts, s.objs);
  }

  /** The webhook lets another operation into the cluster while the Job of this one is under way. */
  lemma AdmittedBesideJob(c: Config, hosts: Ref)
    requires !hosts.IsEmpty() && c.alnum('i')
    ensures var s := Run(c, RefusedRun(c, hosts)[..16]);
      FailedUnderJob(s, Running) && Admits(s.ops, "b", "x")
  {
    hide Step, RefusedRun, StartsCrashed, Op5;
    RefusedRunStarts(c, hosts);
    OpIsRefused(c, RefusedRun(c, hosts), hosts);
    StandsFailed(c, Run(c, RefusedRun(c, hosts)[..16]), 16, hosts, NewJob(c, hosts));
  }

  /** And it is Failed, for good, although its Job completes. */
  lemma FailedThoughJobCompleted(c: Config, hosts: Ref)
    requires !hosts.IsEmpty() && c.alnum('i')
    ensures FailedUnderJob(Run(c, RefusedRun(c, hosts)), Succeeded)
  {
    hide Step, RefusedRun, StartsCrashed, Op5;
    var log := RefusedRun(c, hosts);
    RefusedRunStarts(c, hosts);
    OpIsRefused(c, log, hosts);
    JobCompletes(c, log, 16, Op5(c, hosts), Late(), hosts);
    StandsFailed(c, Run(c, log), 17, hosts, Done(c, hosts));
  }

  // Third run: a verdict that is never stored.

  function Stripped(): Cluster {
    TheCluster(Nil, Nil)
  }

  /** The cluster loses its hosts reference while the Job is under way. */
  function StrippedRun(c: Config, hosts: Ref): seq<Action> {
    CrashedRun(c, hosts) + [Pass(1, WriteOp(Recording(c))), Others(PutCluster("x", Stripped())), Completes(c)]
  }

  lemma StrippedRunStarts(c: Config, hosts: Ref)
    ensures var log := StrippedRun(c, hosts);
      && StartsCrashed(c, log, hosts) && |log| == 15 && log[12] == Pass(1, WriteOp(Recording(c)))
      && log[13] == Others(PutCluster("x", Stripped())) && log[14] == Completes(c) && log[..15] == log
  {
    CrashedRunStarts(c, hosts);
  }

  lemma NothingLacks(c: Config, hosts: Ref, k: nat)
    requires !hosts.IsEmpty()
    ensures AllDone(Op4(c, hosts).(rv := k), Stripped()) && Emptied(Op4(c, hosts).(rv := k), Stripped())
  {
    RecordedOp(c, hosts);
    assert EntryRef(c).name != "";
  }

  lemma StandsStripped(c: Config, s: State, hosts: Ref)
    requires Stands(s, 15, Op4(c, hosts), Stripped(), map[JobKey(c, "a") := Done(c, hosts)])
    requires !hosts.IsEmpty() && c.alnum('i')
    ensures StuckAt(c, s, "a")
  {
    RecordedOp(c, hosts);
    NothingLacks(c, hosts, s.ops["a"].rv);
    NotRejected(c, s.ops["a"], hosts, Stripped(), s.objs);
  }

  /** The Job completed, all stages of the operation are done, and no pass stores the verdict. */
  lemma VerdictIsNeverStored(c: Config, hosts: Ref)
    requires !hosts.IsEmpty() && c.alnum('i')
    ensures StuckAt(c, Run(c, StrippedRun(c, hosts)), "a")
    ensures var s := Run(c, StrippedRun(c, hosts));
      && "x" in s.clusters && AllDone(s.ops["a"], s.clusters["x"]) && !HasData(s.clusters["x"])
      && s.ops["a"].status.jobRef in s.jobs && JobVerdict(s.jobs[s.ops["a"].status.jobRef].conds) == Succeeded
  {
    hide Step, StrippedRun, StartsCrashed, Op4;
    var log := StrippedRun(c, hosts);
    StrippedRunStarts(c, hosts);
    RecordedOp(c, hosts);
    JobIsRecorded(c, log, hosts);
    ClusterChanges(c, log, 13, Op4(c, hosts), First(), map[JobKey(c, "a") := NewJob(c, hosts)], Stripped());
    JobCompletes(c, log, 14, Op4(c, hosts), Stripped(), hosts);
    StandsStripped(c, Run(c, log), hosts);
    NothingLacks(c, hosts, Run(c, log).ops["a"].rv);
  }

  // Fourth run: an operation that is Succeeded on account of another one's Job.

  function Second0(hosts: Ref): Op {
    NewOp(2, 0, map[], map[], Wish(hosts).(entry := Ref("data", "entry")))
  }

  function Second1(c: Config, hosts: Ref): Op {
    Written(c, "a", Second0(hosts), OwnByCluster(First(), 15))
  }

  function Second2(c: Config, hosts: Ref): Op {
    Written(c, "a", Second1(c, hosts), TakeDigest)
  }

  function Adopting(c: Config): OpWrite {
    SetJobRef(JobKey(c, "a"), Find(1, 19, 19), First(), 0, 19)
  }

  function Second3(c: Config, hosts: Ref): Op {
    Written(c, "a", Second2(c, hosts), Adopting(c))
  }

  function Ending(): OpWrite {
    Finish(Some([Cond(Complete, true)]), 0, 22)
  }

  function Second4(c: Config, hosts: Ref): Op {
    Written(c, "a", Second3(c, hosts), Ending())
  }

  /** The operation is deleted after the crash, and another one of its name finds the Job it left. */
  function ReusedRun(c: Config, hosts: Ref): seq<Action> {
    CrashedRun(c, hosts) +
    [Others(DeleteOp("a")), Others(CreateOp("a", 2, map[], map[], Second0(hosts).spec)),
     Pass(2, Begin), Pass(2, WriteOp(OwnByCluster(First(), 15))), Pass(2, Begin), Pass(2, WriteOp(TakeDigest)),
     Pass(2, Begin), Pass(2, WriteOp(Adopting(c))), Completes(c), Pass(2, Begin), Pass(2, WriteOp(Ending()))]
  }

  predicate GoesOnReused(c: Config, log: seq<Action>, hosts: Ref) {
    && |log| == 23 && log[12] == Others(DeleteOp("a"))
    && log[13] == Others(CreateOp("a", 2, map[], map[], Second0(hosts).spec))
    && log[14] == Pass(2, Begin) && log[15] == Pass(2, WriteOp(OwnByCluster(First(), 15)))
    && log[16] == Pass(2, Begin) && log[17] == Pass(2, WriteOp(TakeDigest))
    && log[18] == Pass(2, Begin) && log[19] == Pass(2, WriteOp(Adopting(c))) && log[20] == Completes(c)
    && log[21] == Pass(2, Begin) && log[22] == Pass(2, WriteOp(Ending()))
  }

  lemma ReusedRunStarts(c: Config, hosts: Ref)
    ensures var log := ReusedRun(c, hosts);
      StartsCrashed(c, log, hosts) && GoesOnReused(c, log, hosts) && log[..23] == log
  {
    CrashedRunStarts(c, hosts);
  }

  lemma SecondOps(c: Config, hosts: Ref)
    requires !hosts.IsEmpty()
    ensures Live(Second0(hosts)) && Second0(hosts).owners == [] && Second0(hosts).spec.cluster == "x"
    ensures Live(Second1(c, hosts)) && Second1(c, hosts).status.digest == NoDigest && Second1(c, hosts).uid == 2
    ensures var op := Second2(c, hosts);
      && Live(op) && op.uid == 2 && op.spec == Second0(hosts).spec
      && op.status.jobRef.IsEmpty() && op.status.digest != NoDigest
    ensures var op := Second3(c, hosts); Live(op) && op.uid == 2 && op.status.jobRef == JobKey(c, "a")
    ensures var op := Second4(c, hosts);
      op.uid == 2 && op.status.jobRef == JobKey(c, "a") && op.status.phase == Succeeded
  {
  }

  lemma OpIsReplaced(c: Config, log: seq<Action>, n: nat, op: Op, hosts: Ref, jobs: map<Ref, Job>)
    requires n + 1 < |log| && Stands(Run(c, log[..n]), n, op, First(), jobs) && op.uid == 1
    requires log[n] == Others(DeleteOp("a"))
    requires log[n + 1] == Others(CreateOp("a", 2, map[], map[], Second0(hosts).spec))
    ensures Stands(Run(c, log[..n + 2]), n + 2, Second0(hosts), First(), jobs)
  {
    Next(c, log, n);
    Next(c, log, n + 1);
    var s := Run(c, log[..n]);
    DeleteStands(c, s, n, op, jobs);
    CreateStands(c, Step(c, s, log[n]), n + 1, hosts, jobs);
  }

  lemma DeleteStands(c: Config, s: State, n: nat, op: Op, jobs: map<Ref, Job>)
    requires Stands(s, n, op, First(), jobs) && op.uid == 1
    ensures var s' := Step(c, s, Others(DeleteOp("a"))); s'.ops == map[] && Bare(s', n + 1, 1, First(), jobs)
  {
    assert Enabled(c, s, Others(DeleteOp("a")));
  }

  lemma CreateStands(c: Config, s: State, n: nat, hosts: Ref, jobs: map<Ref, Job>)
    requires s.ops == map[] && Bare(s, n, 1, First(), jobs)
    ensures Stands(Step(c, s, Others(CreateOp("a", 2, map[], map[], Second0(hosts).spec))), n + 1,
                   Second0(hosts), First(), jobs)
  {
    assert Enabled(c, s, Others(CreateOp("a", 2, map[], map[], Second0(hosts).spec)));
  }

  lemma SecondDigest(c: Config, log: seq<Action>, hosts: Ref)
    requires StartsCrashed(c, log, hosts) && GoesOnReused(c, log, hosts) && !hosts.IsEmpty()
    ensures Stands(Run(c, log[..18]), 18, Second2(c, hosts), First(), map[JobKey(c, "a") := NewJob(c, hosts)])
  {
    hide Step;
    OpsOnTheWay(c, hosts);
    SecondOps(c, hosts);
    CrashedRunLeavesJob(c, log, hosts);
    OpIsReplaced(c, log, 12, Op3(c, hosts), hosts, map[JobKey(c, "a") := NewJob(c, hosts)]);
    OwnerAdded(c, log, 14, Second0(hosts), map[JobKey(c, "a") := NewJob(c, hosts)]);
    DigestTaken(c, log, 16, Second1(c, hosts), map[JobKey(c, "a") := NewJob(c, hosts)]);
  }

  lemma CanAdopt(c: Config, s: State, hosts: Ref)
    requires Stands(s, 19, Second2(c, hosts), First(), map[JobKey(c, "a") := NewJob(c, hosts)])
    requires (1, JobKey(c, "a")) in s.hist.makers && 2 in s.hist.begun && s.hist.begun[2] == 19
    requires !hosts.IsEmpty() && hosts.Ns() == c.ns && c.alnum('i')
    ensures CanWrite(c, s.hist, "a", Second2(c, hosts), Adopting(c))
  {
    SecondOps(c, hosts);
    assert JobFound(s.hist, 2, LookKey("a", Second2(c, hosts).spec), JobKey(c, "a"), Find(1, 19, 19));
  }

  lemma SecondLaunch(c: Config, log: seq<Action>, hosts: Ref)
    requires StartsCrashed(c, log, hosts) && GoesOnReused(c, log, hosts)
    requires !hosts.IsEmpty() && hosts.Ns() == c.ns && c.alnum('i')
    ensures var s := Run(c, log[..20]);
      && Stands(s, 20, Second3(c, hosts), First(), map[JobKey(c, "a") := NewJob(c, hosts)])
      && 2 in s.hist.launched && s.hist.launched[2].at == 20
  {
    hide Step;
    SecondOps(c, hosts);
    SecondDigest(c, log, hosts);
    Begins(c, log, 18, Second2(c, hosts), First(), map[JobKey(c, "a") := NewJob(c, hosts)]);
    RunKeepsInv(c, log[..19]);
    CanAdopt(c, Run(c, log[..19]), hosts);
    Launches(c, log, 19, Second2(c, hosts), First(), map[JobKey(c, "a") := NewJob(c, hosts)], Adopting(c));
  }

  lemma CanEnd(c: Config, s: State, hosts: Ref)
    requires Stands(s, 22, Second3(c, hosts), First(), map[JobKey(c, "a") := Done(c, hosts)]) && !hosts.IsEmpty()
    requires 2 in s.hist.launched && s.hist.launched[2].at == 20 && 2 in s.hist.begun && s.hist.begun[2] == 22
    ensures CanWrite(c, s.hist, "a", Second3(c, hosts), Ending())
  {
    SecondOps(c, hosts);
  }

  lemma SecondEnd(c: Config, log: seq<Action>, hosts: Ref)
    requires StartsCrashed(c, log, hosts) && GoesOnReused(c, log, hosts)
    requires !hosts.IsEmpty() && hosts.Ns() == c.ns && c.alnum('i')
    ensures Stands(Run(c, log[..23]), 23, Second4(c, hosts), First(), map[JobKey(c, "a") := Done(c, hosts)])
  {
    hide Step;
    SecondOps(c, hosts);
    SecondLaunch(c, log, hosts);
    JobCompletes(c, log, 20, Second3(c, hosts), First(), hosts);
    Begins(c, log, 21, Second3(c, hosts), First(), map[JobKey(c, "a") := Done(c, hosts)]);
    CanEnd(c, Run(c, log[..22]), hosts);
    Writes(c, log, 22, Second3(c, hosts), First(), map[JobKey(c, "a") := Done(c, hosts)], Ending());
  }

  /** A name was used again before the Job of the deleted operation was gone: the new operation is
      Succeeded, and no Job was ever created for it. */
  lemma SucceededByAnothersJob(c: Config, hosts: Ref)
    requires !hosts.IsEmpty() && hosts.Ns() == c.ns && c.alnum('i')
    ensures var s := Run(c, ReusedRun(c, hosts));
      && "a" in s.ops && s.ops["a"].uid == 2 && s.ops["a"].status.phase == Succeeded
      && s.ops["a"].status.jobRef in s.jobs && s.jobs[s.ops["a"].status.jobRef].owner == 1
      && forall k :: (2, k) !in s.hist.makers
  {
    hide Step;
    ReusedRunStarts(c, hosts);
    SecondOps(c, hosts);
    SecondEnd(c, ReusedRun(c, hosts), hosts);
  }
}
