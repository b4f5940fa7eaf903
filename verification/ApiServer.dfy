/** The API server as the operator meets it. Every call may fail, and between any two calls others
    may act: users, the Job controller, and passes for other operations. */
module ApiServer {
  import opened Objects
  import opened ControlPlane
  import opened Invariants
  import EntryPoint
  import JobVolumes

  datatype Got<+T> = Found(value: T) | Missing | Broken

  datatype Put = Done | AlreadyExists | Refused

  /** What the pass for operation `o` of UID `u` may rely on while others act. */
  ghost predicate Rely(o: string, u: nat, s: State, s': State) {
    && s.rev <= s'.rev
    && Sync(u, s, s')
    && (o in s'.ops && s'.ops[o].rv <= s.rev ==> o in s.ops && s'.ops[o] == s.ops[o])
  }

  /** The history grows, and nobody records a Job or begins a pass for UID `u`. */
  ghost predicate Sync(u: nat, s: State, s': State) {
    SyncHistory(u, s.hist, s'.hist)
  }

  ghost predicate SyncHistory(u: nat, h: History, h': History) {
    && HistGrows(h, h')
    && (u in h.launched <==> u in h'.launched) && (u in h.launched ==> h'.launched[u] == h.launched[u])
    && (u in h.begun <==> u in h'.begun) && (u in h.begun ==> h'.begun[u] == h.begun[u])
    && (u in h.read <==> u in h'.read) && (u in h.read ==> h'.read[u] == h.read[u])
  }

  ghost predicate HistGrows(h: History, h': History) {
    && (forall u | u in h.names :: u in h'.names && h'.names[u] == h.names[u])
    && h.trail <= h'.trail && h.makers <= h'.makers && h.copyPast <= h'.copyPast
  }

  /** What the present pass for UID `u` has read stays read. */
  ghost predicate Later(u: nat, s: State, s': State) {
    && s.hist.trail <= s'.hist.trail
    && (u in s.hist.begun ==> u in s'.hist.begun && s'.hist.begun[u] == s.hist.begun[u])
  }

  /** Object `key` was the same in all worlds from place `i` on. */
  predicate ObjKept(trail: seq<World>, key: Key, obj: Obj, i: nat) {
    i < |trail| && forall k | i <= k < |trail| :: key in trail[k].objs && trail[k].objs[key] == obj
  }

  predicate JobKept(trail: seq<World>, key: Ref, job: Job, i: nat) {
    i < |trail| && forall k | i <= k < |trail| :: key in trail[k].jobs && trail[k].jobs[key] == job
  }

  lemma HistoryGrows(c: Config, s: State, a: Action)
    ensures HistGrows(s.hist, Step(c, s, a).hist)
  {
    if Enabled(c, s, a) {
      forall u | u in s.hist.names
        ensures u in Step(c, s, a).hist.names && Step(c, s, a).hist.names[u] == s.hist.names[u]
      {
        NewUid(c, s, a, u);
      }
    }
  }

  lemma OthersKeepRely(c: Config, s: State, a: Action, o: string, u: nat)
    requires Named(s) && u in s.hist.names && s.hist.names[u] == o
    requires !(a.Operator? && a.o == o)
    ensures Rely(o, u, s, Step(c, s, a))
  {
    HistoryGrows(c, s, a);
    if Enabled(c, s, a) {
      if a.Operator? {
        OperatorKnows(c, s, a);
      }
      if o in OpsAfter(c, s, a) {
        match ChangeOf(a, o)
        case Same => ChangeSame(c, s, a, o);
        case Wrote => ChangeWrote(c, s, a, o);
        case Created => ChangeCreated(c, s, a, o);
        case Edited => ChangeEdited(c, s, a, o);
      }
    }
  }

  lemma ReachedInv(c: Config, log: seq<Action>, states: seq<State>)
    requires IsRun(c, log, states)
    ensures Inv(c, states[|log|])
  {
    RunStates(c, log, states);
    RunKeepsInv(c, log);
  }

  /** The trail ends with the present. */
  lemma ReachedTrail(c: Config, log: seq<Action>, states: seq<State>)
    requires IsRun(c, log, states)
    ensures var s := states[|log|]; |s.hist.trail| > 0 && s.hist.trail[|s.hist.trail| - 1] == WorldOf(s)
  {
    ReachedInv(c, log, states);
  }

  lemma ReachedJob(c: Config, log: seq<Action>, states: seq<State>, job: Ref)
    requires IsRun(c, log, states)
    ensures var s := states[|log|]; job in s.jobs ==> (s.jobs[job].owner, job) in s.hist.makers && job.Ns() == c.ns
  {
    ReachedInv(c, log, states);
  }

  lemma KeptObj(trail: seq<World>, more: seq<World>, key: Key, obj: Obj, i: nat)
    requires trail <= more && i < |trail|
    ensures ObjKept(more, key, obj, i) ==> ObjKept(trail, key, obj, i)
    ensures ObjKept(trail, key, obj, i) ==> key in trail[|trail| - 1].objs && trail[|trail| - 1].objs[key] == obj
  {
    assert forall k | i <= k < |trail| :: more[k] == trail[k];
  }

  lemma KeptJob(trail: seq<World>, more: seq<World>, key: Ref, job: Job, i: nat)
    requires trail <= more && i < |trail|
    ensures JobKept(more, key, job, i) ==> JobKept(trail, key, job, i)
    ensures JobKept(trail, key, job, i) ==> key in trail[|trail| - 1].jobs && trail[|trail| - 1].jobs[key] == job
  {
    assert forall k | i <= k < |trail| :: more[k] == trail[k];
  }

  // What the steps of the operator do, as records.

  /** The trail is one world longer, and no pass began. */
  ghost predicate OneOn(h: History, s': State) {
    s'.hist.trail == h.trail + [WorldOf(s')] && s'.hist.begun == h.begun && s'.hist.read == h.read
  }

  lemma StepBegins(c: Config, s: State, o: string, u: nat)
    requires u in s.hist.names && s.hist.names[u] == o && o in s.ops && s.ops[o].uid == u && Live(s.ops[o])
    ensures var s' := Step(c, s, Operator(o, u, Begin));
      && s' == s.(hist := s'.hist) && HistGrows(s.hist, s'.hist)
      && s'.hist.launched == s.hist.launched && s'.hist.trail == s.hist.trail + [WorldOf(s')]
      && u in s'.hist.begun && s'.hist.begun[u] == |s.hist.trail| && HasRead(s'.hist, u, s.ops[o].spec)
  {
    HistoryGrows(c, s, Operator(o, u, Begin));
  }

  lemma StepWrites(c: Config, s: State, o: string, u: nat, w: OpWrite)
    requires u in s.hist.names && s.hist.names[u] == o
    requires o in s.ops && s.ops[o].uid == u && CanWrite(c, s.hist, o, s.ops[o], w)
    ensures var s' := Step(c, s, Operator(o, u, WriteOp(w)));
      && s' == s.(ops := s.ops[o := Written(c, o, s.ops[o], w).(rv := s.rev + 1)], rev := s.rev + 1, hist := s'.hist)
      && HistGrows(s.hist, s'.hist) && OneOn(s.hist, s')
      && (!w.SetJobRef? ==> s'.hist.launched == s.hist.launched)
  {
    HistoryGrows(c, s, Operator(o, u, WriteOp(w)));
  }

  lemma StepPutsObj(c: Config, s: State, a: Action)
    requires Enabled(c, s, a) && a.Operator? && (a.ctl.CopyData? || a.ctl.PutEntry? || a.ctl.Inject? || a.ctl.AddOwner?)
    ensures NewObj(c, s, a).Some?
    ensures var (key, obj) := NewObj(c, s, a).value; var s' := Step(c, s, a);
      && s' == s.(objs := s.objs[key := obj], hist := s'.hist)
      && HistGrows(s.hist, s'.hist) && OneOn(s.hist, s')
      && s'.hist.launched == s.hist.launched
      && (a.ctl.CopyData? ==> (CopyKey(c, a.ctl.copy), a.ctl.copy) in s'.hist.copyPast)
  {
    HistoryGrows(c, s, a);
  }

  lemma StepCreatesJob(c: Config, s: State, o: string, u: nat, spec: Spec, t: Template)
    requires CtlEnabled(c, s, o, u, CreateJob(spec, t))
    ensures var s' := Step(c, s, Operator(o, u, CreateJob(spec, t)));
      && s' == s.(jobs := s.jobs[JobKey(c, o) := Job(u, false, [], None, t)], hist := s'.hist)
      && HistGrows(s.hist, s'.hist) && OneOn(s.hist, s')
      && s'.hist.launched == s.hist.launched
      && (u, JobKey(c, o)) in s'.hist.makers
  {
    HistoryGrows(c, s, Operator(o, u, CreateJob(spec, t)));
  }

  lemma StepSuspends(c: Config, s: State, o: string, u: nat, job: Ref)
    requires u in s.hist.names && s.hist.names[u] == o
    requires job in s.jobs && u in s.hist.launched && s.hist.launched[u].key == job
    ensures var s' := Step(c, s, Operator(o, u, Suspend(job)));
      && s' == s.(jobs := s.jobs[job := s.jobs[job].(suspend := true)], hist := s'.hist)
      && HistGrows(s.hist, s'.hist) && OneOn(s.hist, s')
      && s'.hist.launched == s.hist.launched
  {
    HistoryGrows(c, s, Operator(o, u, Suspend(job)));
  }

  /** The operation in the operator's memory, which passes change field by field. */
  class ClusterOp {
    const name: string
    const uid: nat
    const created: int
    var rv: nat
    var labels: map<string, string>
    var annotations: map<string, string>
    var owners: seq<nat>
    var spec: Spec
    var status: Status
    ghost var base: Op  // as the server gave it last

    constructor (name: string, op: Op)
      ensures this.name == name && uid == op.uid && created == op.created
      ensures Loaded(op)
    {
      this.name, uid, created := name, op.uid, op.created;
      rv, labels, annotations, owners, spec, status := op.rv, op.labels, op.annotations, op.owners, op.spec, op.status;
      base := op;
    }

    /** The memory holds exactly what the server gave. */
    ghost predicate Loaded(op: Op)
      reads this
    {
      && base == op && op.uid == uid && op.created == created
      && rv == op.rv && labels == op.labels && annotations == op.annotations && owners == op.owners
      && spec == op.spec && status == op.status
    }

    method Load(op: Op)
      requires op.uid == uid && op.created == created
      modifies this
      ensures Loaded(op)
    {
      rv, labels, annotations, owners, spec, status := op.rv, op.labels, op.annotations, op.owners, op.spec, op.status;
      base := op;
    }
  }

  class Server {
    const c: Config
    const quiet: bool     // nobody else acts
    const reliable: bool  // no call fails without a reason
    var st: State
    ghost var log: seq<Action>
    ghost var states: seq<State>

    constructor (c: Config, quiet: bool, reliable: bool)
      ensures Valid() && this.c == c && this.quiet == quiet && this.reliable == reliable
      ensures st == Initial()
    {
      this.c, this.quiet, this.reliable := c, quiet, reliable;
      st := Initial();
      log, states := [], [Initial()];
    }

    /** The store is the result of a run of the step system. */
    ghost predicate Valid()
      reads this
    {
      IsRun(c, log, states) && st == states[|log|]
    }

    /** The pass that holds `obj` works on an operation that the server knows or knew; as long as
        the revision is current, the server still has what `obj` was loaded with. */
    ghost predicate Tracks(obj: ClusterOp)
      reads this, obj
    {
      && obj.uid in st.hist.names && st.hist.names[obj.uid] == obj.name
      && obj.base.uid == obj.uid && obj.base.created == obj.created && obj.base.rv == obj.rv <= st.rev
      && (obj.name in st.ops && st.ops[obj.name].rv == obj.rv ==> st.ops[obj.name] == obj.base)
    }

    ghost predicate Current(obj: ClusterOp)
      reads this, obj
    {
      obj.name in st.ops && st.ops[obj.name] == obj.base
    }

    /** The pass works on an operation that was not finished when it was read, and it knows whether
        a Job is recorded for it. */
    ghost predicate Knows(obj: ClusterOp)
      reads this, obj
    {
      && Valid() && Tracks(obj) && Live(obj.base)
      && (!obj.base.status.jobRef.IsEmpty() <==> obj.uid in st.hist.launched)
      && (obj.uid in st.hist.launched ==> st.hist.launched[obj.uid].key == obj.base.status.jobRef)
      && obj.uid in st.hist.begun && st.hist.begun[obj.uid] < |st.hist.trail|
      && (obj.uid in st.hist.launched ==> BegunLaunched(st.hist, obj.uid))
      && HasRead(st.hist, obj.uid, obj.base.spec)
    }

    /** The place of the present in the trail. */
    function Now(): nat
      reads this
    {
      if st.hist.trail == [] then 0 else |st.hist.trail| - 1
    }

    lemma TrailEnds()
      requires Valid()
      ensures st.hist.trail != [] && st.hist.trail[Now()] == WorldOf(st)
    {
      ReachedTrail(c, log, states);
    }

    method Perform(a: Action)
      requires Valid()
      modifies this
      ensures Valid() && old(log) <= log
      ensures st == Step(c, old(st), a)
    {
      RunGoesOn(c, log, states, a);
      st := Step(c, st, a);
      log := log + [a];
      states := states + [st];
    }

    /** Any number of steps of others. */
    method Interfere(o: string, u: nat)
      requires Valid() && u in st.hist.names && st.hist.names[u] == o
      modifies this
      ensures Valid() && old(log) <= log
      ensures Rely(o, u, old(st), st)
      ensures quiet ==> st == old(st) && log == old(log)
    {
      if quiet {
        return;
      }
      var n: nat := *;
      while n > 0
        invariant Valid() && old(log) <= log
        invariant Rely(o, u, old(st), st)
      {
        var a: Action := *;
        if !(a.Operator? && a.o == o) {
          InterfereOnce(o, u, a);
        }
        n := n - 1;
      }
    }

    method InterfereOnce(o: string, u: nat, a: Action)
      requires Valid() && u in st.hist.names && st.hist.names[u] == o
      requires !(a.Operator? && a.o == o)
      modifies this
      ensures Valid() && old(log) <= log
      ensures Rely(o, u, old(st), st)
    {
      ReachedInv(c, log, states);
      OthersKeepRely(c, st, a, o, u);
      Perform(a);
    }

    // Calls on ClusterOperations.

    method GetOp(name: string) returns (r: Got<Op>)
      requires Valid()
      ensures r.Found? ==> name in st.ops && r.value == st.ops[name]
      ensures r.Found? ==> Named(st) && GoodOp(c, st.hist, r.value)
      ensures r.Missing? ==> name !in st.ops
      ensures reliable ==> !r.Broken?
    {
      ReachedInv(c, log, states);
      var broken: bool := *;
      if broken && !reliable {
        return Broken;
      }
      return if name in st.ops then Found(st.ops[name]) else Missing;
    }

    /** A pass begins with the operation as it was read. */
    method BeginPass(name: string, op: Op) returns (obj: ClusterOp)
      requires Valid() && name in st.ops && st.ops[name] == op && Live(op)
      modifies this
      ensures fresh(obj) && obj.name == name && obj.uid == op.uid && obj.Loaded(op)
      ensures Knows(obj) && Current(obj) && old(log) <= log
      ensures st == old(st).(hist := st.hist)
    {
      hide Step;
      ReachedInv(c, log, states);
      assert GoodOp(c, st.hist, op) && Registered(st.hist.names, st.rev, name, op);
      StepBegins(c, st, name, op.uid);
      Perform(Operator(name, op.uid, Begin));
      obj := new ClusterOp(name, op);
    }

    method StoreOp(obj: ClusterOp, w: OpWrite)
      requires Valid() && Tracks(obj) && Current(obj) && CanWrite(c, st.hist, obj.name, obj.base, w)
      modifies this, obj
      ensures Valid() && old(log) <= log && Later(obj.uid, old(st), st)
      ensures !w.SetJobRef? ==> st.hist.launched == old(st).hist.launched
      ensures Tracks(obj) && Current(obj) && obj.Loaded(obj.base)
      ensures obj.base == Written(c, obj.name, old(obj.base), w).(rv := st.rev)
      ensures st == old(st).(ops := old(st).ops[obj.name := obj.base], rev := st.rev, hist := st.hist)
    {
      StepWrites(c, st, obj.name, obj.uid, w);
      WrittenIdentity(c, obj.name, obj.base, w);
      Perform(Operator(obj.name, obj.uid, WriteOp(w)));
      obj.Load(st.ops[obj.name]);
    }

    /** An update of `obj` with optimistic locking: it is refused unless the revision is current. */
    method Commit(obj: ClusterOp, w: OpWrite) returns (ok: bool)
      requires Valid() && Tracks(obj) && CanWrite(c, st.hist, obj.name, obj.base, w)
      modifies this, obj
      ensures Valid() && old(log) <= log && Later(obj.uid, old(st), st)
      ensures ok ==> Tracks(obj) && Current(obj) && obj.Loaded(obj.base)
      ensures ok ==> obj.base == Written(c, obj.name, old(obj.base), w).(rv := st.rev)
      ensures quiet && reliable && old(Current(obj)) ==> ok
      ensures quiet ==> st == if ok
        then old(st).(ops := old(st).ops[obj.name := obj.base], rev := st.rev, hist := st.hist) else old(st)
    {
      ghost var before := st.hist;
      Interfere(obj.name, obj.uid);
      CanWriteLater(c, before, st.hist, obj.name, obj.base, w);
      var broken: bool := *;
      if (broken && !reliable) || obj.name !in st.ops || st.ops[obj.name].rv != obj.rv {
        return false;
      }
      StoreOp(obj, w);
      return true;
    }

    /** `Client.Update`: spec and metadata of the memory are stored, the status is not. */
    method Update(obj: ClusterOp, w: OpWrite) returns (ok: bool)
      requires Valid() && Tracks(obj) && CanWrite(c, st.hist, obj.name, obj.base, w)
      requires !IsStatusWrite(w)
      requires var op := Written(c, obj.name, obj.base, w);
        obj.spec == op.spec && obj.labels == op.labels && obj.annotations == op.annotations && obj.owners == op.owners
      modifies this, obj
      ensures Valid() && old(log) <= log && Later(obj.uid, old(st), st)
      ensures ok ==> Tracks(obj) && Current(obj) && obj.Loaded(obj.base)
      ensures ok ==> obj.base == Written(c, obj.name, old(obj.base), w).(rv := st.rev)
      ensures quiet && reliable && old(Current(obj)) ==> ok
      ensures quiet ==> st == if ok
        then old(st).(ops := old(st).ops[obj.name := obj.base], rev := st.rev, hist := st.hist) else old(st)
    {
      ok := Commit(obj, w);
    }

    /** `Client.Status().Update`: the status of the memory is stored, spec and metadata are not. */
    method StatusUpdate(obj: ClusterOp, w: OpWrite) returns (ok: bool)
      requires Valid() && Tracks(obj) && CanWrite(c, st.hist, obj.name, obj.base, w)
      requires IsStatusWrite(w)
      requires obj.status == Written(c, obj.name, obj.base, w).status
      modifies this, obj
      ensures Valid() && old(log) <= log && Later(obj.uid, old(st), st)
      ensures ok ==> Tracks(obj) && Current(obj) && obj.Loaded(obj.base)
      ensures ok ==> obj.base == Written(c, obj.name, old(obj.base), w).(rv := st.rev)
      ensures quiet && reliable && old(Current(obj)) ==> ok
      ensures quiet ==> st == if ok
        then old(st).(ops := old(st).ops[obj.name := obj.base], rev := st.rev, hist := st.hist) else old(st)
    {
      ok := Commit(obj, w);
    }

    // Reads.

    method GetCluster(obj: ClusterOp, name: string) returns (r: Got<Cluster>)
      requires Knows(obj)
      modifies this
      ensures Knows(obj) && old(log) <= log && Later(obj.uid, old(st), st)
      ensures quiet ==> st == old(st) && log == old(log)
      ensures r.Found? ==> name in st.clusters && r.value == st.clusters[name]
      ensures r.Found? ==> ClusterSeen(st.hist, obj.uid, name, r.value, Now())
      ensures reliable ==> (r.Found? <==> name in st.clusters)
    {
      Interfere(obj.name, obj.uid);
      ReachedTrail(c, log, states);
      var broken: bool := *;
      if broken && !reliable {
        return Broken;
      }
      return if name in st.clusters then Found(st.clusters[name]) else Missing;
    }

    method GetObj(obj: ClusterOp, key: Key) returns (r: Got<Obj>)
      requires Knows(obj)
      modifies this
      ensures Knows(obj) && old(log) <= log && Later(obj.uid, old(st), st)
      ensures quiet ==> st == old(st) && log == old(log)
      ensures r.Found? ==> key in st.objs && r.value == st.objs[key]
      ensures r.Found? ==>
        ObjSeen(st.hist, obj.uid, key, r.value.data, Now()) && ObjKept(st.hist.trail, key, r.value, Now())
      ensures r.Missing? ==> key !in st.objs
      ensures reliable ==> !r.Broken?
    {
      Interfere(obj.name, obj.uid);
      ReachedTrail(c, log, states);
      var broken: bool := *;
      if broken && !reliable {
        return Broken;
      }
      return if key in st.objs then Found(st.objs[key]) else Missing;
    }

    method GetJob(obj: ClusterOp, job: Ref) returns (r: Got<Job>)
      requires Knows(obj)
      modifies this
      ensures Knows(obj) && old(log) <= log && Later(obj.uid, old(st), st)
      ensures quiet ==> st == old(st) && log == old(log)
      ensures r.Found? ==> job in st.jobs && r.value == st.jobs[job]
      ensures !r.Broken? ==> JobSeen(st.hist, obj.uid, job, SeenOf(st.jobs, job), Now())
      ensures r.Found? ==> (r.value.owner, job) in st.hist.makers && job.Ns() == c.ns
      ensures r.Found? ==> JobKept(st.hist.trail, job, r.value, Now())
      ensures r.Missing? ==> job !in st.jobs
      ensures reliable ==> !r.Broken?
    {
      Interfere(obj.name, obj.uid);
      ReachedTrail(c, log, states);
      ReachedJob(c, log, states, job);
      var broken: bool := *;
      if broken && !reliable {
        return Broken;
      }
      return if job in st.jobs then Found(st.jobs[job]) else Missing;
    }

    /** The name of a running pod of a Job, if there is one; pods are not in the store. */
    method RunningPod(obj: ClusterOp) returns (pod: Option<string>)
      requires Knows(obj)
      modifies this
      ensures Knows(obj) && old(log) <= log && Later(obj.uid, old(st), st)
      ensures quiet ==> st == old(st) && log == old(log)
    {
      Interfere(obj.name, obj.uid);
      pod := *;
    }

    method ListAccounts(obj: ClusterOp) returns (r: Got<seq<string>>)
      requires Knows(obj)
      modifies this
      ensures Knows(obj) && old(log) <= log && Later(obj.uid, old(st), st)
      ensures quiet ==> st == old(st) && log == old(log)
      ensures reliable ==> r == Found(st.accounts)
    {
      Interfere(obj.name, obj.uid);
      var broken: bool := *;
      if broken && !reliable {
        return Broken;
      }
      return Found(st.accounts);
    }

    // Writes to ConfigMaps, Secrets and Jobs.

    method StoreObj(obj: ClusterOp, ctl: Ctl)
      requires Knows(obj) && Creates(st.hist, obj.uid, ctl)
      requires ctl.PutEntry? || ObjectOf(c, obj.name, obj.uid, ctl).0 !in st.objs
      modifies this
      ensures Knows(obj) && old(log) <= log && Later(obj.uid, old(st), st)
      ensures var (key, item) := ObjectOf(c, obj.name, obj.uid, ctl);
        && st == old(st).(objs := old(st).objs[key := item], hist := st.hist)
        && ObjSeen(st.hist, obj.uid, key, item.data, Now()) && (ctl.CopyData? ==> (key, ctl.copy) in st.hist.copyPast)
    {
      hide Step;
      StepPutsObj(c, st, Operator(obj.name, obj.uid, ctl));
      Perform(Operator(obj.name, obj.uid, ctl));
    }

    method TryStore(obj: ClusterOp, ctl: Ctl) returns (r: Put)
      requires Knows(obj) && Creates(st.hist, obj.uid, ctl)
      modifies this
      ensures Knows(obj) && old(log) <= log && Later(obj.uid, old(st), st)
      ensures reliable ==> r != Refused
      ensures var (key, item) := ObjectOf(c, obj.name, obj.uid, ctl);
        && (r == Done ==> ObjSeen(st.hist, obj.uid, key, item.data, Now()))
        && (r == Done && ctl.CopyData? ==> (key, ctl.copy) in st.hist.copyPast)
        && (r != Refused ==> (r == AlreadyExists <==> key in old(st).objs))
        && st == if r == Done then old(st).(objs := old(st).objs[key := item], hist := st.hist) else old(st)
    {
      var broken: bool := *;
      if broken && !reliable {
        return Refused;
      }
      if ObjectOf(c, obj.name, obj.uid, ctl).0 in st.objs {
        return AlreadyExists;
      }
      StoreObj(obj, ctl);
      return Done;
    }

    /** Creates the object of step `ctl`, unless its name is taken. */
    method CreateObj(obj: ClusterOp, ctl: Ctl) returns (r: Put)
      requires Knows(obj) && Creates(st.hist, obj.uid, ctl)
      modifies this
      ensures Knows(obj) && old(log) <= log && Later(obj.uid, old(st), st)
      ensures quiet && reliable ==> r != Refused
      ensures var (key, item) := ObjectOf(c, obj.name, obj.uid, ctl);
        && (r == Done ==> ObjSeen(st.hist, obj.uid, key, item.data, Now()))
        && (r == Done && ctl.CopyData? ==> (key, ctl.copy) in st.hist.copyPast)
        && (quiet && r != Refused ==> (r == AlreadyExists <==> key in old(st).objs))
        && (quiet ==> st == if r == Done then old(st).(objs := old(st).objs[key := item], hist := st.hist) else old(st))
    {
      ghost var before := st.hist;
      Interfere(obj.name, obj.uid);
      CreatesLater(before, st.hist, obj.uid, ctl);
      r := TryStore(obj, ctl);
    }

    /** Overwrites the entrypoint script, whatever it is, if it is there. */
    method OverwriteEntry(obj: ClusterOp, spec: Spec, script: Payload) returns (ok: bool)
      requires Knows(obj)
      requires spec == obj.base.spec && EntryPoint.Compile(spec) == Ok(script)
      modifies this
      ensures Knows(obj) && old(log) <= log && Later(obj.uid, old(st), st)
      ensures ok ==> ObjSeen(st.hist, obj.uid, EntryKey(c, obj.name), script, Now())
      ensures quiet && reliable && EntryKey(c, obj.name) in old(st).objs ==> ok
      ensures quiet ==> st == if ok
        then old(st).(objs := old(st).objs[EntryKey(c, obj.name) := Obj(script, [obj.uid])], hist := st.hist)
        else old(st)
    {
      hide Step;
      Interfere(obj.name, obj.uid);
      var broken: bool := *;
      if (broken && !reliable) || EntryKey(c, obj.name) !in st.objs {
        return false;
      }
      StoreObj(obj, PutEntry(spec, script));
      return true;
    }

    /** The worlds before the last step. */
    function Past(): seq<World>
      reads this
    {
      st.hist.trail[..Now()]
    }

    method StoreOwner(obj: ClusterOp, key: Key)
      requires Knows(obj) && key in st.objs && obj.uid !in st.objs[key].owners
      modifies this
      ensures Knows(obj) && old(log) <= log && Later(obj.uid, old(st), st) && Past() == old(st).hist.trail
      ensures var seen := old(st).objs[key];
        st == old(st).(objs := old(st).objs[key := seen.(owners := seen.owners + [obj.uid])], hist := st.hist)
    {
      StepPutsObj(c, st, Operator(obj.name, obj.uid, AddOwner(key)));
      Perform(Operator(obj.name, obj.uid, AddOwner(key)));
    }

    /** Updates the object behind `key`, which was read at place `at`, with one more owner. It is
        refused if the object was written in the meantime, up to this very step. */
    method UpdateOwners(obj: ClusterOp, key: Key, seen: Obj, at: nat) returns (ok: bool)
      requires Knows(obj)
      requires obj.uid !in seen.owners && at < |st.hist.trail|
      modifies this
      ensures Knows(obj) && old(log) <= log && Later(obj.uid, old(st), st)
      ensures ok ==> old(st).hist.trail <= Past() && ObjKept(Past(), key, seen, at)
      ensures quiet && reliable && ObjKept(old(st).hist.trail, key, seen, at) ==> ok
      ensures quiet ==> st == if ok
        then old(st).(objs := old(st).objs[key := seen.(owners := seen.owners + [obj.uid])], hist := st.hist)
        else old(st)
      ensures quiet && ok ==> key in old(st).objs && old(st).objs[key] == seen
    {
      hide Step;
      Interfere(obj.name, obj.uid);
      ReachedTrail(c, log, states);
      KeptObj(st.hist.trail, st.hist.trail, key, seen, at);
      var broken: bool := *;
      if (broken && !reliable) || !ObjKept(st.hist.trail, key, seen, at) {
        return false;
      }
      StoreOwner(obj, key);
      return true;
    }

    method StoreJob(obj: ClusterOp, spec: Spec, template: Template)
      requires Knows(obj) && obj.uid !in st.hist.launched && JobKey(c, obj.name) !in st.jobs
      requires spec == obj.base.spec && JobFor(spec, template) && JobVolumes.Accepted(template)
      modifies this
      ensures Knows(obj) && old(log) <= log && Later(obj.uid, old(st), st)
      ensures (obj.uid, JobKey(c, obj.name)) in st.hist.makers
      ensures st == old(st).(jobs := old(st).jobs[JobKey(c, obj.name) := Job(obj.uid, false, [], None, template)],
                             hist := st.hist)
    {
      StepCreatesJob(c, st, obj.name, obj.uid, spec, template);
      Perform(Operator(obj.name, obj.uid, CreateJob(spec, template)));
    }

    /** Creates the Job of the operation's name, unless the name is taken or two mounts have one path. */
    method CreateJobObject(obj: ClusterOp, spec: Spec, template: Template) returns (ok: bool)
      requires Knows(obj) && obj.uid !in st.hist.launched
      requires spec == obj.base.spec && JobFor(spec, template) && JobVolumes.WellFormed(template)
      modifies this
      ensures Knows(obj) && old(log) <= log && Later(obj.uid, old(st), st)
      ensures ok ==> (obj.uid, JobKey(c, obj.name)) in st.hist.makers && OwnedBy(st.jobs, JobKey(c, obj.name), obj.uid)
      ensures ok ==> JobVolumes.PathsDistinct(template.mounts)
      ensures quiet && ok ==> JobKey(c, obj.name) !in old(st).jobs
      ensures quiet && reliable && JobKey(c, obj.name) !in old(st).jobs ==>
        (ok <==> JobVolumes.PathsDistinct(template.mounts))
      ensures quiet ==> st == if ok
        then old(st).(jobs := old(st).jobs[JobKey(c, obj.name) := Job(obj.uid, false, [], None, template)],
                      hist := st.hist)
        else old(st)
    {
      hide Step;
      Interfere(obj.name, obj.uid);
      var broken: bool := *;
      if (broken && !reliable) || JobKey(c, obj.name) in st.jobs || !JobVolumes.PathsDistinct(template.mounts) {
        return false;
      }
      StoreJob(obj, spec, template);
      return true;
    }

    method StoreSuspended(obj: ClusterOp, job: Ref)
      requires Knows(obj) && job in st.jobs && obj.uid in st.hist.launched && st.hist.launched[obj.uid].key == job
      modifies this
      ensures Knows(obj) && old(log) <= log && Later(obj.uid, old(st), st) && Past() == old(st).hist.trail
      ensures st == old(st).(jobs := old(st).jobs[job := old(st).jobs[job].(suspend := true)], hist := st.hist)
    {
      StepSuspends(c, st, obj.name, obj.uid, job);
      Perform(Operator(obj.name, obj.uid, Suspend(job)));
    }

    /** Suspends a Job that was read at place `at`. It is refused if the Job was written in the
        meantime, up to this very step. */
    method SuspendJob(obj: ClusterOp, job: Ref, seen: Job, at: nat) returns (ok: bool)
      requires Knows(obj)
      requires obj.uid in st.hist.launched && st.hist.launched[obj.uid].key == job && at < |st.hist.trail|
      modifies this
      ensures Knows(obj) && old(log) <= log && Later(obj.uid, old(st), st)
      ensures ok ==> old(st).hist.trail <= Past() && JobKept(Past(), job, seen, at)
      ensures quiet && reliable && JobKept(old(st).hist.trail, job, seen, at) ==> ok
      ensures quiet ==> st == if ok
        then old(st).(jobs := old(st).jobs[job := seen.(suspend := true)], hist := st.hist) else old(st)
    {
      hide Step;
      Interfere(obj.name, obj.uid);
      ReachedTrail(c, log, states);
      KeptJob(st.hist.trail, st.hist.trail, job, seen, at);
      var broken: bool := *;
      if (broken && !reliable) || !JobKept(st.hist.trail, job, seen, at) {
        return false;
      }
      StoreSuspended(obj, job);
      return true;
    }
  }

  /** The guard of a creation but for the name being free. */
  predicate Creates(h: History, u: nat, ctl: Ctl) {
    match ctl
    case CopyData(copy, cl, i, j) => CopyRead(h, u, copy, cl, i, j)
    case PutEntry(spec, script) => HasRead(h, u, spec) && EntryPoint.Compile(spec) == Ok(script)
    case Inject(src, data, j) => InjectRead(h, u, src, data, j)
    case _ => false
  }

  /** The object that a creation stores. */
  function ObjectOf(c: Config, o: string, u: nat, ctl: Ctl): (Key, Obj) {
    match ctl
    case CopyData(copy, cl, i, j) => (CopyKey(c, copy), Obj(copy.data, [u]))
    case PutEntry(spec, script) => (EntryKey(c, o), Obj(script, [u]))
    case Inject(src, data, j) => (InjectKey(c, src), Obj(data, [u]))
    case _ => (EntryKey(c, o), Obj(Raw(""), []))
  }

  /** Guards that hold of the history hold of every later one. */
  lemma CanWriteLater(c: Config, h: History, h': History, o: string, op: Op, w: OpWrite)
    requires CanWrite(c, h, o, op, w) && SyncHistory(op.uid, h, h')
    ensures CanWrite(c, h', o, op, w)
  {
  }

  lemma CreatesLater(h: History, h': History, u: nat, ctl: Ctl)
    requires Creates(h, u, ctl) && SyncHistory(u, h, h')
    ensures Creates(h', u, ctl)
  {
  }

  lemma WrittenIdentity(c: Config, o: string, op: Op, w: OpWrite)
    ensures Written(c, o, op, w).uid == op.uid && Written(c, o, op, w).created == op.created
  {
  }
}
