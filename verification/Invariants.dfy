/** What every step of the control plane keeps. */
module Invariants {
  import opened Text
  import opened Objects
  import opened References
  import opened ControlPlane
  import EntryPoint
  import JobVolumes

  // The invariant.

  /** UIDs are never given out twice, and revisions are never ahead of the store's. */
  predicate Registered(names: map<nat, string>, rev: nat, o: string, op: Op) {
    op.uid in names && names[op.uid] == o && op.rv <= rev
  }

  ghost predicate Named(s: State) {
    forall o | o in s.ops :: Registered(s.hist.names, s.rev, o, s.ops[o])
  }

  predicate Unfinished(op: Op) {
    op.status.phase == Unset || op.status.phase == Running
  }

  /** At most one unfinished operation for each cluster. */
  ghost predicate Exclusive(ops: map<string, Op>) {
    forall a, b | a in ops && b in ops && Unfinished(ops[a]) && Unfinished(ops[b]) ::
      ops[a].spec.cluster == ops[b].spec.cluster ==> a == b
  }

  /** The label that the webhook meant to filter by is on finished operations only. */
  predicate Labelled(op: Op) {
    COMPLETED_LABEL in op.labels ==> Finished(op.status.phase)
  }

  /** The fields of a status belong together. */
  predicate Consistent(launched: map<nat, Launch>, op: Op) {
    var st := op.status;
    && !st.phase.Other?
    && (!st.jobRef.IsEmpty() <==> op.uid in launched)
    && (op.uid in launched ==> launched[op.uid].key == st.jobRef && st.digest != NoDigest)
    && (st.phase == Unset ==> st.jobRef.IsEmpty())
    && (st.phase == Running ==> !st.jobRef.IsEmpty() && st.start.Some?)
    && (st.phase == Succeeded ==> !st.jobRef.IsEmpty() && st.start.Some? && st.end.Some?)
  }

  /** A digest fits its spec until users change the digested text; the flag tells that they did. */
  predicate Sealed(tampered: set<nat>, op: Op) {
    && (op.status.digest != NoDigest && op.uid !in tampered ==> op.status.digest == CalSalt(op.spec))
    && (op.status.modified ==> op.uid in tampered && op.status.digest != NoDigest)
  }

  /** What a launched operation needed stays there until users edit it; an operation without an SSH
      reference was launched by a pass that saw its cluster without one. */
  ghost predicate Prepared(c: Config, h: History, op: Op) {
    !op.status.jobRef.IsEmpty() && op.uid !in h.editedLate ==>
      && ValidImage(c.alnum, op.spec.image)
      && !op.spec.hosts.IsEmpty() && !op.spec.vars.IsEmpty() && !op.spec.entry.IsEmpty()
      && op.uid in h.launched && op.status.action == op.spec.main.action
      && (op.spec.ssh.IsEmpty() ==> NoSsh(h.trail, h.launched[op.uid].at, op.spec.cluster))
  }

  ghost predicate NoSsh(trail: seq<World>, n: nat, cluster: string) {
    exists i | 0 <= i < |trail| && i < n :: cluster in trail[i].clusters && trail[i].clusters[cluster].ssh.IsEmpty()
  }

  /** A reference that the operator filled in names its backup until users edit the spec. */
  ghost predicate Filled(c: Config, fills: map<(nat, Slot), Fill>, edited: set<nat>, op: Op) {
    forall slot | (op.uid, slot) in fills && op.uid !in edited ::
      && SpecRef(op.spec, slot) == CopyRef(c, fills[(op.uid, slot)].copy)
      && op.spec.cluster == fills[(op.uid, slot)].copy.cluster
  }

  ghost predicate GoodOp(c: Config, h: History, op: Op) {
    && Filled(c, h.fills, h.edited, op)
    && Labelled(op)
    && Consistent(h.launched, op)
    && Sealed(h.tampered, op)
    && Prepared(c, h, op)
  }

  ghost predicate GoodOps(c: Config, s: State) {
    forall o | o in s.ops :: GoodOp(c, s.hist, s.ops[o])
  }

  /** Jobs are conserved: as many were created under a name as were deleted or are there. */
  ghost predicate JobsCounted(births: multiset<Ref>, deaths: multiset<Ref>, jobs: map<Ref, Job>) {
    forall k: Ref :: births[k] == deaths[k] + (if k in jobs then 1 else 0)
  }

  /** Every creation of a Job is on one operation's account, and the account fits its name. */
  ghost predicate MakersCounted(births: multiset<Ref>, makers: multiset<(nat, Ref)>) {
    forall u: nat, k: Ref :: makers[(u, k)] <= births[k]
  }

  ghost predicate MakersNamed(c: Config, makers: multiset<(nat, Ref)>, names: map<nat, string>) {
    forall u: nat, k: Ref | (u, k) in makers :: u in names && k == JobKey(c, names[u])
  }

  ghost predicate OwnersAreMakers(jobs: map<Ref, Job>, makers: multiset<(nat, Ref)>) {
    forall k | k in jobs :: (jobs[k].owner, k) in makers
  }

  predicate LaunchKnown(c: Config, names: map<nat, string>, makers: multiset<(nat, Ref)>, u: nat, l: Launch) {
    u in names && l.key == JobKey(c, names[u]) && (l.maker, l.key) in makers
  }

  ghost predicate LaunchesKnown(c: Config, h: History) {
    forall u | u in h.launched :: LaunchKnown(c, h.names, h.makers, u, h.launched[u])
  }

  ghost predicate JobsWellFormed(jobs: map<Ref, Job>) {
    forall k | k in jobs :: JobVolumes.Accepted(jobs[k].template)
  }

  ghost predicate JobsInv(c: Config, s: State) {
    && JobsCounted(s.hist.births, s.hist.deaths, s.jobs)
    && MakersCounted(s.hist.births, s.hist.makers)
    && MakersNamed(c, s.hist.makers, s.hist.names)
    && OwnersAreMakers(s.jobs, s.hist.makers)
    && LaunchesKnown(c, s.hist)
    && JobsWellFormed(s.jobs)
  }

  /** The trail ends with the present, and places in the trail are places in it. */
  ghost predicate TrailKept(s: State) {
    && |s.hist.trail| > 0 && s.hist.trail[|s.hist.trail| - 1] == WorldOf(s)
    && (forall u | u in s.hist.begun :: s.hist.begun[u] < |s.hist.trail|)
    && s.hist.read.Keys <= s.hist.begun.Keys
    && (forall u | u in s.hist.launched :: s.hist.launched[u].at < |s.hist.trail|)
  }

  /** Nobody but users changes a backup. */
  predicate Intact(objs: map<Key, Obj>, touched: set<Key>, key: Key, copy: Copy) {
    key !in touched ==> key in objs && objs[key].data == copy.data
  }

  ghost predicate CopiesKept(c: Config, s: State) {
    forall p | p in s.hist.copyPast ::
      && p.0 == CopyKey(c, p.1)
      && Intact(s.objs, s.hist.touched, p.0, p.1)
  }

  ghost predicate FillsKept(c: Config, h: History) {
    forall f | f in h.fills ::
      && (h.fills[f].key, h.fills[f].copy) in h.copyPast
      && f.0 in h.names && h.fills[f].copy.uid == f.0 && h.fills[f].copy.slot == f.1
      && h.fills[f].key == CopyKey(c, h.fills[f].copy)
  }

  ghost predicate Inv(c: Config, s: State) {
    && Named(s) && GoodOps(c, s) && JobsInv(c, s) && TrailKept(s) && CopiesKept(c, s) && FillsKept(c, s.hist)
    && (!c.movable ==> Exclusive(s.ops))
  }

  // What a step does to one operation.

  datatype Change = Same | Wrote | Created | Edited

  function ChangeOf(a: Action, o: string): Change {
    if OpWriteOf(a).Some? && a.o == o then Wrote
    else if a.Others? && a.env.CreateOp? && a.env.name == o then Created
    else if a.Others? && a.env.EditOp? && a.env.name == o then Edited
    else Same
  }

  lemma ChangeSame(c: Config, s: State, a: Action, o: string)
    requires ChangeOf(a, o) == Same && o in OpsAfter(c, s, a)
    ensures o in s.ops && OpsAfter(c, s, a)[o] == s.ops[o]
  {
  }

  lemma ChangeWrote(c: Config, s: State, a: Action, o: string)
    requires Enabled(c, s, a) && ChangeOf(a, o) == Wrote
    ensures o in s.ops && s.ops[o].uid == a.u && o == a.o
    ensures CanWrite(c, s.hist, o, s.ops[o], a.ctl.w)
    ensures OpsAfter(c, s, a) == s.ops[o := Written(c, o, s.ops[o], a.ctl.w).(rv := s.rev + 1)]
  {
  }

  lemma ChangeCreated(c: Config, s: State, a: Action, o: string)
    requires Enabled(c, s, a) && ChangeOf(a, o) == Created
    ensures CanCreate(s, o, a.env.uid, a.env.labels, a.env.spec)
    ensures OpsAfter(c, s, a)
         == s.ops[o := NewOp(a.env.uid, s.now, a.env.labels, a.env.annotations, a.env.spec).(rv := s.rev + 1)]
  {
  }

  lemma ChangeEdited(c: Config, s: State, a: Action, o: string)
    requires Enabled(c, s, a) && ChangeOf(a, o) == Edited
    ensures CanEdit(c, s, o, a.env.labels, a.env.spec)
    ensures OpsAfter(c, s, a)
         == s.ops[o := s.ops[o].(labels := a.env.labels, annotations := a.env.annotations, spec := a.env.spec,
                                 rv := s.rev + 1)]
  {
  }

  /** The guard of a step on `o` by the pass for UID `u` ties the two together. */
  lemma OperatorKnows(c: Config, s: State, a: Action)
    requires Enabled(c, s, a) && a.Operator?
    ensures a.u in s.hist.names && s.hist.names[a.u] == a.o
  {
  }

  // Good operations stay good.

  lemma NoSshLater(trail: seq<World>, trail': seq<World>, n: nat, cluster: string)
    requires trail <= trail' && NoSsh(trail, n, cluster)
    ensures NoSsh(trail', n, cluster)
  {
    var i :| 0 <= i < |trail| && i < n && cluster in trail[i].clusters && trail[i].clusters[cluster].ssh.IsEmpty();
    assert trail'[i] == trail[i];
  }

  lemma PreparedLater(c: Config, h: History, h': History, op: Op)
    requires Prepared(c, h, op) && h.trail <= h'.trail && h.editedLate <= h'.editedLate
    requires op.uid in h.launched ==> op.uid in h'.launched && h'.launched[op.uid] == h.launched[op.uid]
    ensures Prepared(c, h', op)
  {
    if op.uid in h.launched && NoSsh(h.trail, h.launched[op.uid].at, op.spec.cluster) {
      NoSshLater(h.trail, h'.trail, h.launched[op.uid].at, op.spec.cluster);
    }
  }

  lemma GoodSame(c: Config, s: State, a: Action, op: Op)
    requires GoodOp(c, s.hist, op)
    requires OpWriteOf(a).Some? ==> a.u != op.uid
    ensures GoodOp(c, HistoryAfter(c, s, a), op)
  {
    var h, h' := s.hist, HistoryAfter(c, s, a);
    assert op.uid in h'.launched <==> op.uid in h.launched;
    PreparedLater(c, h, h', op);
  }

  lemma ConsistentWrote(c: Config, h: History, o: string, op: Op, w: OpWrite)
    requires Consistent(h.launched, op)
    requires CanWrite(c, h, o, op, w)
    ensures Consistent(LaunchedAfter(h, Operator(o, op.uid, WriteOp(w))), Written(c, o, op, w))
  {
    if w.Finish? && w.seen.Some? {
      VerdictIsFinal(w.seen.value);
    }
  }

  lemma {:induction false} VerdictIsFinal(conds: seq<Cond>)
    ensures JobVerdict(conds) in {Running, Succeeded, Failed}
  {
    if conds != [] {
      VerdictIsFinal(conds[1..]);
    }
  }

  /** No write of the operator changes the digested text. */
  lemma WritesKeepSummary(c: Config, o: string, op: Op, w: OpWrite)
    ensures Summary(Written(c, o, op, w).spec) == Summary(op.spec)
  {
    if w.FillRef? {
      assert w.copy.slot == Hosts || w.copy.slot == Vars || w.copy.slot == Ssh;
    }
  }

  lemma SealedWrote(c: Config, h: History, o: string, op: Op, w: OpWrite)
    requires Sealed(h.tampered, op)
    requires CanWrite(c, h, o, op, w)
    ensures Sealed(h.tampered, Written(c, o, op, w))
  {
    WritesKeepSummary(c, o, op, w);
  }

  lemma PreparedWrote(c: Config, s: State, o: string, op: Op, w: OpWrite)
    requires Prepared(c, s.hist, op) && Consistent(s.hist.launched, op)
    requires CanWrite(c, s.hist, o, op, w)
    ensures Prepared(c, HistoryAfter(c, s, Operator(o, op.uid, WriteOp(w))), Written(c, o, op, w))
  {
    var h, h' := s.hist, HistoryAfter(c, s, Operator(o, op.uid, WriteOp(w)));
    match w {
      case FillRef(copy) =>
        assert copy.slot == Hosts || copy.slot == Vars || copy.slot == Ssh;
        PreparedLater(c, h, h', op);
      case FillEntry(script, i) =>
        assert |o + ENTRYPOINT_SUFFIX| > 0;
        PreparedLater(c, h, h', op);
      case SetJobRef(key, find, cl, at, i) =>
        assert h'.trail[i] == h.trail[i] && h'.launched[op.uid].at == |h.trail|;
      case _ => PreparedLater(c, h, h', op);
    }
  }

  lemma FilledWrote(c: Config, h: History, o: string, op: Op, w: OpWrite)
    requires Filled(c, h.fills, h.edited, op)
    requires CanWrite(c, h, o, op, w)
    ensures Filled(c, FillsAfter(c, h, Operator(o, op.uid, WriteOp(w))), h.edited, Written(c, o, op, w))
  {
    if w.FillRef? {
      assert w.copy.slot == Hosts || w.copy.slot == Vars || w.copy.slot == Ssh;
    }
  }

  lemma LabelledWrote(c: Config, h: History, o: string, op: Op, w: OpWrite)
    requires Labelled(op)
    requires CanWrite(c, h, o, op, w)
    ensures Labelled(Written(c, o, op, w))
  {
    assert CLUSTER_LABEL[0] != COMPLETED_LABEL[0];
  }

  lemma GoodWrote(c: Config, s: State, a: Action)
    requires OpWriteOf(a).Some? && a.o in s.ops && a.u == s.ops[a.o].uid
    requires CanWrite(c, s.hist, a.o, s.ops[a.o], a.ctl.w)
    requires GoodOp(c, s.hist, s.ops[a.o])
    ensures GoodOp(c, HistoryAfter(c, s, a), Written(c, a.o, s.ops[a.o], a.ctl.w))
  {
    var op, w := s.ops[a.o], a.ctl.w;
    ConsistentWrote(c, s.hist, a.o, op, w);
    SealedWrote(c, s.hist, a.o, op, w);
    PreparedWrote(c, s, a.o, op, w);
    LabelledWrote(c, s.hist, a.o, op, w);
    FilledWrote(c, s.hist, a.o, op, w);
    assert a == Operator(a.o, op.uid, WriteOp(w));
  }

  lemma GoodCreated(c: Config, s: State, a: Action)
    requires a.Others? && a.env.CreateOp? && a.env.uid !in s.hist.launched && COMPLETED_LABEL !in a.env.labels
    requires forall slot :: (a.env.uid, slot) !in s.hist.fills
    ensures GoodOp(c, HistoryAfter(c, s, a), NewOp(a.env.uid, s.now, a.env.labels, a.env.annotations, a.env.spec))
  {
  }

  lemma GoodEdited(c: Config, s: State, a: Action)
    requires a.Others? && a.env.EditOp? && CanEdit(c, s, a.env.name, a.env.labels, a.env.spec)
    requires GoodOp(c, s.hist, s.ops[a.env.name])
    ensures GoodOp(c, HistoryAfter(c, s, a), OpsAfter(c, s, a)[a.env.name])
  {
    var op := s.ops[a.env.name];
    assert HistoryAfter(c, s, a).tampered == s.hist.tampered + Tampers(s, a);
    assert HistoryAfter(c, s, a).edited == s.hist.edited + Edits(s, a);
    assert HistoryAfter(c, s, a).editedLate == s.hist.editedLate + LateEdits(s, a);
    PreparedLater(c, s.hist, HistoryAfter(c, s, a), op);
  }

  lemma NamedKept(c: Config, s: State, a: Action)
    requires Named(s) && Enabled(c, s, a)
    ensures Named(Apply(c, s, a))
  {
    hide CanWrite;
    var s' := Apply(c, s, a);
    forall o | o in s'.ops
      ensures Registered(s'.hist.names, s'.rev, o, s'.ops[o])
    {
      match ChangeOf(a, o)
      case Same => ChangeSame(c, s, a, o); NewUid(c, s, a, s.ops[o].uid);
      case Wrote => ChangeWrote(c, s, a, o);
      case Created => ChangeCreated(c, s, a, o);
      case Edited => ChangeEdited(c, s, a, o);
    }
  }

  /** UIDs in use are not given out again. */
  lemma NewUid(c: Config, s: State, a: Action, u: nat)
    requires Enabled(c, s, a) && u in s.hist.names
    ensures u in HistoryAfter(c, s, a).names && HistoryAfter(c, s, a).names[u] == s.hist.names[u]
  {
    if a.Others? && a.env.CreateOp? {
      ChangeCreated(c, s, a, a.env.name);
    }
  }

  lemma GoodOpKept(c: Config, s: State, a: Action, o: string)
    requires Named(s) && GoodOps(c, s) && LaunchesKnown(c, s.hist) && FillsKept(c, s.hist) && Enabled(c, s, a)
    requires o in OpsAfter(c, s, a)
    ensures GoodOp(c, HistoryAfter(c, s, a), OpsAfter(c, s, a)[o])
  {
    match ChangeOf(a, o)
    case Same =>
      ChangeSame(c, s, a, o);
      if OpWriteOf(a).Some? {
        OperatorKnows(c, s, a);
      }
      GoodSame(c, s, a, s.ops[o]);
    case Wrote => ChangeWrote(c, s, a, o); GoodWrote(c, s, a);
    case Created => ChangeCreated(c, s, a, o); GoodCreated(c, s, a);
    case Edited => ChangeEdited(c, s, a, o); GoodEdited(c, s, a);
  }

  lemma GoodOpsKept(c: Config, s: State, a: Action)
    requires Named(s) && GoodOps(c, s) && LaunchesKnown(c, s.hist) && FillsKept(c, s.hist) && Enabled(c, s, a)
    ensures GoodOps(c, Apply(c, s, a))
  {
    forall o | o in OpsAfter(c, s, a)
      ensures GoodOp(c, HistoryAfter(c, s, a), OpsAfter(c, s, a)[o])
    {
      GoodOpKept(c, s, a, o);
    }
  }

  lemma ExclusiveKept(c: Config, s: State, a: Action)
    requires Exclusive(s.ops) && GoodOps(c, s) && Enabled(c, s, a) && !c.movable
    ensures Exclusive(OpsAfter(c, s, a))
  {
    var ops' := OpsAfter(c, s, a);
    forall x, y | x in ops' && y in ops' && Unfinished(ops'[x]) && Unfinished(ops'[y])
      && ops'[x].spec.cluster == ops'[y].spec.cluster
      ensures x == y
    {
      WasUnfinished(c, s, a, x);
      WasUnfinished(c, s, a, y);
    }
  }

  /** An unfinished operation was unfinished before, in the same cluster, or it was just admitted. */
  lemma WasUnfinished(c: Config, s: State, a: Action, o: string)
    requires GoodOps(c, s) && Enabled(c, s, a) && !c.movable
    requires o in OpsAfter(c, s, a) && Unfinished(OpsAfter(c, s, a)[o])
    ensures var op' := OpsAfter(c, s, a)[o];
      || (ChangeOf(a, o) != Created && o in s.ops && Unfinished(s.ops[o]) && s.ops[o].spec.cluster == op'.spec.cluster)
      || (ChangeOf(a, o) == Created && o !in s.ops && Admits(s.ops, o, op'.spec.cluster))
  {
    hide Written, CanWrite;
    match ChangeOf(a, o)
    case Same => ChangeSame(c, s, a, o);
    case Wrote => ChangeWrote(c, s, a, o); WritesUnfinished(c, s.hist, o, s.ops[o], a.ctl.w);
    case Created => ChangeCreated(c, s, a, o);
    case Edited => ChangeEdited(c, s, a, o);
  }

  lemma WritesUnfinished(c: Config, h: History, o: string, op: Op, w: OpWrite)
    requires CanWrite(c, h, o, op, w) && Unfinished(Written(c, o, op, w))
    ensures !Finished(op.status.phase) && Written(c, o, op, w).spec.cluster == op.spec.cluster
  {
  }

  /** What the guards say about steps that create, delete or record Jobs. */
  predicate JobGuards(c: Config, s: State, a: Action) {
    && (IsCreateJob(a) ==>
          JobKey(c, a.o) !in s.jobs && a.u in s.hist.names && s.hist.names[a.u] == a.o
          && JobVolumes.Accepted(a.ctl.template))
    && (a.Others? && a.env.DropJob? ==> a.env.job in s.jobs)
    && (a.Others? && a.env.CreateOp? ==> a.env.uid !in s.hist.names)
    && (OpWriteOf(a).Some? && a.ctl.w.SetJobRef? ==>
          a.u in s.hist.names
            && LaunchKnown(c, s.hist.names, s.hist.makers, a.u, Launch(a.ctl.w.key, a.ctl.w.find.maker, 0)))
  }

  lemma JobGuardsHold(c: Config, s: State, a: Action)
    requires Enabled(c, s, a)
    ensures JobGuards(c, s, a)
  {
    if a.Operator? {
      OperatorKnows(c, s, a);
      if a.ctl.WriteOp? {
        ChangeWrote(c, s, a, a.o);
      }
    }
  }

  lemma JobsCountedKept(c: Config, s: State, a: Action)
    requires JobsCounted(s.hist.births, s.hist.deaths, s.jobs) && JobGuards(c, s, a)
    ensures JobsCounted(HistoryAfter(c, s, a).births, HistoryAfter(c, s, a).deaths, JobsAfter(c, s, a))
  {
  }

  lemma MakersCountedKept(c: Config, s: State, a: Action)
    requires MakersCounted(s.hist.births, s.hist.makers)
    ensures MakersCounted(HistoryAfter(c, s, a).births, HistoryAfter(c, s, a).makers)
  {
  }

  lemma MakersNamedKept(c: Config, s: State, a: Action)
    requires MakersNamed(c, s.hist.makers, s.hist.names) && JobGuards(c, s, a)
    ensures MakersNamed(c, HistoryAfter(c, s, a).makers, HistoryAfter(c, s, a).names)
  {
  }

  lemma OwnersAreMakersKept(c: Config, s: State, a: Action)
    requires OwnersAreMakers(s.jobs, s.hist.makers)
    ensures OwnersAreMakers(JobsAfter(c, s, a), HistoryAfter(c, s, a).makers)
  {
  }

  lemma LaunchesKept(c: Config, s: State, a: Action)
    requires LaunchesKnown(c, s.hist) && JobGuards(c, s, a)
    ensures LaunchesKnown(c, HistoryAfter(c, s, a))
  {
    var h, h' := s.hist, HistoryAfter(c, s, a);
    forall u | u in h'.launched
      ensures LaunchKnown(c, h'.names, h'.makers, u, h'.launched[u])
    {
      assert u in h.names && h'.names[u] == h.names[u];
      var made := (h'.launched[u].maker, h'.launched[u].key);
      assert h'.makers[made] >= h.makers[made];
    }
  }

  lemma JobsWellFormedKept(c: Config, s: State, a: Action)
    requires JobsWellFormed(s.jobs) && JobGuards(c, s, a)
    ensures JobsWellFormed(JobsAfter(c, s, a))
  {
  }

  lemma JobsInvKept(c: Config, s: State, a: Action)
    requires JobsInv(c, s) && Enabled(c, s, a)
    ensures JobsInv(c, Apply(c, s, a))
  {
    JobGuardsHold(c, s, a);
    JobsCountedKept(c, s, a);
    MakersCountedKept(c, s, a);
    MakersNamedKept(c, s, a);
    OwnersAreMakersKept(c, s, a);
    LaunchesKept(c, s, a);
    JobsWellFormedKept(c, s, a);
  }

  lemma TrailKeptKept(c: Config, s: State, a: Action)
    requires TrailKept(s)
    ensures TrailKept(Apply(c, s, a))
  {
  }

  /** What the guards say about steps that write or delete ConfigMaps and Secrets. */
  predicate ObjGuards(c: Config, s: State, a: Action) {
    && (a.Operator? && a.ctl.CopyData? ==> CopyKey(c, a.ctl.copy) !in s.objs)
    && (a.Operator? && a.ctl.Inject? ==> InjectKey(c, a.ctl.src) !in s.objs)
  }

  lemma ObjGuardsHold(c: Config, s: State, a: Action)
    requires Enabled(c, s, a)
    ensures ObjGuards(c, s, a)
  {
  }

  /** Steps of the operator never rewrite a backup: the entrypoint script, which it does overwrite,
      has a name that no backup can have. */
  lemma IntactKept(c: Config, s: State, a: Action, copy: Copy)
    requires ObjGuards(c, s, a)
    requires Intact(s.objs, s.hist.touched, CopyKey(c, copy), copy)
    ensures Intact(ObjsAfter(c, s, a), HistoryAfter(c, s, a).touched, CopyKey(c, copy), copy)
  {
    if a.Operator? && a.ctl.PutEntry? {
      StampedNameIsNoEntrypoint(copy.src.Name(), copy.stamp, a.o);
    }
  }

  lemma CopiesKeptKept(c: Config, s: State, a: Action)
    requires CopiesKept(c, s) && ObjGuards(c, s, a)
    ensures CopiesKept(c, Apply(c, s, a))
  {
    var s' := Apply(c, s, a);
    forall p | p in s'.hist.copyPast
      ensures p.0 == CopyKey(c, p.1)
      ensures Intact(s'.objs, s'.hist.touched, p.0, p.1)
    {
      if p in s.hist.copyPast {
        IntactKept(c, s, a, p.1);
      } else {
        assert a.Operator? && a.ctl.CopyData? && p == (CopyKey(c, a.ctl.copy), a.ctl.copy);
      }
    }
  }

  lemma FillsKeptKept(c: Config, s: State, a: Action)
    requires FillsKept(c, s.hist) && Enabled(c, s, a)
    ensures FillsKept(c, HistoryAfter(c, s, a))
  {
  }

  lemma StepKeepsInv(c: Config, s: State, a: Action)
    requires Inv(c, s)
    ensures Inv(c, Step(c, s, a))
  {
    if Enabled(c, s, a) {
      NamedKept(c, s, a);
      GoodOpsKept(c, s, a);
      JobsInvKept(c, s, a);
      TrailKeptKept(c, s, a);
      ObjGuardsHold(c, s, a);
      CopiesKeptKept(c, s, a);
      FillsKeptKept(c, s, a);
      if !c.movable {
        ExclusiveKept(c, s, a);
      }
    }
  }

  /** The invariant holds after every run. */
  lemma {:induction false} RunKeepsInv(c: Config, log: seq<Action>)
    ensures Inv(c, Run(c, log))
  {
    if log != [] {
      RunKeepsInv(c, log[..|log| - 1]);
      StepKeepsInv(c, Run(c, log[..|log| - 1]), log[|log| - 1]);
    }
  }
}
