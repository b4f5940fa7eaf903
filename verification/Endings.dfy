/** What a finished operation rests on, in every run: what the pass that finished it had read. */
module Endings {
  import opened Objects
  import opened References
  import opened ControlPlane
  import opened Invariants
  import opened Ownership
  import opened Trails
  import opened Runs
  import EntryPoint

  /** Step `t` finished operation `o` of UID `u`. */
  ghost predicate FinishedAt(c: Config, log: seq<Action>, o: string, u: nat, t: nat) {
    && t < |log| && Enabled(c, Run(c, log[..t]), log[t])
    && log[t].Operator? && log[t].o == o && log[t].u == u && log[t].ctl.WriteOp?
    && (log[t].ctl.w.Finish? || log[t].ctl.w.MarkFailed?)
  }

  /** Step `t` gave operation `o` the status that it has after the run, and the spec is as it was then
      unless users edited it. */
  ghost predicate FinishedFrom(c: Config, log: seq<Action>, o: string, op: Op, t: nat) {
    && FinishedAt(c, log, o, op.uid, t) && o in Run(c, log[..t]).ops
    && var was := Run(c, log[..t]).ops[o];
    && was.uid == op.uid && op.status == Written(c, o, was, log[t].ctl.w).status
    && (!op.status.jobRef.IsEmpty() && op.uid !in Run(c, log).hist.editedLate ==> op.spec == was.spec)
  }

  lemma FinishedStays(c: Config, log: seq<Action>, a: Action, o: string, op: Op, op': Op, t: nat)
    requires FinishedFrom(c, log, o, op, t)
    requires op'.uid == op.uid && op'.status == op.status
    requires Run(c, log).hist.editedLate <= Run(c, log + [a]).hist.editedLate
    requires !op.status.jobRef.IsEmpty() && op.uid !in Run(c, log + [a]).hist.editedLate ==> op'.spec == op.spec
    ensures FinishedFrom(c, log + [a], o, op', t)
  {
    assert (log + [a])[t] == log[t] && (log + [a])[..t] == log[..t];
  }

  /** The only write to a finished operation is that of its label. */
  lemma LabelWrite(c: Config, h: History, o: string, op: Op, w: OpWrite)
    requires CanWrite(c, h, o, op, w) && Finished(op.status.phase)
    ensures w.MarkDone? && Written(c, o, op, w).spec == op.spec && Written(c, o, op, w).status == op.status
  {
  }

  /** Only users change the spec of a finished operation. */
  lemma SpecStays(c: Config, s: State, a: Action, o: string)
    requires Inv(c, s) && o in s.ops && o in Step(c, s, a).ops && s.ops[o].uid == Step(c, s, a).ops[o].uid
    requires Finished(s.ops[o].status.phase) && s.ops[o].status == Step(c, s, a).ops[o].status
    ensures s.hist.editedLate <= Step(c, s, a).hist.editedLate
    ensures !s.ops[o].status.jobRef.IsEmpty() && s.ops[o].uid !in Step(c, s, a).hist.editedLate ==>
      Step(c, s, a).ops[o].spec == s.ops[o].spec
  {
    hide Written, CanWrite, Enabled, Inv;
    if Enabled(c, s, a) {
      match ChangeOf(a, o)
      case Same => ChangeSame(c, s, a, o);
      case Wrote => ChangeWrote(c, s, a, o); LabelWrite(c, s.hist, o, s.ops[o], a.ctl.w);
      case Created => ChangeCreated(c, s, a, o);
      case Edited => ChangeEdited(c, s, a, o);
    }
  }

  /** Only a write to an operation changes its status. */
  lemma OthersKeepStatus(c: Config, s: State, a: Action, o: string)
    requires Inv(c, s) && Enabled(c, s, a) && ChangeOf(a, o) != Wrote
    requires o in Apply(c, s, a).ops && Finished(Apply(c, s, a).ops[o].status.phase)
    ensures o in s.ops && s.ops[o].uid == Apply(c, s, a).ops[o].uid
    ensures s.ops[o].status == Apply(c, s, a).ops[o].status
  {
    match ChangeOf(a, o)
    case Same => ChangeSame(c, s, a, o);
    case Created => ChangeCreated(c, s, a, o);
    case Edited => ChangeEdited(c, s, a, o);
  }

  /** And only two writes finish it. */
  lemma WriteFinishes(c: Config, s: State, a: Action, o: string)
    requires Inv(c, s) && Enabled(c, s, a) && ChangeOf(a, o) == Wrote && o in Apply(c, s, a).ops
    requires Finished(Apply(c, s, a).ops[o].status.phase)
    ensures o in s.ops && s.ops[o].uid == Apply(c, s, a).ops[o].uid == a.u
    ensures Apply(c, s, a).ops[o].status == Written(c, o, s.ops[o], a.ctl.w).status
    ensures Apply(c, s, a).ops[o].status == s.ops[o].status || a.ctl.w.Finish? || a.ctl.w.MarkFailed?
  {
    ChangeWrote(c, s, a, o);
  }

  /** A step after which an operation is finished that was not there finished before. */
  lemma FinishedByStep(c: Config, s: State, a: Action, o: string)
    requires Inv(c, s) && o in Step(c, s, a).ops && Finished(Step(c, s, a).ops[o].status.phase)
    requires !(o in s.ops && s.ops[o].uid == Step(c, s, a).ops[o].uid && s.ops[o].status == Step(c, s, a).ops[o].status)
    ensures Enabled(c, s, a) && a.Operator? && a.o == o && a.ctl.WriteOp? && (a.ctl.w.Finish? || a.ctl.w.MarkFailed?)
    ensures o in s.ops && s.ops[o].uid == Step(c, s, a).ops[o].uid == a.u
    ensures Step(c, s, a).ops[o].status == Written(c, o, s.ops[o], a.ctl.w).status
  {
    hide Enabled, Apply, Written, Inv;
    assert Enabled(c, s, a);
    if ChangeOf(a, o) == Wrote {
      WriteFinishes(c, s, a, o);
    } else {
      OthersKeepStatus(c, s, a, o);
    }
  }

  /** A step that leaves the operation as finished as it was. */
  lemma FinishedGoesOn(c: Config, log: seq<Action>, a: Action, o: string, t: nat)
    requires o in Run(c, log).ops && FinishedFrom(c, log, o, Run(c, log).ops[o], t)
    requires Finished(Run(c, log).ops[o].status.phase)
    requires var s, s' := Run(c, log), Run(c, log + [a]);
      o in s'.ops && s'.ops[o].uid == s.ops[o].uid && s'.ops[o].status == s.ops[o].status
    ensures FinishedFrom(c, log + [a], o, Run(c, log + [a]).ops[o], t)
  {
    RunKeepsInv(c, log);
    RunAppends(c, log, a);
    SpecStays(c, Run(c, log), a, o);
    FinishedStays(c, log, a, o, Run(c, log).ops[o], Run(c, log + [a]).ops[o], t);
  }

  /** A step that finishes it. */
  lemma FinishedLast(c: Config, log: seq<Action>, a: Action, o: string)
    requires var s, s' := Run(c, log), Run(c, log + [a]);
      && o in s'.ops && Finished(s'.ops[o].status.phase)
      && !(o in s.ops && s.ops[o].uid == s'.ops[o].uid && s.ops[o].status == s'.ops[o].status)
    ensures FinishedFrom(c, log + [a], o, Run(c, log + [a]).ops[o], |log|)
  {
    RunKeepsInv(c, log);
    RunAppends(c, log, a);
    FinishedByStep(c, Run(c, log), a, o);
    WrittenSpec(c, Run(c, log), a, o);
    assert (log + [a])[..|log|] == log;
  }

  lemma {:induction false} FinishedSomewhere(c: Config, log: seq<Action>, o: string) returns (t: nat)
    requires o in Run(c, log).ops && Finished(Run(c, log).ops[o].status.phase)
    ensures FinishedFrom(c, log, o, Run(c, log).ops[o], t)
  {
    var n := |log| - 1;
    var front, a := log[..n], log[n];
    assert log == front + [a];
    var s, op := Run(c, front), Run(c, log).ops[o];
    if o in s.ops && s.ops[o].uid == op.uid && s.ops[o].status == op.status {
      t := FinishedSomewhere(c, front, o);
      FinishedGoesOn(c, front, a, o, t);
    } else {
      FinishedLast(c, front, a, o);
      t := n;
    }
  }

  /** The write that finishes an operation leaves its spec alone. */
  lemma WrittenSpec(c: Config, s: State, a: Action, o: string)
    requires Enabled(c, s, a) && a.Operator? && a.o == o && o in s.ops
    requires a.ctl.WriteOp? && (a.ctl.w.Finish? || a.ctl.w.MarkFailed?)
    ensures o in Step(c, s, a).ops && Step(c, s, a).ops[o].spec == s.ops[o].spec
  {
  }

  // What the pass had read.

  /** The pass that ended at step `t` began at step `b`, after the operation had come by its Job as `x`
      says, and after `j` steps it saw the recorded Job, or that it was missing; the status is what that
      means. Unless the Job was deleted in between, it was still the one that was recorded. */
  ghost predicate EndedByJob(c: Config, log: seq<Action>, o: string, st: Status, u: nat,
      x: Launching, b: nat, j: nat, t: nat)
  {
    && x.step < b < j <= t < |log|
    && GotJob(c, log, o, u, x) && PassBegan(c, log[..t], o, u, b)
    && st.jobRef == JobKey(c, o) && st.phase == FinalPhase(SeenOf(Run(c, log[..j]).jobs, st.jobRef))
    && (Undeleted(c, log, JobKey(c, o), x, j) ==> OwnedBy(Run(c, log[..j]).jobs, JobKey(c, o), MakerOf(log, x)))
  }

  /** Nobody deleted the Job since the launching pass had it, and before `j` steps were made. */
  ghost predicate Undeleted(c: Config, log: seq<Action>, key: Ref, x: Launching, j: nat)
    requires x.had <= |log| && j <= |log|
  {
    Run(c, log[..j]).hist.deaths[key] == Run(c, log[..x.had]).hist.deaths[key]
  }

  /** The pass that ended at step `t` began at step `b`, and after `i` steps it saw the cluster and
      after `j` steps objects with which the references are not accepted. */
  ghost predicate EndedByReferences(c: Config, log: seq<Action>, o: string, op: Op, b: nat, i: nat, j: nat, t: nat) {
    && b < i <= j <= t < |log| && PassBegan(c, log[..t], o, op.uid, b)
    && op.spec.cluster in Run(c, log[..i]).clusters
    && !RefsOk(Run(c, log[..i]).clusters[op.spec.cluster], Run(c, log[..j]).objs, op.spec)
  }

  /** The image or an action of the operation is not accepted. */
  predicate EndedByItself(c: Config, op: Op) {
    !ValidImage(c.alnum, op.spec.image) || (op.spec.entry.IsEmpty() && !EntryPoint.ValidActions(op.spec))
  }

  lemma FinishGuard(c: Config, s: State, a: Action)
    requires Inv(c, s) && Enabled(c, s, a) && a.Operator? && a.ctl.WriteOp? && a.ctl.w.Finish? && a.o in s.ops
    ensures var op := s.ops[a.o];
      && op.uid == a.u && a.u in s.hist.names && s.hist.names[a.u] == a.o
      && BegunLaunched(s.hist, a.u) && JobSeen(s.hist, a.u, op.status.jobRef, a.ctl.w.seen, a.ctl.w.i)
      && op.status.jobRef == JobKey(c, a.o)
      && Written(c, a.o, op, a.ctl.w).status.jobRef == JobKey(c, a.o)
      && Written(c, a.o, op, a.ctl.w).status.phase == FinalPhase(a.ctl.w.seen)
  {
    ChangeWrote(c, s, a, a.o);
    assert GoodOp(c, s.hist, s.ops[a.o]) && Registered(s.hist.names, s.rev, a.o, s.ops[a.o]);
    assert LaunchKnown(c, s.hist.names, s.hist.makers, a.u, s.hist.launched[a.u]);
  }

  lemma JobAtPosition(c: Config, log: seq<Action>, o: string, u: nat, job: Ref, seen: Option<seq<Cond>>, i: nat)
    returns (x: Launching, b: nat, j: nat)
    requires u in Run(c, log).hist.names && Run(c, log).hist.names[u] == o
    requires BegunLaunched(Run(c, log).hist, u) && JobSeen(Run(c, log).hist, u, job, seen, i)
    ensures GotJob(c, log, o, u, x) && x.step < b < j <= |log| && PassBegan(c, log, o, u, b)
    ensures SeenOf(Run(c, log[..j]).jobs, job) == seen
  {
    b := PassPosition(c, log, o, u, i);
    x := LaunchMeans(c, log, o, u);
    j := Position(c, log, i);
    LaunchedFirst(c, log, u, x.step, b);
  }

  lemma StillOwned(c: Config, log: seq<Action>, o: string, u: nat, x: Launching, j: nat)
    requires GotJob(c, log, o, u, x) && x.step < j <= |log|
    ensures Undeleted(c, log, JobKey(c, o), x, j) ==> OwnedBy(Run(c, log[..j]).jobs, JobKey(c, o), MakerOf(log, x))
  {
    if Undeleted(c, log, JobKey(c, o), x, j) {
      assert log[..j][..x.had] == log[..x.had];
      OwnerStays(c, log[..j], x.had, JobKey(c, o));
    }
  }

  lemma GotInFront(c: Config, log: seq<Action>, t: nat, o: string, u: nat, x: Launching)
    requires t <= |log| && GotJob(c, log[..t], o, u, x)
    ensures GotJob(c, log, o, u, x) && MakerOf(log, x) == MakerOf(log[..t], x)
  {
    LaunchInFront(c, log, t, u, x.step);
    var front := log[..t];
    assert front[..x.step] == log[..x.step] && front[..x.had] == log[..x.had] && front[..x.looked] == log[..x.looked];
  }

  lemma FinishRead(c: Config, log: seq<Action>, o: string, u: nat, t: nat)
    requires FinishedAt(c, log, o, u, t) && log[t].ctl.w.Finish? && o in Run(c, log[..t]).ops
    ensures var s := Run(c, log[..t]); var w := log[t].ctl.w; var st := Written(c, o, s.ops[o], w).status;
      && u in s.hist.names && s.hist.names[u] == o
      && BegunLaunched(s.hist, u) && JobSeen(s.hist, u, JobKey(c, o), w.seen, w.i)
      && st.jobRef == JobKey(c, o) && st.phase == FinalPhase(w.seen)
  {
    RunKeepsInv(c, log[..t]);
    FinishGuard(c, Run(c, log[..t]), log[t]);
  }

  lemma JobWasRead(c: Config, log: seq<Action>, o: string, u: nat, t: nat)
    returns (x: Launching, b: nat, j: nat)
    requires FinishedAt(c, log, o, u, t) && log[t].ctl.w.Finish? && o in Run(c, log[..t]).ops
    ensures EndedByJob(c, log, o, Written(c, o, Run(c, log[..t]).ops[o], log[t].ctl.w).status, u, x, b, j, t)
  {
    hide Step, GotJob, PassBegan;
    FinishRead(c, log, o, u, t);
    x, b, j := JobAtPosition(c, log[..t], o, u, JobKey(c, o), log[t].ctl.w.seen, log[t].ctl.w.i);
    GotInFront(c, log, t, o, u, x);
    StillOwned(c, log, o, u, x, j);
    assert log[..t][..j] == log[..j];
  }

  lemma LaunchedFirst(c: Config, log: seq<Action>, u: nat, l: nat, b: nat)
    requires LaunchedAt(c, log, u, l) && b < |log| && log[b].Operator? && log[b].ctl.Begin?
    requires Enabled(c, Run(c, log[..b]), log[b])
    requires |Run(c, log[..l]).hist.trail| <= |Run(c, log[..b]).hist.trail|
    ensures l < b
  {
    if b < l {
      assert log[..b + 1] == log[..b] + [log[b]] && log[..l][..b + 1] == log[..b + 1];
      RunAppends(c, log[..b], log[b]);
      TrailStep(c, Run(c, log[..b]), log[b]);
      TrailGrows(c, log[..l], b + 1);
    }
  }

  lemma RefusalGuard(c: Config, s: State, a: Action)
    requires Inv(c, s) && Enabled(c, s, a) && a.Operator? && a.ctl.WriteOp? && a.ctl.w.MarkFailed? && a.o in s.ops
    ensures var op := s.ops[a.o];
      && op.uid == a.u && a.u in s.hist.names && s.hist.names[a.u] == a.o
      && CanFail(c, s.hist, op, a.ctl.w.why)
  {
    ChangeWrote(c, s, a, a.o);
    assert Registered(s.hist.names, s.rev, a.o, s.ops[a.o]);
  }

  lemma ReferencesAtPosition(c: Config, log: seq<Action>, o: string, op: Op, cl: Cluster, i: nat, j: nat)
    returns (b: nat, p: nat, q: nat)
    requires var h := Run(c, log).hist;
      && op.uid in h.names && h.names[op.uid] == o
      && ClusterSeen(h, op.uid, op.spec.cluster, cl, i) && i <= j && InPass(h, op.uid, j)
      && !RefsOk(cl, h.trail[j].objs, op.spec)
    ensures b < p <= q <= |log| && PassBegan(c, log, o, op.uid, b)
    ensures |Run(c, log[..b]).hist.trail| == Run(c, log).hist.begun[op.uid]
    ensures op.spec.cluster in Run(c, log[..p]).clusters && Run(c, log[..p]).clusters[op.spec.cluster] == cl
    ensures !RefsOk(cl, Run(c, log[..q]).objs, op.spec)
  {
    b := PassPosition(c, log, o, op.uid, i);
    p, q := Position(c, log, i), Position(c, log, j);
    PositionsInOrder(c, log, i, j);
    PositionIs(c, log, j);
  }

  lemma RefusalRead(c: Config, log: seq<Action>, o: string, u: nat, t: nat)
    requires FinishedAt(c, log, o, u, t) && log[t].ctl.w.MarkFailed? && o in Run(c, log[..t]).ops
    ensures var s := Run(c, log[..t]); var op := s.ops[o];
      op.uid == u && u in s.hist.names && s.hist.names[u] == o && CanFail(c, s.hist, op, log[t].ctl.w.why)
  {
    RunKeepsInv(c, log[..t]);
    RefusalGuard(c, Run(c, log[..t]), log[t]);
  }

  lemma ReferencesWereRead(c: Config, log: seq<Action>, o: string, u: nat, t: nat) returns (b: nat, i: nat, j: nat)
    requires FinishedAt(c, log, o, u, t) && log[t].ctl.w.MarkFailed? && log[t].ctl.w.why.BadRefs?
    requires o in Run(c, log[..t]).ops
    ensures EndedByReferences(c, log, o, Run(c, log[..t]).ops[o], b, i, j, t)
    ensures u in Run(c, log[..t]).hist.begun && |Run(c, log[..b]).hist.trail| == Run(c, log[..t]).hist.begun[u]
  {
    hide Step;
    var front, why := log[..t], log[t].ctl.w.why;
    RefusalRead(c, log, o, u, t);
    b, i, j := ReferencesAtPosition(c, front, o, Run(c, front).ops[o], why.cl, why.i, why.j);
    assert front[..i] == log[..i] && front[..j] == log[..j] && front[..b] == log[..b];
  }

  lemma ByJob(c: Config, log: seq<Action>, o: string, op: Op, t: nat) returns (x: Launching, b: nat, j: nat)
    requires FinishedFrom(c, log, o, op, t) && log[t].ctl.w.Finish?
    ensures EndedByJob(c, log, o, op.status, op.uid, x, b, j, t)
  {
    x, b, j := JobWasRead(c, log, o, op.uid, t);
  }

  lemma ByReferences(c: Config, log: seq<Action>, o: string, op: Op, t: nat) returns (b: nat, i: nat, j: nat)
    requires FinishedFrom(c, log, o, op, t) && log[t].ctl.w.MarkFailed? && log[t].ctl.w.why.BadRefs?
    ensures op.status.phase == Failed && EndedByReferences(c, log, o, Run(c, log[..t]).ops[o], b, i, j, t)
  {
    b, i, j := ReferencesWereRead(c, log, o, op.uid, t);
  }

  lemma ByItself(c: Config, log: seq<Action>, o: string, op: Op, t: nat)
    requires FinishedFrom(c, log, o, op, t) && log[t].ctl.w.MarkFailed? && !log[t].ctl.w.why.BadRefs?
    ensures op.status.phase == Failed && EndedByItself(c, Run(c, log[..t]).ops[o])
  {
    RefusalRead(c, log, o, op.uid, t);
  }

  const NO_LAUNCHING := Launching(0, 0, 0, 0)

  /** What every finished operation rests on. A step `t` finished it, made by the pass that began at
      step `b`. Succeeded, or Failed on account of the Job: the operation had come by its Job as `x` says
      before that pass began, and after `j` steps the pass saw this Job with conditions of that verdict, or
      that it was missing. Failed otherwise: the operation itself was not acceptable when the step was
      made, or the pass saw references that are not. */
  lemma FinishedMeans(c: Config, log: seq<Action>, o: string)
    returns (x: Launching, b: nat, i: nat, j: nat, t: nat)
    requires o in Run(c, log).ops && Finished(Run(c, log).ops[o].status.phase)
    ensures var op := Run(c, log).ops[o];
      && FinishedFrom(c, log, o, op, t)
      && (|| EndedByJob(c, log, o, op.status, op.uid, x, b, j, t)
          || (op.status.phase == Failed && EndedByItself(c, Run(c, log[..t]).ops[o]))
          || (op.status.phase == Failed && EndedByReferences(c, log, o, Run(c, log[..t]).ops[o], b, i, j, t)))
  {
    x, b, i, j := NO_LAUNCHING, 0, 0, 0;
    t := FinishedSomewhere(c, log, o);
    var op := Run(c, log).ops[o];
    if log[t].ctl.w.Finish? {
      x, b, j := ByJob(c, log, o, op, t);
    } else if log[t].ctl.w.why.BadRefs? {
      b, i, j := ByReferences(c, log, o, op, t);
    } else {
      ByItself(c, log, o, op, t);
    }
  }

  /** Whose Job a Succeeded operation rests on: unless it was deleted in between, the Job that completed is
      the operation's own if and only if there was none, or its own, when the launching pass looked. */
  lemma CompletedIsOwn(c: Config, log: seq<Action>, o: string)
    returns (x: Launching, b: nat, j: nat, t: nat)
    requires o in Run(c, log).ops && Run(c, log).ops[o].status.phase == Succeeded
    ensures EndedByJob(c, log, o, Run(c, log).ops[o].status, Run(c, log).ops[o].uid, x, b, j, t)
    ensures var op := Run(c, log).ops[o]; var jobs := Run(c, log[..j]).jobs;
      && op.status.jobRef in jobs && JobVerdict(jobs[op.status.jobRef].conds) == Succeeded
      && (Undeleted(c, log, op.status.jobRef, x, j) ==>
            (jobs[op.status.jobRef].owner == op.uid <==> FoundNoOther(c, log, o, op.uid, x)))
  {
    var i;
    x, b, i, j, t := FinishedMeans(c, log, o);
  }

  // Under a recorded Job.

  lemma {:induction false} LateEditsStay(c: Config, log: seq<Action>, t: nat)
    requires t <= |log|
    ensures Run(c, log[..t]).hist.editedLate <= Run(c, log).hist.editedLate
  {
    if t == |log| {
      assert log[..t] == log;
    } else {
      var front := log[..|log| - 1];
      assert front[..t] == log[..t];
      LateEditsStay(c, front, t);
    }
  }

  /** The cluster had no SSH reference at some time before the Job was recorded at step `l`, and a pass
      that began after that saw one, whose Secret was missing. */
  ghost predicate SecretCameLater(c: Config, log: seq<Action>, op: Op, p: nat, l: nat, i: nat, j: nat) {
    && p <= l < i <= j <= |log|
    && op.spec.cluster in Run(c, log[..p]).clusters && Run(c, log[..p]).clusters[op.spec.cluster].ssh.IsEmpty()
    && op.spec.cluster in Run(c, log[..i]).clusters
    && SecretMissing(Run(c, log[..i]).clusters[op.spec.cluster], Run(c, log[..j]).objs, op.spec)
  }

  lemma NoSecretBefore(c: Config, log: seq<Action>, o: string, b: nat) returns (p: nat, l: nat)
    requires o in Run(c, log).ops && PassBegan(c, log, o, Run(c, log).ops[o].uid, b)
    requires var s := Run(c, log); var op := s.ops[o];
      && !op.status.jobRef.IsEmpty() && op.uid !in s.hist.editedLate && op.spec.ssh.IsEmpty()
      && BegunLaunched(s.hist, op.uid) && |Run(c, log[..b]).hist.trail| == s.hist.begun[op.uid]
    ensures LaunchedAt(c, log, Run(c, log).ops[o].uid, l) && p <= l < b
    ensures var cluster := Run(c, log).ops[o].spec.cluster;
      cluster in Run(c, log[..p]).clusters && Run(c, log[..p]).clusters[cluster].ssh.IsEmpty()
  {
    RunKeepsInv(c, log);
    var s := Run(c, log);
    var op := s.ops[o];
    assert GoodOp(c, s.hist, op);
    var n := s.hist.launched[op.uid].at;
    var k :| 0 <= k < |s.hist.trail| && k < n
      && op.spec.cluster in s.hist.trail[k].clusters && s.hist.trail[k].clusters[op.spec.cluster].ssh.IsEmpty();
    l := LaunchIsReal(c, log, op.uid);
    LaunchedFirst(c, log, op.uid, l, b);
    p := Position(c, log, k);
    PositionIs(c, log, k);
    PositionBefore(c, log, k, l);
  }

  /** Under a recorded Job only references can be refused. */
  lemma OnlyReferences(c: Config, h: History, op: Op, why: Why)
    requires GoodOp(c, h, op) && !op.status.jobRef.IsEmpty() && op.uid !in h.editedLate && CanFail(c, h, op, why)
    ensures why.BadRefs? && BegunLaunched(h, op.uid) && !op.spec.hosts.IsEmpty() && !op.spec.vars.IsEmpty()
  {
  }

  lemma RefusedByReferences(c: Config, log: seq<Action>, o: string, op: Op, t: nat)
    requires FinishedFrom(c, log, o, op, t) && log[t].ctl.w.MarkFailed?
    requires !op.status.jobRef.IsEmpty() && op.uid !in Run(c, log).hist.editedLate
    ensures var s := Run(c, log[..t]); var was := s.ops[o];
      && log[t].ctl.w.why.BadRefs? && BegunLaunched(s.hist, op.uid) && op.uid !in s.hist.editedLate
      && !was.status.jobRef.IsEmpty() && !was.spec.hosts.IsEmpty() && !was.spec.vars.IsEmpty()
  {
    var s := Run(c, log[..t]);
    LateEditsStay(c, log, t);
    RunKeepsInv(c, log[..t]);
    RefusalGuard(c, s, log[t]);
    OnlyReferences(c, s.hist, s.ops[o], log[t].ctl.w.why);
  }

  lemma RefusedLater(c: Config, log: seq<Action>, o: string, op: Op, t: nat)
    returns (p: nat, l: nat, i: nat, j: nat)
    requires FinishedFrom(c, log, o, op, t) && log[t].ctl.w.MarkFailed?
    requires !op.status.jobRef.IsEmpty() && op.uid !in Run(c, log).hist.editedLate
    ensures LaunchedAt(c, log, op.uid, l) && SecretCameLater(c, log, op, p, l, i, j)
  {
    hide Step;
    var front := log[..t];
    var b;
    RefusedByReferences(c, log, o, op, t);
    b, i, j := ReferencesWereRead(c, log, o, op.uid, t);
    OnlySecretMissing(Run(c, log[..i]).clusters[op.spec.cluster], Run(c, log[..j]).objs, op.spec);
    assert front[..b] == log[..b];
    p, l := NoSecretBefore(c, front, o, b);
    assert front[..p] == log[..p];
    LaunchInFront(c, log, t, op.uid, l);
  }

  /** An operation that was finished under a recorded Job, and that users did not edit since, ended
      through its Job, or its cluster got an SSH reference in the meantime that leads nowhere. */
  lemma FinishedUnderJob(c: Config, log: seq<Action>, o: string)
    returns (x: Launching, p: nat, l: nat, b: nat, i: nat, j: nat, t: nat)
    requires o in Run(c, log).ops && Finished(Run(c, log).ops[o].status.phase)
    requires !Run(c, log).ops[o].status.jobRef.IsEmpty() && Run(c, log).ops[o].uid !in Run(c, log).hist.editedLate
    ensures var op := Run(c, log).ops[o];
      || EndedByJob(c, log, o, op.status, op.uid, x, b, j, t)
      || (op.status.phase == Failed && LaunchedAt(c, log, op.uid, l) && SecretCameLater(c, log, op, p, l, i, j))
  {
    hide Step, EndedByJob, SecretCameLater;
    x, p, l, b, i := NO_LAUNCHING, 0, 0, 0, 0;
    var op := Run(c, log).ops[o];
    t := FinishedSomewhere(c, log, o);
    if log[t].ctl.w.Finish? {
      x, b, j := ByJob(c, log, o, op, t);
    } else {
      p, l, i, j := RefusedLater(c, log, o, op, t);
    }
  }

  /** The cluster of the operation has no SSH reference at any time after its Job was recorded. */
  ghost predicate NoSecretSince(c: Config, log: seq<Action>, op: Op) {
    forall l: nat, p: nat | LaunchedAt(c, log, op.uid, l) && l < p <= |log| ::
      NoSecretIn(Run(c, log[..p]), op.spec.cluster)
  }

  /** Then its Job alone decides. */
  lemma JobAloneDecides(c: Config, log: seq<Action>, o: string)
    returns (x: Launching, b: nat, j: nat, t: nat)
    requires o in Run(c, log).ops && Finished(Run(c, log).ops[o].status.phase)
    requires !Run(c, log).ops[o].status.jobRef.IsEmpty() && Run(c, log).ops[o].uid !in Run(c, log).hist.editedLate
    requires NoSecretSince(c, log, Run(c, log).ops[o])
    ensures EndedByJob(c, log, o, Run(c, log).ops[o].status, Run(c, log).ops[o].uid, x, b, j, t)
  {
    var p, l, i;
    x, p, l, b, i, j, t := FinishedUnderJob(c, log, o);
    if SecretCameLater(c, log, Run(c, log).ops[o], p, l, i, j) && LaunchedAt(c, log, Run(c, log).ops[o].uid, l) {
      assert NoSecretIn(Run(c, log[..i]), Run(c, log).ops[o].spec.cluster);
    }
  }

  /** The Job was there and under way at all times after it was recorded. */
  ghost predicate UnderWaySince(c: Config, log: seq<Action>, op: Op) {
    forall l: nat, p: nat | LaunchedAt(c, log, op.uid, l) && l < p <= |log| ::
      UnderWay(Run(c, log[..p]).jobs, op.status.jobRef)
  }

  predicate UnderWay(jobs: map<Ref, Job>, key: Ref) {
    key in jobs && JobVerdict(jobs[key].conds) == Running
  }

  /** While the Job of an operation is under way the webhook keeps all other operations out of its cluster,
      provided that users neither delete nor edit the operation and the cluster gets no SSH reference. */
  lemma OthersStayOut(c: Config, log: seq<Action>, o: string, name: string)
    requires o in Run(c, log).ops && name != o
    requires !Run(c, log).ops[o].status.jobRef.IsEmpty() && Run(c, log).ops[o].uid !in Run(c, log).hist.editedLate
    requires NoSecretSince(c, log, Run(c, log).ops[o]) && UnderWaySince(c, log, Run(c, log).ops[o])
    ensures !Admits(Run(c, log).ops, name, Run(c, log).ops[o].spec.cluster)
  {
    var op := Run(c, log).ops[o];
    if Finished(op.status.phase) {
      var x, b, j, t := JobAloneDecides(c, log, o);
      assert false;
    }
    RunKeepsInv(c, log);
    assert GoodOp(c, Run(c, log).hist, op);
    assert Blocks(o, op, name, op.spec.cluster);
  }

  predicate NoSecretIn(s: State, cluster: string) {
    cluster in s.clusters ==> s.clusters[cluster].ssh.IsEmpty()
  }

  lemma LaunchInFront(c: Config, log: seq<Action>, t: nat, u: nat, l: nat)
    requires t <= |log| && LaunchedAt(c, log[..t], u, l)
    ensures LaunchedAt(c, log, u, l)
  {
    assert log[..t][..l] == log[..l] && log[..t][l] == log[l];
  }
}
