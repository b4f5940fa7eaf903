/** Theorems about all runs of the control plane: any interleaving of creations, edits, passes of
    the operator that crash or fail anywhere, Job events and deletions. */
module Runs {
  import opened Text
  import opened Objects
  import opened ControlPlane
  import opened Invariants
  import JobVolumes

  lemma {:induction false} RunAppends(c: Config, log: seq<Action>, a: Action)
    ensures Run(c, log + [a]) == Step(c, Run(c, log), a)
  {
    assert (log + [a])[..|log|] == log;
  }

  // Mutual exclusion.

  function SomeSpec(cluster: string): Spec {
    Spec(cluster, Nil, Nil, Nil, Nil, Hook("shell", "true", None, Nil, ""), "image", [], [])
  }

  function MovingRun(): seq<Action> {
    [Others(CreateOp("a", 1, map[], map[], SomeSpec("x"))),
     Others(CreateOp("b", 2, map[], map[], SomeSpec("yy"))),
     Others(EditOp("b", map[], map[], SomeSpec("x")))]
  }

  /** The first `n` steps of the run. */
  lemma MovingRunFront(c: Config, n: nat)
    requires n < 3
    ensures Run(c, MovingRun()[..n + 1]) == Step(c, Run(c, MovingRun()[..n]), MovingRun()[n])
  {
    assert MovingRun()[..n + 1] == MovingRun()[..n] + [MovingRun()[n]];
    RunAppends(c, MovingRun()[..n], MovingRun()[n]);
  }

  lemma MovingRunTwoOps(c: Config)
    ensures var s := Run(c, MovingRun()[..2]);
      s.ops == map["a" := NewOp(1, 0, map[], map[], SomeSpec("x")).(rv := 1)]
                  ["b" := NewOp(2, 0, map[], map[], SomeSpec("yy")).(rv := 2)]
  {
    assert |"x"| != |"yy"| && "a"[0] != "b"[0];
    MovingRunFront(c, 0);
    MovingRunFront(c, 1);
    var s1 := Run(c, MovingRun()[..1]);
    assert MovingRun()[..0] == [];
    assert s1.ops == map["a" := NewOp(1, 0, map[], map[], SomeSpec("x")).(rv := 1)];
  }

  lemma MovingRunStates(c: Config)
    requires c.movable
    ensures var ops := Run(c, MovingRun()).ops;
      && "a" in ops && ops["a"].status.phase == Unset && ops["a"].spec.cluster == "x"
      && "b" in ops && ops["b"].status.phase == Unset && ops["b"].spec.cluster == "x"
  {
    assert "a"[0] != "b"[0];
    MovingRunTwoOps(c);
    MovingRunFront(c, 2);
    assert MovingRun()[..3] == MovingRun();
  }

  lemma MovingRunBreaksExclusion(c: Config)
    requires c.movable
    ensures !Exclusive(Run(c, MovingRun()).ops)
  {
    MovingRunStates(c);
    var ops := Run(c, MovingRun()).ops;
    assert "a"[0] != "b"[0];
    assert Unfinished(ops["a"]) && Unfinished(ops["b"]);
  }

  /** The webhook keeps at most one unfinished operation for each cluster in every run exactly if
      users cannot edit `spec.cluster`, which it does not look at again. */
  lemma MutualExclusion(c: Config)
    ensures (forall log: seq<Action> :: Exclusive(Run(c, log).ops)) <==> !c.movable
  {
    if c.movable {
      MovingRunBreaksExclusion(c);
    } else {
      forall log: seq<Action>
        ensures Exclusive(Run(c, log).ops)
      {
        RunKeepsInv(c, log);
      }
    }
  }

  // The status automaton.

  predicate Moves(p: Phase, q: Phase) {
    || p == q
    || (p == Unset && (q == Running || q == Failed))
    || (p == Running && (q == Succeeded || q == Failed))
  }

  /** One step moves a status along the automaton, and only with the fields that belong to it. */
  lemma StatusMoves(c: Config, s: State, a: Action, o: string)
    requires Inv(c, s) && Enabled(c, s, a)
    requires o in s.ops && o in OpsAfter(c, s, a) && s.ops[o].uid == OpsAfter(c, s, a)[o].uid
    ensures var st, st' := s.ops[o].status, OpsAfter(c, s, a)[o].status;
      && Moves(st.phase, st'.phase)
      && (!st.jobRef.IsEmpty() ==> st'.jobRef == st.jobRef && st'.start == st.start)
      && (st.digest != NoDigest ==> st'.digest == st.digest)
      && (st.modified ==> st'.modified)
      && (Finished(st.phase) ==> st' == st)
  {
    assert Consistent(s.hist.launched, s.ops[o]);
    match ChangeOf(a, o)
    case Same => ChangeSame(c, s, a, o);
    case Wrote => ChangeWrote(c, s, a, o); WriteMoves(c, s.hist, o, s.ops[o], a.ctl.w);
    case Created => ChangeCreated(c, s, a, o);
    case Edited => ChangeEdited(c, s, a, o);
  }

  lemma WriteMoves(c: Config, h: History, o: string, op: Op, w: OpWrite)
    requires CanWrite(c, h, o, op, w) && Consistent(h.launched, op)
    ensures var st, st' := op.status, Written(c, o, op, w).status;
      && Moves(st.phase, st'.phase)
      && (!st.jobRef.IsEmpty() ==> st'.jobRef == st.jobRef && st'.start == st.start)
      && (st.digest != NoDigest ==> st'.digest == st.digest)
      && (st.modified ==> st'.modified)
      && (Finished(st.phase) ==> st' == st)
  {
    if w.Finish? && w.seen.Some? {
      VerdictIsFinal(w.seen.value);
    }
  }

  /** `st'` comes later than `st`: what is recorded stays, and a finished status stays as it is. */
  predicate Leads(st: Status, st': Status) {
    && (!st.jobRef.IsEmpty() ==> st'.jobRef == st.jobRef && st'.start == st.start && st'.phase != Unset)
    && (st.digest != NoDigest ==> st'.digest == st.digest)
    && (st.modified ==> st'.modified)
    && (Finished(st.phase) ==> st' == st)
    && (st.phase == Running ==> st'.phase != Unset)
  }

  ghost predicate AllLead(s: State, s': State) {
    && (forall u | u in s.hist.names :: u in s'.hist.names)
    && (forall o | o in s.ops && o in s'.ops && s.ops[o].uid == s'.ops[o].uid ::
      Leads(s.ops[o].status, s'.ops[o].status))
  }

  /** An operation that is there in two states of a run was not away in between. */
  lemma StaysThere(c: Config, s: State, a: Action, o: string)
    requires Inv(c, s) && Enabled(c, s, a)
    requires o in OpsAfter(c, s, a) && OpsAfter(c, s, a)[o].uid in s.hist.names
    ensures o in s.ops && s.ops[o].uid == OpsAfter(c, s, a)[o].uid
  {
    match ChangeOf(a, o)
    case Same => ChangeSame(c, s, a, o);
    case Wrote => ChangeWrote(c, s, a, o);
    case Created => ChangeCreated(c, s, a, o);
    case Edited => ChangeEdited(c, s, a, o);
  }

  /** Terminal states are absorbing, and the Job reference, the start time, the digest and the
      tamper flag never revert, whatever happens later. */
  lemma {:induction false} StatusNeverReverts(c: Config, log: seq<Action>, more: seq<Action>)
    ensures AllLead(Run(c, log), Run(c, log + more))
  {
    var s := Run(c, log);
    RunKeepsInv(c, log);
    if more == [] {
      assert log + more == log;
    } else {
      var front, a := more[..|more| - 1], more[|more| - 1];
      StatusNeverReverts(c, log, front);
      RunKeepsInv(c, log + front);
      assert log + more == (log + front) + [a];
      RunAppends(c, log + front, a);
      if Enabled(c, Run(c, log + front), a) {
        LeadsOn(c, s, Run(c, log + front), a);
      }
    }
  }

  lemma LeadsOn(c: Config, s: State, s': State, a: Action)
    requires Inv(c, s) && Inv(c, s') && Enabled(c, s', a) && AllLead(s, s')
    ensures AllLead(s, Apply(c, s', a))
  {
    var s'' := Apply(c, s', a);
    forall u | u in s.hist.names
      ensures u in s''.hist.names
    {
      NewUid(c, s', a, u);
    }
    forall o | o in s.ops && o in OpsAfter(c, s', a) && s.ops[o].uid == OpsAfter(c, s', a)[o].uid
      ensures Leads(s.ops[o].status, OpsAfter(c, s', a)[o].status)
    {
      StaysThere(c, s', a, o);
      StatusMoves(c, s', a, o);
      assert Consistent(s.hist.launched, s.ops[o]);
    }
  }

  /** What a status tells in every reachable state. On what a finished one rests is in `Endings`. */
  lemma StatusMeans(c: Config, log: seq<Action>, o: string)
    requires o in Run(c, log).ops
    ensures var op := Run(c, log).ops[o]; var st := op.status;
      && st.phase in {Unset, Running, Succeeded, Failed}
      && (st.phase == Unset ==> st.jobRef.IsEmpty())
      && (st.phase == Running ==> !st.jobRef.IsEmpty() && st.start.Some?)
      && (st.phase == Succeeded ==> !st.jobRef.IsEmpty() && st.start.Some? && st.end.Some?)
      && (!st.jobRef.IsEmpty() ==> st.digest != NoDigest)
      && (!st.jobRef.IsEmpty() && op.uid !in Run(c, log).hist.editedLate ==> st.action == op.spec.main.action)
      && (COMPLETED_LABEL in op.labels ==> Finished(st.phase))
  {
    RunKeepsInv(c, log);
    assert GoodOp(c, Run(c, log).hist, Run(c, log).ops[o]);
  }

  /** Succeeded comes from a condition list whose first true terminal condition is Complete. */
  lemma {:induction false} SucceededMeansComplete(conds: seq<Cond>)
    ensures JobVerdict(conds) == Succeeded <==>
      exists i | 0 <= i < |conds| :: conds[i] == Cond(Complete, true) && NoTerminal(conds[..i])
  {
    if conds != [] {
      SucceededMeansComplete(conds[1..]);
      if conds[0].isTrue && conds[0].kind != OtherCond {
        assert conds[0] in conds[..1];
        if conds[0].kind == Complete {
          assert NoTerminal(conds[..0]);
        }
      } else {
        forall i | 0 <= i < |conds[1..]|
          ensures NoTerminal(conds[1..][..i]) <==> NoTerminal(conds[..i + 1])
        {
          assert conds[..i + 1] == [conds[0]] + conds[1..][..i];
        }
        if JobVerdict(conds) == Succeeded {
          var i :| 0 <= i < |conds[1..]| && conds[1..][i] == Cond(Complete, true) && NoTerminal(conds[1..][..i]);
          assert conds[i + 1] == Cond(Complete, true);
        }
        if i :| 0 <= i < |conds| && conds[i] == Cond(Complete, true) && NoTerminal(conds[..i]) {
          assert conds[1..][i - 1] == Cond(Complete, true);
        }
      }
    }
  }

  predicate NoTerminal(conds: seq<Cond>) {
    forall x | x in conds :: !(x.isTrue && x.kind != OtherCond)
  }

  /** Condition `i` is the first one that says that the Job is over. */
  predicate FirstTerminal(conds: seq<Cond>, i: int) {
    0 <= i < |conds| && conds[i].isTrue && conds[i].kind != OtherCond && NoTerminal(conds[..i])
  }

  lemma {:induction false} FirstDecides(conds: seq<Cond>)
    ensures JobVerdict(conds) == Running <==> NoTerminal(conds)
    ensures forall i | FirstTerminal(conds, i) ::
      JobVerdict(conds) == if conds[i].kind == Complete then Succeeded else Failed
    ensures !NoTerminal(conds) ==> exists i :: FirstTerminal(conds, i)
  {
    if conds != [] {
      var rest := conds[1..];
      FirstDecides(rest);
      assert conds == [conds[0]] + rest;
      if conds[0].isTrue && conds[0].kind != OtherCond {
        assert FirstTerminal(conds, 0);
        assert forall i | i > 0 && FirstTerminal(conds, i) :: conds[0] in conds[..i];
      } else {
        forall i | 0 <= i < |rest|
          ensures FirstTerminal(conds, i + 1) <==> FirstTerminal(rest, i)
        {
          assert conds[..i + 1] == [conds[0]] + rest[..i];
        }
        assert forall i | FirstTerminal(conds, i) :: i > 0 && FirstTerminal(rest, i - 1);
        if i :| FirstTerminal(rest, i) {
          assert FirstTerminal(conds, i + 1);
        }
      }
    }
  }

  /** A Job is under way exactly if no condition says that it is over, and it failed exactly if the first
      one that does is that it failed, that it is about to fail, or that it is suspended. */
  lemma VerdictMeans(conds: seq<Cond>)
    ensures JobVerdict(conds) == Running <==> NoTerminal(conds)
    ensures JobVerdict(conds) == Failed <==>
      exists i :: FirstTerminal(conds, i) && conds[i].kind in {JobFailed, FailureTarget, Suspended}
    ensures JobVerdict(conds) == Succeeded <==> exists i :: FirstTerminal(conds, i) && conds[i].kind == Complete
  {
    FirstDecides(conds);
  }

  // Jobs.

  /** Crash-safe creation: however passes crash and fail, an operation creates at most one Job more
      than Jobs of its name were deleted, and none under another name. So if nobody deletes the
      Job, at most one is ever created. */
  lemma AtMostOneJob(c: Config, log: seq<Action>, u: nat, k: Ref)
    ensures var h := Run(c, log).hist;
      && h.makers[(u, k)] <= 1 + h.deaths[k]
      && (h.makers[(u, k)] > 0 ==> u in h.names && k == JobKey(c, h.names[u]))
  {
    RunKeepsInv(c, log);
    var s := Run(c, log);
    assert s.hist.births[k] == s.hist.deaths[k] + (if k in s.jobs then 1 else 0);
    assert s.hist.makers[(u, k)] <= s.hist.births[k];
    assert s.hist.makers[(u, k)] > 0 ==> (u, k) in s.hist.makers;
  }

  /** Jobs are conserved under every name. */
  lemma {:induction false} JobsConserved(c: Config, log: seq<Action>, k: Ref)
    ensures var s := Run(c, log); s.hist.births[k] == s.hist.deaths[k] + (if k in s.jobs then 1 else 0)
  {
    RunKeepsInv(c, log);
  }

  /** Once its Job reference is persisted an operation never creates a Job again, even if the Job
      vanishes. */
  lemma {:induction false} NoJobAfterLaunch(c: Config, log: seq<Action>, more: seq<Action>, u: nat, k: Ref)
    requires u in Run(c, log).hist.launched
    ensures u in Run(c, log + more).hist.launched
    ensures Run(c, log + more).hist.makers[(u, k)] == Run(c, log).hist.makers[(u, k)]
  {
    if more == [] {
      assert log + more == log;
    } else {
      var front, a := more[..|more| - 1], more[|more| - 1];
      NoJobAfterLaunch(c, log, front, u, k);
      assert log + more == (log + front) + [a];
      RunAppends(c, log + front, a);
      LaunchedMakesNoJob(c, Run(c, log + front), a, u, k);
    }
  }

  lemma LaunchedMakesNoJob(c: Config, s: State, a: Action, u: nat, k: Ref)
    requires u in s.hist.launched
    ensures u in Step(c, s, a).hist.launched
    ensures Step(c, s, a).hist.makers[(u, k)] == s.hist.makers[(u, k)]
  {
    if Enabled(c, s, a) && IsCreateJob(a) {
      assert a.u !in s.hist.launched;
    }
  }

  /** A recorded reference names the Job of this operation's name, and an operation of this name
      created it; if the name was never reused, this operation did. */
  lemma RecordedJobIsOwn(c: Config, log: seq<Action>, o: string)
    requires o in Run(c, log).ops && !Run(c, log).ops[o].status.jobRef.IsEmpty()
    ensures var s := Run(c, log); var op := s.ops[o];
      && op.status.jobRef == JobKey(c, o)
      && (exists m :: (m, op.status.jobRef) in s.hist.makers)
      && ((forall v | v in s.hist.names && s.hist.names[v] == o :: v == op.uid) ==>
            (op.uid, op.status.jobRef) in s.hist.makers)
  {
    RunKeepsInv(c, log);
    var s := Run(c, log);
    var op := s.ops[o];
    assert GoodOp(c, s.hist, op) && Registered(s.hist.names, s.rev, o, op);
    var l := s.hist.launched[op.uid];
    assert LaunchKnown(c, s.hist.names, s.hist.makers, op.uid, l);
    var m := l.maker;
    assert (m, op.status.jobRef) in s.hist.makers;
    assert m in s.hist.names && l.key == JobKey(c, s.hist.names[m]);
    JobNameInjective(c, s.hist.names[m], o);
  }

  lemma JobNameInjective(c: Config, a: string, b: string)
    requires JobKey(c, a) == JobKey(c, b)
    ensures a == b
  {
    var x, y := "kubean-" + a + "-job", "kubean-" + b + "-job";
    assert x[7..|x| - 4] == a && y[7..|y| - 4] == b;
  }

  /** Every Job in the store, whoever made it, has pairwise different volume names and mount paths, and no
      mount without a volume. */
  lemma {:induction false} StoredJobsWellFormed(c: Config, log: seq<Action>, k: Ref)
    requires k in Run(c, log).jobs
    ensures JobVolumes.Accepted(Run(c, log).jobs[k].template)
  {
    RunKeepsInv(c, log);
  }
}
