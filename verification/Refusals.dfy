/** What the validations of a pass say about an operation whose Job is recorded. */
module Refusals {
  import opened Objects
  import opened References
  import opened ControlPlane
  import opened Invariants
  import opened Stages
  import opened Passes

  /** What is there once a Job is recorded, and as long as users do not edit the operation. */
  lemma UneditedUnderJob(c: Config, log: seq<Action>, o: string)
    requires var s := Run(c, log);
      o in s.ops && !s.ops[o].status.jobRef.IsEmpty() && s.ops[o].uid !in s.hist.editedLate
    ensures var op := Run(c, log).ops[o];
      && op.status.digest != NoDigest && ValidImage(c.alnum, op.spec.image)
      && !op.spec.hosts.IsEmpty() && !op.spec.vars.IsEmpty() && !op.spec.entry.IsEmpty()
  {
    RunKeepsInv(c, log);
    assert GoodOp(c, Run(c, log).hist, Run(c, log).ops[o]);
  }

  /** Once a Job is recorded, and as long as users do not edit the operation, the validations of a
      pass refuse it if and only if it has no SSH reference, its cluster has one now, and the Secret
      behind that is not there. */
  lemma RefusedUnderJob(c: Config, log: seq<Action>, o: string)
    requires var s := Run(c, log);
      && o in s.ops && !s.ops[o].status.jobRef.IsEmpty() && s.ops[o].uid !in s.hist.editedLate
      && s.ops[o].spec.cluster in s.clusters
    ensures var s := Run(c, log); var op := s.ops[o]; var cl := s.clusters[op.spec.cluster];
      Rejected(c, op, cl, s.objs) <==> SecretMissing(cl, s.objs, op.spec)
  {
    var s := Run(c, log);
    UneditedUnderJob(c, log, o);
    RejectedForSecret(c, s.ops[o], s.clusters[s.ops[o].spec.cluster], s.objs);
  }

  lemma LiveUnderJob(c: Config, log: seq<Action>, o: string)
    requires o in Run(c, log).ops && Live(Run(c, log).ops[o]) && !Run(c, log).ops[o].status.jobRef.IsEmpty()
    ensures var op := Run(c, log).ops[o]; op.status.phase == Running && COMPLETED_LABEL !in op.labels
  {
    RunKeepsInv(c, log);
    assert GoodOp(c, Run(c, log).hist, Run(c, log).ops[o]);
  }

  /** What an undisturbed pass makes of such an operation, whatever pod it sees running. It refuses it
      exactly then, unless it stops for the pod. It makes the operation Failed exactly then, or when it
      comes to the Job and the Job failed or is missing. And as long as the Job is under way and no Secret
      is missing, it asks to be called again and leaves the operation Running. */
  lemma PassUnderJob(c: Config, log: seq<Action>, s': State, o: string, pod: Option<string>, again: bool)
    requires var s := Run(c, log);
      && o in s.ops && !s.ops[o].status.jobRef.IsEmpty() && s.ops[o].uid !in s.hist.editedLate
      && Live(s.ops[o]) && s.ops[o].spec.cluster in s.clusters
      && PassDone(c, s, s', o, pod, again)
    ensures var s := Run(c, log); var op := s.ops[o]; var cl := s.clusters[op.spec.cluster];
      var missing := SecretMissing(cl, s.objs, op.spec);
      && (FailedNow(s, s', o) <==> !Interrupts(op, pod) && missing)
      && (o in s'.ops && s'.ops[o].status.phase == Failed <==>
            !Interrupts(op, pod) && (missing || (JobDecides(op, cl) && JobPhase(s, op) == Failed)))
      && (JobPhase(s, op) == Running && !missing ==> again && o in s'.ops && s'.ops[o].status.phase == Running)
  {
    RefusedUnderJob(c, log, o);
    LiveUnderJob(c, log, o);
    FailsExactly(c, Run(c, log), s', o, pod, again);
    if JobPhase(Run(c, log), Run(c, log).ops[o]) == Running
       && !Rejected(c, Run(c, log).ops[o], Run(c, log).clusters[Run(c, log).ops[o].spec.cluster], Run(c, log).objs) {
      LiveJobIsFollowed(c, Run(c, log), s', o, pod, again);
    }
  }
}
