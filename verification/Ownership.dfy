/** Whose Job an operation runs with, in every run. */
module Ownership {
  import opened Objects
  import opened ControlPlane
  import opened Invariants
  import opened Trails
  import JobVolumes

  // Where stored Jobs come from.

  /** Step `t` created the Job that is stored under `key` now. */
  ghost predicate CreatedAt(c: Config, log: seq<Action>, key: Ref, job: Job, t: nat) {
    && t < |log| && Enabled(c, Run(c, log[..t]), log[t])
    && IsCreateJob(log[t]) && key == JobKey(c, log[t].o)
    && job.owner == log[t].u && job.template == log[t].ctl.template
  }

  /** Only a creation makes a Job or gives it an owner and a template. */
  lemma JobWasThere(c: Config, s: State, a: Action, key: Ref)
    requires key in Step(c, s, a).jobs
    requires !(Enabled(c, s, a) && IsCreateJob(a) && key == JobKey(c, a.o))
    ensures key in s.jobs && s.jobs[key].owner == Step(c, s, a).jobs[key].owner
    ensures s.jobs[key].template == Step(c, s, a).jobs[key].template
  {
    assert JobsAfter(c, s, a).Keys <= s.jobs.Keys + if IsCreateJob(a) then {JobKey(c, a.o)} else {};
  }

  lemma CreatedStays(c: Config, log: seq<Action>, n: nat, key: Ref, job: Job, job': Job, t: nat)
    requires n <= |log| && CreatedAt(c, log[..n], key, job, t)
    requires job'.owner == job.owner && job'.template == job.template
    ensures CreatedAt(c, log, key, job', t)
  {
    assert log[..n][t] == log[t] && log[..n][..t] == log[..t];
  }

  lemma {:induction false} CreatedSomewhere(c: Config, log: seq<Action>, key: Ref) returns (t: nat)
    requires key in Run(c, log).jobs
    ensures CreatedAt(c, log, key, Run(c, log).jobs[key], t)
  {
    var n := |log| - 1;
    var s := Run(c, log[..n]);
    if Enabled(c, s, log[n]) && IsCreateJob(log[n]) && key == JobKey(c, log[n].o) {
      t := n;
    } else {
      JobWasThere(c, s, log[n], key);
      t := CreatedSomewhere(c, log[..n], key);
      CreatedStays(c, log, n, key, s.jobs[key], Run(c, log).jobs[key], t);
    }
  }

  lemma CreateJobGuard(c: Config, s: State, a: Action)
    requires Enabled(c, s, a) && IsCreateJob(a)
    ensures a.u in s.hist.names && s.hist.names[a.u] == a.o && HasRead(s.hist, a.u, a.ctl.spec)
    ensures JobFor(a.ctl.spec, a.ctl.template) && JobVolumes.Accepted(a.ctl.template)
  {
  }

  /** Every stored Job has the volumes and mounts of the spec that its pass, which began at step `b`, had
      read: it shows the data, the script and the key of that spec at their paths, and two of its mounts
      never have one path. */
  lemma StoredJobFollowsSpec(c: Config, log: seq<Action>, key: Ref) returns (b: nat, t: nat)
    requires key in Run(c, log).jobs
    ensures var job := Run(c, log).jobs[key];
      && CreatedAt(c, log, key, job, t) && PassBegan(c, log[..t], log[t].o, job.owner, b)
      && log[t].o in Run(c, log[..b]).ops && JobFor(Run(c, log[..b]).ops[log[t].o].spec, job.template)
      && JobVolumes.ShowsData(job.template, Run(c, log[..b]).ops[log[t].o].spec) && JobVolumes.Accepted(job.template)
  {
    t := CreatedSomewhere(c, log, key);
    var front, a := log[..t], log[t];
    CreateJobGuard(c, Run(c, front), a);
    RunKeepsInv(c, front);
    var o;
    o, b := BegunIsReal(c, front, a.u);
    PassIsFor(c, front, o, a.u, b, a.o);
    ReadIsReal(c, front, a.o, a.u, b);
    JobVolumes.JobShowsData(a.ctl.spec, a.ctl.template);
    assert front[..b] == log[..b];
  }

  // Jobs stay whose they are.

  lemma {:induction false} DeathsGrow(c: Config, log: seq<Action>, p: nat, key: Ref)
    requires p <= |log|
    ensures Run(c, log[..p]).hist.deaths[key] <= Run(c, log).hist.deaths[key]
  {
    if p == |log| {
      assert log[..p] == log;
    } else {
      var front := log[..|log| - 1];
      assert front[..p] == log[..p];
      DeathsGrow(c, front, p, key);
    }
  }

  lemma OwnerKept(c: Config, s: State, a: Action, key: Ref)
    requires key in s.jobs && Step(c, s, a).hist.deaths[key] <= s.hist.deaths[key]
    ensures OwnedBy(Step(c, s, a).jobs, key, s.jobs[key].owner)
  {
    if Enabled(c, s, a) {
      JobGuardsHold(c, s, a);
    }
  }

  /** A Job that nobody deletes stays there, and it stays the Job of whoever created it. */
  lemma {:induction false} OwnerStays(c: Config, log: seq<Action>, p: nat, key: Ref)
    requires p <= |log| && key in Run(c, log[..p]).jobs
    requires Run(c, log).hist.deaths[key] == Run(c, log[..p]).hist.deaths[key]
    ensures OwnedBy(Run(c, log).jobs, key, Run(c, log[..p]).jobs[key].owner)
  {
    if p == |log| {
      assert log[..p] == log;
    } else {
      var front := log[..|log| - 1];
      assert front[..p] == log[..p];
      DeathsGrow(c, front, p, key);
      DeathsGrow(c, log, |log| - 1, key);
      OwnerStays(c, front, p, key);
      OwnerKept(c, Run(c, front), log[|log| - 1], key);
    }
  }

  // How an operation comes by its Job.

  /** The pass that began at step `began` looked for the Job after `looked` steps, had it after `had`
      steps, and recorded it at step `step`. */
  datatype Launching = Launching(began: nat, looked: nat, had: nat, step: nat)

  /** This is how operation `o` of UID `u` came by its Job: the one that the pass found when it looked for
      it, or else one that it created itself. */
  ghost predicate GotJob(c: Config, log: seq<Action>, o: string, u: nat, x: Launching) {
    && x.began < x.looked <= x.had <= x.step < |log|
    && LaunchedAt(c, log, u, x.step) && PassBegan(c, log[..x.step], o, u, x.began)
    && o in Run(c, log[..x.step]).ops
    && OwnedBy(Run(c, log[..x.had]).jobs, JobKey(c, o), MakerOf(log, x))
    && var look := LookKey(o, Run(c, log[..x.step]).ops[o].spec);
    && if look in Run(c, log[..x.looked]).jobs
       then look == JobKey(c, o) && OwnedBy(Run(c, log[..x.looked]).jobs, look, MakerOf(log, x))
       else MakerOf(log, x) == u
  }

  /** Whose Job was recorded. */
  function MakerOf(log: seq<Action>, x: Launching): nat
    requires x.step < |log| && log[x.step].Operator? && log[x.step].ctl.WriteOp? && log[x.step].ctl.w.SetJobRef?
  {
    log[x.step].ctl.w.find.maker
  }

  lemma LaunchGuard(c: Config, s: State, a: Action)
    requires Enabled(c, s, a) && a.Operator? && a.ctl.WriteOp? && a.ctl.w.SetJobRef?
    ensures a.o in s.ops && s.ops[a.o].uid == a.u && a.u in s.hist.names && s.hist.names[a.u] == a.o
    ensures JobFound(s.hist, a.u, LookKey(a.o, s.ops[a.o].spec), JobKey(c, a.o), a.ctl.w.find)
  {
  }

  lemma FoundAtPositions(c: Config, log: seq<Action>, o: string, u: nat, look: Ref, key: Ref, find: Find)
    returns (b: nat, p: nat, q: nat)
    requires u in Run(c, log).hist.names && Run(c, log).hist.names[u] == o
    requires JobFound(Run(c, log).hist, u, look, key, find)
    ensures b < p <= q <= |log| && PassBegan(c, log, o, u, b) && OwnedBy(Run(c, log[..q]).jobs, key, find.maker)
    ensures if look in Run(c, log[..p]).jobs
      then look == key && OwnedBy(Run(c, log[..p]).jobs, key, find.maker) else find.maker == u
  {
    b := PassPosition(c, log, o, u, find.looked);
    p, q := Position(c, log, find.looked), Position(c, log, find.had);
    PositionsInOrder(c, log, find.looked, find.had);
    PositionIs(c, log, find.had);
  }

  /** In every run: whoever has a recorded Job came by it like this. */
  lemma LaunchMeans(c: Config, log: seq<Action>, o: string, u: nat) returns (x: Launching)
    requires u in Run(c, log).hist.launched && u in Run(c, log).hist.names && Run(c, log).hist.names[u] == o
    ensures GotJob(c, log, o, u, x) && MakerOf(log, x) == Run(c, log).hist.launched[u].maker
    ensures |Run(c, log[..x.step]).hist.trail| == Run(c, log).hist.launched[u].at
  {
    var l := LaunchIsReal(c, log, u);
    var front, a := log[..l], log[l];
    LaunchGuard(c, Run(c, front), a);
    assert log[..|log|] == log;
    NamesStay(c, log, l, u);
    var b, p, q := FoundAtPositions(c, front, o, u, LookKey(o, Run(c, front).ops[o].spec), JobKey(c, o), a.ctl.w.find);
    x := Launching(b, p, q, l);
    assert front[..p] == log[..p] && front[..q] == log[..q];
  }

  /** The launching pass found no Job, or one of this very operation. */
  ghost predicate FoundNoOther(c: Config, log: seq<Action>, o: string, u: nat, x: Launching)
    requires x.looked <= |log| && x.step <= |log| && o in Run(c, log[..x.step]).ops
  {
    var look, jobs := LookKey(o, Run(c, log[..x.step]).ops[o].spec), Run(c, log[..x.looked]).jobs;
    look in jobs ==> jobs[look].owner == u
  }

  /** When the recorded Job is the operation's own: if and only if there was none, or its own, when the
      launching pass looked for it. */
  lemma RecordedIsOwn(c: Config, log: seq<Action>, o: string) returns (x: Launching)
    requires o in Run(c, log).ops && !Run(c, log).ops[o].status.jobRef.IsEmpty()
    ensures var s := Run(c, log); var u := s.ops[o].uid;
      && GotJob(c, log, o, u, x) && u in s.hist.launched && MakerOf(log, x) == s.hist.launched[u].maker
      && (MakerOf(log, x) == u <==> FoundNoOther(c, log, o, u, x))
  {
    var s := Run(c, log);
    RunKeepsInv(c, log);
    assert GoodOp(c, s.hist, s.ops[o]) && Registered(s.hist.names, s.rev, o, s.ops[o]);
    x := LaunchMeans(c, log, o, s.ops[o].uid);
  }
}
