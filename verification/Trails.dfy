/** Places in the trail as positions in the run: what a guard says about a place in the trail was so
    after that many steps. */
module Trails {
  import opened Objects
  import opened ControlPlane
  import opened Invariants

  /** After how many steps the trail first had place `i`. */
  function Position(c: Config, log: seq<Action>, i: nat): (p: nat)
    requires i < |Run(c, log).hist.trail|
    ensures p <= |log|
  {
    if log == [] then 0
    else
      var front := log[..|log| - 1];
      if i < |Run(c, front).hist.trail| then Position(c, front, i) else |log|
  }

  lemma TrailStep(c: Config, s: State, a: Action)
    ensures var trail, trail' := s.hist.trail, Step(c, s, a).hist.trail;
      trail <= trail' && |trail'| <= |trail| + 1 && (Enabled(c, s, a) <==> |trail'| == |trail| + 1)
  {
  }

  /** The world after `Position` steps is the one at that place. */
  lemma {:induction false} PositionIs(c: Config, log: seq<Action>, i: nat)
    requires i < |Run(c, log).hist.trail|
    ensures WorldOf(Run(c, log[..Position(c, log, i)])) == Run(c, log).hist.trail[i]
  {
    if log == [] {
    } else {
      var front := log[..|log| - 1];
      TrailStep(c, Run(c, front), log[|log| - 1]);
      if i < |Run(c, front).hist.trail| {
        PositionIs(c, front, i);
        assert log[..Position(c, log, i)] == front[..Position(c, front, i)];
      } else {
        RunKeepsInv(c, log);
        assert log[..|log|] == log;
      }
    }
  }

  lemma {:induction false} PositionsInOrder(c: Config, log: seq<Action>, i: nat, j: nat)
    requires i <= j < |Run(c, log).hist.trail|
    ensures Position(c, log, i) <= Position(c, log, j)
  {
    if log != [] && j < |Run(c, log[..|log| - 1]).hist.trail| {
      PositionsInOrder(c, log[..|log| - 1], i, j);
    }
  }

  /** A place that was not there yet before step `t` is reached after it. */
  lemma {:induction false} PositionAfter(c: Config, log: seq<Action>, i: nat, t: nat)
    requires t < |log| && |Run(c, log[..t]).hist.trail| <= i < |Run(c, log).hist.trail|
    ensures t < Position(c, log, i)
  {
    var front := log[..|log| - 1];
    if i < |Run(c, front).hist.trail| {
      assert log[..|front|] == front;
      assert log[..t] == front[..t];
      PositionAfter(c, front, i, t);
    }
  }

  /** Step `b` is where the last pass for UID `u` in this run began. */
  ghost predicate PassBegan(c: Config, log: seq<Action>, o: string, u: nat, b: nat) {
    && b < |log| && log[b] == Operator(o, u, Begin) && Enabled(c, Run(c, log[..b]), log[b])
    && forall k | b < k < |log| && log[k].Operator? && log[k].u == u && log[k].ctl.Begin? ::
         !Enabled(c, Run(c, log[..k]), log[k])
  }

  predicate IsBegin(a: Action, u: nat) {
    a.Operator? && a.u == u && a.ctl.Begin?
  }

  lemma BegunStays(c: Config, log: seq<Action>, n: nat, o: string, u: nat, b: nat)
    requires n + 1 == |log| && PassBegan(c, log[..n], o, u, b)
    requires !(Enabled(c, Run(c, log[..n]), log[n]) && IsBegin(log[n], u))
    ensures PassBegan(c, log, o, u, b)
  {
    var front := log[..n];
    assert front[b] == log[b] && front[..b] == log[..b];
    forall k | b < k < |log| && log[k].Operator? && log[k].u == u && log[k].ctl.Begin?
      ensures !Enabled(c, Run(c, log[..k]), log[k])
    {
      if k < n {
        assert front[k] == log[k] && front[..k] == log[..k];
      }
    }
  }

  lemma {:induction false} BegunIsReal(c: Config, log: seq<Action>, u: nat) returns (o: string, b: nat)
    requires u in Run(c, log).hist.begun
    ensures PassBegan(c, log, o, u, b) && |Run(c, log[..b]).hist.trail| == Run(c, log).hist.begun[u]
  {
    var n := |log| - 1;
    if Enabled(c, Run(c, log[..n]), log[n]) && IsBegin(log[n], u) {
      o, b := log[n].o, n;
    } else {
      o, b := BegunIsReal(c, log[..n], u);
      BegunStays(c, log, n, o, u, b);
      assert log[..n][..b] == log[..b];
    }
  }

  /** The pass read the operation as it was when it began. */
  lemma {:induction false} ReadIsReal(c: Config, log: seq<Action>, o: string, u: nat, b: nat)
    requires PassBegan(c, log, o, u, b)
    ensures o in Run(c, log[..b]).ops && HasRead(Run(c, log).hist, u, Run(c, log[..b]).ops[o].spec)
  {
    var n := |log| - 1;
    var front := log[..n];
    if b == n {
    } else {
      assert front[..b] == log[..b];
      forall k | b < k < n && front[k].Operator? && front[k].u == u && front[k].ctl.Begin?
        ensures !Enabled(c, Run(c, front[..k]), front[k])
      {
        assert front[k] == log[k] && front[..k] == log[..k];
      }
      ReadIsReal(c, front, o, u, b);
    }
  }

  /** Step `l` persisted the reference to a Job for UID `u`. */
  ghost predicate LaunchedAt(c: Config, log: seq<Action>, u: nat, l: nat) {
    && l < |log| && log[l].Operator? && log[l].u == u && log[l].ctl.WriteOp? && log[l].ctl.w.SetJobRef?
    && Enabled(c, Run(c, log[..l]), log[l])
  }

  lemma {:induction false} LaunchIsReal(c: Config, log: seq<Action>, u: nat) returns (l: nat)
    requires u in Run(c, log).hist.launched
    ensures LaunchedAt(c, log, u, l) && |Run(c, log[..l]).hist.trail| == Run(c, log).hist.launched[u].at
    ensures Run(c, log).hist.launched[u].maker == log[l].ctl.w.find.maker
  {
    var n := |log| - 1;
    var front, a := log[..n], log[n];
    if Enabled(c, Run(c, front), a) && a.Operator? && a.u == u && a.ctl.WriteOp? && a.ctl.w.SetJobRef? {
      l := n;
    } else {
      l := LaunchIsReal(c, front, u);
      assert front[l] == log[l] && front[..l] == log[..l];
    }
  }

  lemma PassIsFor(c: Config, log: seq<Action>, o': string, u: nat, b: nat, o: string)
    requires PassBegan(c, log, o', u, b) && u in Run(c, log).hist.names && Run(c, log).hist.names[u] == o
    ensures o' == o
  {
    assert log[..|log|] == log;
    NamesStay(c, log, b, u);
  }

  lemma {:induction false} NamesStay(c: Config, log: seq<Action>, b: nat, u: nat)
    requires b <= |log| && u in Run(c, log[..b]).hist.names
    ensures u in Run(c, log).hist.names && Run(c, log).hist.names[u] == Run(c, log[..b]).hist.names[u]
  {
    if b == |log| {
      assert log[..b] == log;
    } else {
      var front := log[..|log| - 1];
      assert front[..b] == log[..b];
      NamesStay(c, front, b, u);
      if Enabled(c, Run(c, front), log[|log| - 1]) {
        NewUid(c, Run(c, front), log[|log| - 1], u);
      }
    }
  }

  /** A place that the last pass for `u` can have seen is a position after its beginning. */
  lemma PassPosition(c: Config, log: seq<Action>, o: string, u: nat, i: nat) returns (b: nat)
    requires InPass(Run(c, log).hist, u, i)
    requires u in Run(c, log).hist.names && Run(c, log).hist.names[u] == o
    ensures PassBegan(c, log, o, u, b) && |Run(c, log[..b]).hist.trail| == Run(c, log).hist.begun[u]
    ensures b < Position(c, log, i) <= |log|
    ensures WorldOf(Run(c, log[..Position(c, log, i)])) == Run(c, log).hist.trail[i]
  {
    var o';
    o', b := BegunIsReal(c, log, u);
    PassIsFor(c, log, o', u, b, o);
    PositionAfter(c, log, i, b);
    PositionIs(c, log, i);
  }

  lemma {:induction false} TrailGrows(c: Config, log: seq<Action>, p: nat)
    requires p <= |log|
    ensures |Run(c, log[..p]).hist.trail| <= |Run(c, log).hist.trail|
  {
    if p == |log| {
      assert log[..p] == log;
    } else {
      var front := log[..|log| - 1];
      TrailGrows(c, front, p);
      assert front[..p] == log[..p];
      TrailStep(c, Run(c, front), log[|log| - 1]);
    }
  }

  /** A place that was there before step `l` is reached before it. */
  lemma {:induction false} PositionBefore(c: Config, log: seq<Action>, i: nat, l: nat)
    requires l <= |log| && i < |Run(c, log[..l]).hist.trail| && i < |Run(c, log).hist.trail|
    ensures Position(c, log, i) <= l
  {
    if l == |log| {
    } else {
      var front := log[..|log| - 1];
      assert front[..l] == log[..l];
      TrailGrows(c, front, l);
      PositionBefore(c, front, i, l);
    }
  }
}
