/** The admission decision for new ClusterOperations (pkg/webhooks/clusterops/clusterops_webhook.go). */
module Webhook {
  import opened Objects
  import opened ControlPlane
  import Invariants

  datatype Item = Item(name: string, op: Op)

  datatype Decision = BadRequest | Allowed | NotAcceptable(blocker: string)

  predicate Keeps(item: Item, name: string, cluster: string) {
    Blocks(item.name, item.op, name, cluster)
  }

  /** The first listed operation that keeps the new one out. */
  function FirstBlocker(list: seq<Item>, name: string, cluster: string): Option<string> {
    if list == [] then None
    else if Keeps(list[0], name, cluster) then Some(list[0].name)
    else FirstBlocker(list[1..], name, cluster)
  }

  /** The handler behind the decoding of the request; no list means that listing failed. */
  method Decide(name: string, cluster: string, fetched: Option<seq<Item>>) returns (decision: Decision)
    ensures decision == BadRequest <==> cluster == "" || fetched.None?
    ensures decision == Allowed <==> cluster != "" && fetched.Some? && FirstBlocker(fetched.value, name, cluster).None?
    ensures decision.NotAcceptable? ==>
      fetched.Some? && FirstBlocker(fetched.value, name, cluster) == Some(decision.blocker)
  {
    if cluster == "" {
      return BadRequest;
    }
    if fetched.None? {
      return BadRequest;
    }
    decision := Allowed;
    var list := fetched.value;
    for i := 0 to |list|
      invariant decision == Allowed
      invariant FirstBlocker(list, name, cluster) == FirstBlocker(list[i..], name, cluster)
    {
      assert list[i..][1..] == list[i + 1..];
      var op := list[i].op;
      if op.status.phase == Failed || op.status.phase == Succeeded {
        continue;
      }
      if list[i].name != name && op.spec.cluster == cluster
        && (op.status.phase == Unset || op.status.phase == Running) {
        decision := NotAcceptable(list[i].name);
        break;
      }
    }
  }

  /** `list` is the store's operations, each once, in some order. */
  ghost predicate Lists(list: seq<Item>, ops: map<string, Op>) {
    && (forall item | item in list :: item.name in ops && ops[item.name] == item.op)
    && (forall n | n in ops :: Item(n, ops[n]) in list)
  }

  /** The first of the list that blocks is the one that is named. */
  lemma {:induction false} FirstBlockerIs(list: seq<Item>, name: string, cluster: string)
    ensures FirstBlocker(list, name, cluster).None? <==> forall item | item in list :: !Keeps(item, name, cluster)
    ensures forall i | 0 <= i < |list| && Keeps(list[i], name, cluster)
        && (forall j | 0 <= j < i :: !Keeps(list[j], name, cluster)) ::
      FirstBlocker(list, name, cluster) == Some(list[i].name)
  {
    if list != [] {
      FirstBlockerIs(list[1..], name, cluster);
      assert list == [list[0]] + list[1..];
      assert forall i | 0 < i < |list| :: list[i] == list[1..][i - 1];
    }
  }

  /** The decision is the rule of the step system, in whatever order the operations are listed: no other
      operation of the cluster is without a status or Running. */
  lemma DecisionIsAdmission(list: seq<Item>, ops: map<string, Op>, name: string, cluster: string)
    requires Lists(list, ops)
    ensures FirstBlocker(list, name, cluster).None? <==> Admits(ops, name, cluster)
    ensures Admits(ops, name, cluster) <==>
      forall n | n in ops && n != name && ops[n].spec.cluster == cluster :: ops[n].status.phase !in {Unset, Running}
  {
    FirstBlockerIs(list, name, cluster);
    if Admits(ops, name, cluster) {
      forall item | item in list
        ensures !Keeps(item, name, cluster)
      {
        assert !Blocks(item.name, ops[item.name], name, cluster);
      }
    } else {
      var n :| n in ops && Blocks(n, ops[n], name, cluster);
      assert Item(n, ops[n]) in list && Keeps(Item(n, ops[n]), name, cluster);
    }
  }

  /** The list that the handler meant to fetch: operations without the label of finished ones. The
      code drops the selector it built, so it fetches all. */
  function Unlabelled(list: seq<Item>): seq<Item> {
    if list == [] then []
    else if COMPLETED_LABEL in list[0].op.labels then Unlabelled(list[1..])
    else [list[0]] + Unlabelled(list[1..])
  }

  lemma {:induction false} FilterKeepsDecision(list: seq<Item>, name: string, cluster: string)
    requires forall item | item in list :: Invariants.Labelled(item.op)
    ensures FirstBlocker(Unlabelled(list), name, cluster) == FirstBlocker(list, name, cluster)
  {
    if list != [] {
      assert list == [list[0]] + list[1..];
      FilterKeepsDecision(list[1..], name, cluster);
      if COMPLETED_LABEL !in list[0].op.labels {
        assert Unlabelled(list)[1..] == Unlabelled(list[1..]);
      }
    }
  }

  /** In every reachable state the list filtered by label leads to the same answer, and blames the
      same operation, as the list of all. */
  lemma LabelFilterRefinesScan(c: Config, log: seq<Action>, list: seq<Item>, name: string, cluster: string)
    requires Lists(list, Run(c, log).ops)
    ensures FirstBlocker(Unlabelled(list), name, cluster) == FirstBlocker(list, name, cluster)
  {
    Invariants.RunKeepsInv(c, log);
    var s := Run(c, log);
    forall item | item in list
      ensures Invariants.Labelled(item.op)
    {
      assert Invariants.GoodOp(c, s.hist, s.ops[item.name]);
    }
    FilterKeepsDecision(list, name, cluster);
  }

  /** A creation that the handler allowed in a reachable state is a step of the system, and after it
      the new operation is the only unfinished one of its cluster. */
  lemma AllowedCreation(c: Config, log: seq<Action>, list: seq<Item>, name: string, uid: nat,
      labels: map<string, string>, spec: Spec)
    requires Lists(list, Run(c, log).ops) && FirstBlocker(list, name, spec.cluster).None?
    requires name !in Run(c, log).ops && uid !in Run(c, log).hist.names && spec.cluster != ""
      && COMPLETED_LABEL !in labels
    ensures CanCreate(Run(c, log), name, uid, labels, spec)
    ensures forall n | n in Run(c, log).ops && Invariants.Unfinished(Run(c, log).ops[n]) ::
      Run(c, log).ops[n].spec.cluster != spec.cluster
  {
    DecisionIsAdmission(list, Run(c, log).ops, name, spec.cluster);
    var ops := Run(c, log).ops;
    forall n | n in ops && Invariants.Unfinished(ops[n])
      ensures ops[n].spec.cluster != spec.cluster
    {
      assert !Blocks(n, ops[n], name, spec.cluster);
    }
  }
}
