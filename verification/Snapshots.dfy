/** The history tells the truth about runs, and what follows for backups and for the tamper flag. */
module Snapshots {
  import Text
  import opened Objects
  import opened ControlPlane
  import opened Invariants
  import opened References
  import opened Trails

  // The tamper flag.

  /** At step `t` of the run, users changed the digested text of an operation that had a digest. */
  ghost predicate TampersAt(c: Config, log: seq<Action>, t: nat, u: nat) {
    && t < |log| && log[t].Others? && log[t].env.EditOp? && Enabled(c, Run(c, log[..t]), log[t])
    && var s := Run(c, log[..t]); var o := log[t].env.name;
    && o in s.ops && s.ops[o].uid == u && s.ops[o].status.digest != NoDigest
    && Summary(log[t].env.spec) != Summary(s.ops[o].spec)
  }

  lemma {:induction false} TamperedIsReal(c: Config, log: seq<Action>, u: nat) returns (t: nat)
    requires u in Run(c, log).hist.tampered
    ensures TampersAt(c, log, t, u)
  {
    var front := log[..|log| - 1];
    if u in Run(c, front).hist.tampered {
      t := TamperedIsReal(c, front, u);
      assert log[..t] == front[..t];
    } else {
      t := |log| - 1;
    }
  }

  /** The tamper flag is never set unless users changed the digested text of this very operation
      after its digest was taken: the operator's own writes never set it off. */
  lemma FlagMeansTampering(c: Config, log: seq<Action>, o: string) returns (t: nat)
    requires o in Run(c, log).ops && Run(c, log).ops[o].status.modified
    ensures TampersAt(c, log, t, Run(c, log).ops[o].uid)
  {
    RunKeepsInv(c, log);
    assert GoodOp(c, Run(c, log).hist, Run(c, log).ops[o]);
    t := TamperedIsReal(c, log, Run(c, log).ops[o].uid);
  }

  // Backups.

  /** Step `t` of the run took the backup. */
  ghost predicate TakenAt(c: Config, log: seq<Action>, t: nat, copy: Copy) {
    && t < |log| && log[t].Operator? && log[t].u == copy.uid
    && log[t].ctl.CopyData? && log[t].ctl.copy == copy
    && Enabled(c, Run(c, log[..t]), log[t])
  }

  lemma {:induction false} CopyWasTaken(c: Config, log: seq<Action>, k: Key, copy: Copy) returns (t: nat)
    requires (k, copy) in Run(c, log).hist.copyPast
    ensures TakenAt(c, log, t, copy)
  {
    var front := log[..|log| - 1];
    if (k, copy) in Run(c, front).hist.copyPast {
      t := CopyWasTaken(c, front, k, copy);
      assert log[..t] == front[..t];
    } else {
      t := |log| - 1;
    }
  }

  lemma CopyIsGuarded(c: Config, s: State, a: Action)
    requires Enabled(c, s, a) && a.Operator? && a.ctl.CopyData?
    ensures CanCopy(c, s, a.u, a.ctl.copy, a.ctl.cl, a.ctl.i, a.ctl.j)
    ensures a.u in s.hist.names && s.hist.names[a.u] == a.o
  {
  }

  /** The copy was taken at step `t`, by the pass that began at step `b`; this pass read, after `i`
      steps, the cluster, which had the reference that was copied, and then, after `j` steps, the
      object behind that reference, which had the content that was copied. */
  ghost predicate Taken(c: Config, log: seq<Action>, copy: Copy, b: nat, i: nat, j: nat, t: nat) {
    && TakenAt(c, log, t, copy) && b < i <= j <= t
    && PassBegan(c, log[..t], log[t].o, copy.uid, b)
    && HadReference(Run(c, log[..i]), copy)
    && HadContent(Run(c, log[..j]), copy)
  }

  predicate HadReference(s: State, copy: Copy) {
    copy.cluster in s.clusters && ClusterRef(s.clusters[copy.cluster], copy.slot) == copy.src
  }

  predicate HadContent(s: State, copy: Copy) {
    var key := KeyOf(KindOf(copy.slot), copy.src);
    key in s.objs && s.objs[key].data == copy.data
  }

  lemma CopyWasRead(c: Config, log: seq<Action>, t: nat, copy: Copy) returns (b: nat, i: nat, j: nat)
    requires TakenAt(c, log, t, copy)
    ensures Taken(c, log, copy, b, i, j, t)
  {
    var front, a := log[..t], log[t];
    CopyIsGuarded(c, Run(c, front), a);
    b := PassPosition(c, front, a.o, copy.uid, a.ctl.i);
    i := Position(c, front, a.ctl.i);
    j := Position(c, front, a.ctl.j);
    PositionsInOrder(c, front, a.ctl.i, a.ctl.j);
    PositionIs(c, front, a.ctl.j);
    assert front[..i] == log[..i] && front[..j] == log[..j];
  }

  lemma CopyWasGenuine(c: Config, log: seq<Action>, k: Key, copy: Copy) returns (b: nat, i: nat, j: nat, t: nat)
    requires (k, copy) in Run(c, log).hist.copyPast
    ensures Taken(c, log, copy, b, i, j, t)
  {
    t := CopyWasTaken(c, log, k, copy);
    b, i, j := CopyWasRead(c, log, t, copy);
  }

  /** A reference that the operator filled in leads to the data that the cluster's reference led to
      while the pass that took the backup was under way. The backup still has that content now, unless
      users wrote or deleted it, and the operation still names the backup, unless users edited its
      spec. */
  lemma BackupIsSnapshot(c: Config, log: seq<Action>, u: nat, slot: Slot) returns (b: nat, i: nat, j: nat, t: nat)
    requires (u, slot) in Run(c, log).hist.fills
    ensures var s := Run(c, log); var fill := s.hist.fills[(u, slot)]; var copy := fill.copy;
      && copy.uid == u && copy.slot == slot && fill.key == CopyKey(c, copy)
      && Taken(c, log, copy, b, i, j, t)
      && (fill.key !in s.hist.touched ==> fill.key in s.objs && s.objs[fill.key].data == copy.data)
      && (forall o | o in s.ops && s.ops[o].uid == u && u !in s.hist.edited ::
            KeyOf(KindOf(slot), SpecRef(s.ops[o].spec, slot)) == fill.key && s.ops[o].spec.cluster == copy.cluster)
  {
    RunKeepsInv(c, log);
    var s := Run(c, log);
    var fill := s.hist.fills[(u, slot)];
    assert (fill.key, fill.copy) in s.hist.copyPast;
    b, i, j, t := CopyWasGenuine(c, log, fill.key, fill.copy);
    forall o | o in s.ops && s.ops[o].uid == u && u !in s.hist.edited
      ensures KeyOf(KindOf(slot), SpecRef(s.ops[o].spec, slot)) == fill.key
        && s.ops[o].spec.cluster == fill.copy.cluster
    {
      assert GoodOp(c, s.hist, s.ops[o]);
    }
  }

  /** Reference `to` names a copy of the object that reference `from` led to after `j` steps, as long as users
      leave it alone. */
  ghost predicate IsCopy(c: Config, log: seq<Action>, kind: Kind, from: Ref, to: Ref, j: nat)
    requires j <= |log|
  {
    && from.Ref? && from.name != "" && Key(kind, from.ns, from.name) in Run(c, log[..j]).objs
    && (exists stamp: nat :: to == Ref(c.ns, from.name + Text.Stamp(stamp)))
    && var s, key := Run(c, log), Key(kind, c.ns, to.Name());
    && (key !in s.hist.touched ==>
          key in s.objs && s.objs[key].data == Run(c, log[..j]).objs[Key(kind, from.ns, from.name)].data)
  }

  /** Field by field: the hosts of an operation, if the operator filled them in, are a copy of the hosts of
      its cluster, its vars of the vars, and its SSH secret of the SSH secret. */
  lemma FieldsAreSnapshots(c: Config, log: seq<Action>, o: string, slot: Slot)
    returns (i: nat, j: nat)
    requires var s := Run(c, log);
      o in s.ops && s.ops[o].uid !in s.hist.edited && (s.ops[o].uid, slot) in s.hist.fills
    ensures i <= j <= |log| && Run(c, log).ops[o].spec.cluster in Run(c, log[..i]).clusters
    ensures var spec := Run(c, log).ops[o].spec; var cl := Run(c, log[..i]).clusters[spec.cluster];
      match slot
      case Hosts => IsCopy(c, log, ConfigMap, cl.hosts, spec.hosts, j)
      case Vars => IsCopy(c, log, ConfigMap, cl.vars, spec.vars, j)
      case Ssh => IsCopy(c, log, Secret, cl.ssh, spec.ssh, j)
  {
    hide Step, Enabled, Text.Stamp;
    var s := Run(c, log);
    var u := s.ops[o].uid;
    var b, t;
    b, i, j, t := BackupIsSnapshot(c, log, u, slot);
    CopiedByGuard(c, Run(c, log[..t]), log[t]);
    FilledFromCopy(c, log, o, slot);
    var copy := s.hist.fills[(u, slot)].copy;
    assert CopyRef(c, copy) == Ref(c.ns, copy.src.name + Text.Stamp(copy.stamp));
  }

  lemma FilledFromCopy(c: Config, log: seq<Action>, o: string, slot: Slot)
    requires var s := Run(c, log);
      o in s.ops && s.ops[o].uid !in s.hist.edited && (s.ops[o].uid, slot) in s.hist.fills
    ensures var s := Run(c, log); SpecRef(s.ops[o].spec, slot) == CopyRef(c, s.hist.fills[(s.ops[o].uid, slot)].copy)
  {
    RunKeepsInv(c, log);
    assert GoodOp(c, Run(c, log).hist, Run(c, log).ops[o]);
  }

  lemma CopiedByGuard(c: Config, s: State, a: Action)
    requires Enabled(c, s, a) && a.Operator? && a.ctl.CopyData?
    ensures !a.ctl.copy.src.IsEmpty()
  {
  }

  /** Two backups of one name are one backup: timestamps keep them apart from each other, and they
      never have the name of an entrypoint script. */
  lemma BackupNamesAreOwn(c: Config, x: Copy, y: Copy, o: string)
    ensures CopyKey(c, x) == CopyKey(c, y) ==> x.src.Name() == y.src.Name() && x.stamp == y.stamp
    ensures CopyKey(c, x) != EntryKey(c, o)
  {
    if CopyKey(c, x) == CopyKey(c, y) {
      Text.StampedNameInjective(x.src.Name(), x.stamp, y.src.Name(), y.stamp);
    }
    Text.StampedNameIsNoEntrypoint(x.src.Name(), x.stamp, o);
  }
}
