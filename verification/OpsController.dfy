/** The reconciler of ClusterOperations (pkg/controllers/clusterops/controller.go), call by call.

    Every method keeps `api.Valid()`: whatever fails and whoever acts in between, the store stays
    the result of a run of the step system, so the theorems about runs hold after every single call
    and therefore at every crash. What a method achieves is stated for a server where nobody else
    acts (`quiet`) and calls do not fail without a reason (`reliable`). Methods that only pass facts on
    hide the definitions behind them. */
module OpsController {
  import opened Text
  import opened Objects
  import opened References
  import opened ControlPlane
  import opened ApiServer
  import opened Stages
  import opened Passes
  import HookData
  import EntryPoint
  import JobVolumes
  import OwnerRefs
  import Invariants

  const RETRY_COUNT := 5

  datatype ErrorKind = NoError | WrongArgs | OtherError

  class Controller {
    const api: Server

    constructor (api: Server)
      ensures this.api == api
    {
      this.api := api;
    }

    ghost predicate Calm()
    {
      api.quiet && api.reliable
    }

    /** The memory holds what the server gave, except perhaps for labels. */
    ghost predicate InMemory(obj: ClusterOp)
      reads obj
    {
      && obj.rv == obj.base.rv && obj.annotations == obj.base.annotations && obj.owners == obj.base.owners
      && obj.spec == obj.base.spec && obj.status == obj.base.status
    }

    // Digest and tamper flag.

    /** The loop of `CalSalt` over one list of hooks. */
    method AppendHooks(text: string, hooks: seq<Hook>) returns (r: string)
      ensures r == text + HookText(hooks)
    {
      r := text;
      for i := 0 to |hooks|
        invariant r == text + HookText(hooks[..i])
      {
        var front, next := hooks[..i], hooks[..i + 1];
        assert next[..i] == front && next[i] == hooks[i];
        assert HookText(next) == HookText(front) + hooks[i].actionType + TrimSpace(hooks[i].action);
        r := r + hooks[i].actionType + TrimSpace(hooks[i].action);
      }
      assert hooks[..|hooks|] == hooks;
    }

    method CalSaltOf(spec: Spec) returns (digest: Digest)
      ensures digest == CalSalt(spec)
    {
      var summary := "kubean" + spec.cluster + spec.main.actionType + TrimSpace(spec.main.action) + spec.image;
      summary := AppendHooks(summary, spec.preHook);
      summary := AppendHooks(summary, spec.postHook);
      digest := Md5(summary);
    }

    method UpdateClusterOpsStatusDigest(obj: ClusterOp) returns (requeue: bool, err: bool)
      requires api.Knows(obj) && obj.Loaded(obj.base)
      modifies api, obj
      ensures api.Valid() && old(api.log) <= api.log && Later(obj.uid, old(api.st), api.st)
      ensures !requeue && !err ==> api.Knows(obj) && obj.Loaded(obj.base) && obj.base == old(obj.base)
      ensures !requeue && !err ==> obj.base.status.digest != NoDigest && api.st == old(api.st)
      ensures Calm() && old(api.Current(obj)) ==> !err && requeue == (old(obj.base).status.digest == NoDigest)
      ensures api.quiet && requeue ==> OpWritten(api.c, old(api.st), api.st, obj.name, old(obj.base), TakeDigest)
    {
      if obj.status.digest != NoDigest {
        return false, false;
      }
      var digest := CalSaltOf(obj.spec);
      obj.status := obj.status.(digest := digest);
      var ok := api.StatusUpdate(obj, TakeDigest);
      return ok, !ok;
    }

    method UpdateStatusHasModified(obj: ClusterOp) returns (requeue: bool, err: bool)
      requires api.Knows(obj) && obj.Loaded(obj.base)
      modifies api, obj
      ensures api.Valid() && old(api.log) <= api.log && Later(obj.uid, old(api.st), api.st)
      ensures !requeue && !err ==>
        api.Knows(obj) && obj.Loaded(obj.base) && obj.base == old(obj.base) && api.st == old(api.st)
      ensures Calm() && old(api.Current(obj)) ==>
        !err && forall cl :: requeue == Lacks(old(obj.base), cl, FlagStage)
      ensures api.quiet && requeue ==> OpWritten(api.c, old(api.st), api.st, obj.name, old(obj.base), FlagModified)
    {
      if obj.status.digest == NoDigest {
        return false, false;
      }
      if obj.status.modified {
        return false, false;
      }
      var digest := CalSaltOf(obj.spec);
      if obj.status.digest != digest {
        obj.status := obj.status.(modified := true);
        var ok := api.StatusUpdate(obj, FlagModified);
        return ok, !ok;
      }
      return false, false;
    }

    // Reading the Job.

    /** The status that conditions stand for, as the two loops over them compute it. */
    method ReadConditions(conds: seq<Cond>) returns (phase: Phase)
      ensures phase == JobVerdict(conds) && (phase == Running || Finished(phase))
    {
      for i := 0 to |conds|
        invariant JobVerdict(conds) == JobVerdict(conds[i..])
      {
        assert conds[i..][1..] == conds[i + 1..];
        if conds[i].kind == Complete && conds[i].isTrue {
          return Succeeded;
        }
        if conds[i].kind == JobFailed && conds[i].isTrue {
          return Failed;
        }
        if conds[i].kind == FailureTarget && conds[i].isTrue {
          return Failed;
        }
        if conds[i].kind == Suspended && conds[i].isTrue {
          return Failed;
        }
      }
      return Running;
    }

    /** `FetchJobConditionStatusAndCompletionTime`; `seen` is what the verdict rests on. */
    method FetchJobStatus(obj: ClusterOp)
      returns (err: bool, phase: Phase, completion: Option<int>, seen: Option<seq<Cond>>)
      requires api.Knows(obj) && InMemory(obj)
      modifies api
      ensures old(api.log) <= api.log && Later(obj.uid, old(api.st), api.st)
      ensures api.Knows(obj) && (api.quiet ==> api.st == old(api.st))
      ensures !err ==>
        !obj.base.status.jobRef.IsEmpty() && phase == FinalPhase(seen) && (phase == Running || Finished(phase))
      ensures !err ==> seen == SeenOf(api.st.jobs, obj.base.status.jobRef)
      ensures !err ==> JobSeen(api.st.hist, obj.uid, obj.base.status.jobRef, seen, api.Now())
      ensures Calm() ==> (err <==> obj.base.status.jobRef.IsEmpty())
      ensures Calm() && !err && phase != Running ==>
        completion.GetOr(api.st.now) == EndOf(api.st, obj.base.status.jobRef)
    {
      if obj.status.jobRef.IsEmpty() {
        return true, Unset, None, None;
      }
      var job := api.GetJob(obj, obj.status.jobRef);
      if job.Missing? {
        return false, Failed, None, None;
      }
      if job.Broken? {
        return true, Unset, None, None;
      }
      phase := ReadConditions(job.value.conds);
      completion := if phase == Running then None else job.value.completion;
      return false, phase, completion, Some(job.value.conds);
    }

    /** The end of `UpdateStatusLoop`: the Job is finished or gone, as it was seen at place `at`. */
    method RecordEnd(obj: ClusterOp, phase: Phase, completion: Option<int>, seen: Option<seq<Cond>>, at: nat)
      returns (ok: bool)
      requires api.Knows(obj) && InMemory(obj) && !obj.base.status.jobRef.IsEmpty()
      requires phase == FinalPhase(seen) && Finished(phase)
      requires JobSeen(api.st.hist, obj.uid, obj.base.status.jobRef, seen, at)
      modifies api, obj
      ensures api.Valid() && old(api.log) <= api.log && Later(obj.uid, old(api.st), api.st)
      ensures ok ==> api.Tracks(obj) && obj.Loaded(obj.base) && api.Current(obj)
      ensures ok ==> Finished(obj.base.status.phase) && obj.base.labels == old(obj.base).labels
      ensures Calm() && old(api.Current(obj)) ==>
        ok && EndedNow(old(api.st), api.st, obj.name, old(obj.base), seen, completion.GetOr(old(api.st).now))
    {
      var end := completion.GetOr(api.st.now);
      obj.status := obj.status.(phase := phase, end := Some(end));
      ok := api.StatusUpdate(obj, Finish(seen, end, at));
    }

    method UpdateStatusLoop(obj: ClusterOp) returns (requeue: bool, err: bool)
      requires api.Knows(obj) && InMemory(obj)
      modifies api, obj
      ensures api.Valid() && old(api.log) <= api.log && Later(obj.uid, old(api.st), api.st)
      ensures !requeue && !err ==> api.Tracks(obj) && InMemory(obj) && !Invariants.Unfinished(obj.base)
      ensures !requeue && !err && !old(obj.base).status.phase.Other? ==> Finished(obj.base.status.phase)
      ensures !requeue && !err && Finished(obj.base.status.phase) ==>
        obj.Loaded(obj.base) && api.Current(obj) && obj.base.labels == old(obj.base).labels
      ensures Calm() && old(api.Current(obj)) && HasJob(old(obj.base)) ==>
        var seen := SeenOf(old(api.st).jobs, old(obj.base).status.jobRef);
        && !err && (requeue <==> FinalPhase(seen) == Running)
        && (requeue ==> api.st == old(api.st))
        && (!requeue ==>
              && api.Current(obj) && Finished(obj.base.status.phase)
              && EndedNow(old(api.st), api.st, obj.name, old(obj.base), seen,
                  EndOf(old(api.st), old(obj.base).status.jobRef)))
    {
      hide Step;
      if obj.status.phase == Running || obj.status.phase == Unset {
        var failed, phase, completion, seen := FetchJobStatus(obj);
        if failed {
          return false, true;
        }
        if phase == Running {
          return true, false;
        }
        var ok := RecordEnd(obj, phase, completion, seen, api.Now());
        return false, !ok;
      }
      return false, false;
    }

    method UpdateStatusForLabel(obj: ClusterOp) returns (err: bool)
      requires api.Valid() && api.Tracks(obj) && InMemory(obj)
      requires Finished(obj.base.status.phase) ==> obj.Loaded(obj.base)
      modifies api, obj
      ensures api.Valid() && old(api.log) <= api.log && Later(obj.uid, old(api.st), api.st)
      ensures Calm() && old(api.Current(obj)) && Finished(old(obj.base).status.phase) ==>
        !err && Marked(old(api.st), api.st, obj.name, old(obj.base))
      ensures api.quiet && old(api.Current(obj)) && Finished(old(obj.base).status.phase) ==> Over(api.st, obj.name)
    {
      if COMPLETED_LABEL in obj.labels && obj.labels[COMPLETED_LABEL] == "done" {
        return false;
      }
      if Finished(obj.status.phase) {
        obj.labels := obj.labels[COMPLETED_LABEL := "done"];
        var ok := api.Update(obj, MarkDone);
        return !ok;
      }
      return false;
    }

    // Before the stages.

    /** The first half of `TrySuspendPod`: the running pod of a Job that is under way, with the Job as it
        was read and the place of that in the trail. */
    method FindActor(obj: ClusterOp) returns (seen: Option<(string, Job, nat)>)
      requires api.Knows(obj) && obj.Loaded(obj.base)
      modifies api
      ensures api.Knows(obj) && old(api.log) <= api.log && Later(obj.uid, old(api.st), api.st)
      ensures api.quiet ==> api.st == old(api.st)
      ensures api.quiet && Settled(api.st.jobs, obj.base.status.jobRef) ==> seen.None?
      ensures seen.Some? ==> !obj.base.status.jobRef.IsEmpty() && seen.value.2 < |api.st.hist.trail|
      ensures api.quiet && seen.Some? ==>
        JobKept(api.st.hist.trail, obj.base.status.jobRef, seen.value.1, seen.value.2)
    {
      hide Step;
      if obj.status.jobRef.IsEmpty() {
        return None;
      }
      var job := api.GetJob(obj, obj.status.jobRef);
      var at := api.Now();
      if !job.Found? || job.value.suspend {
        return None;
      }
      var phase := ReadConditions(job.value.conds);
      if phase != Running {
        return None;
      }
      api.TrailEnds();
      var pod := api.RunningPod(obj);
      return if pod.Some? then Some((pod.value, job.value, at)) else None;
    }

    /** `pod` is the running pod that the pass found, if it looked for one. */
    method TrySuspendPod(obj: ClusterOp) returns (requeue: bool, err: bool, ghost pod: Option<string>)
      requires api.Knows(obj) && obj.Loaded(obj.base)
      modifies api, obj
      ensures api.Valid() && old(api.log) <= api.log && Later(obj.uid, old(api.st), api.st)
      ensures !requeue && !err ==> api.Knows(obj) && obj.Loaded(obj.base) && obj.base == old(obj.base)
      ensures !requeue && !err && api.quiet ==> api.st == old(api.st)
      ensures api.quiet && Settled(old(api.st).jobs, old(obj.base).status.jobRef) ==> pod.None? && !requeue && !err
      ensures Calm() && old(api.Current(obj)) ==>
        && !err && (requeue <==> Interrupts(old(obj.base), pod))
        && (requeue ==> ActorKept(api.c, old(api.st), api.st, obj.name, old(obj.base), pod.value))
    {
      var seen := FindActor(obj);
      pod := if seen.Some? then Some(seen.value.0) else None;
      if seen.None? {
        return false, false, pod;
      }
      requeue, err := KeepActor(obj, seen.value.0, seen.value.1, seen.value.2);
    }

    /** The end of `TrySuspendPod`; `job` is the Job as it was read at place `at`. */
    method KeepActor(obj: ClusterOp, pod: string, job: Job, at: nat) returns (requeue: bool, err: bool)
      requires api.Knows(obj) && obj.Loaded(obj.base) && !obj.base.status.jobRef.IsEmpty()
      requires at < |api.st.hist.trail| && (api.quiet ==> JobKept(api.st.hist.trail, obj.base.status.jobRef, job, at))
      modifies api, obj
      ensures api.Valid() && old(api.log) <= api.log && Later(obj.uid, old(api.st), api.st)
      ensures !requeue && !err ==>
        api.Knows(obj) && obj.Loaded(obj.base) && obj.base == old(obj.base) && api.st == old(api.st)
      ensures Calm() && old(api.Current(obj)) ==>
        && !err && (requeue <==> Interrupts(old(obj.base), Some(pod)))
        && (requeue ==> ActorKept(api.c, old(api.st), api.st, obj.name, old(obj.base), pod))
    {
      hide Step;
      api.TrailEnds();
      KeptJob(api.st.hist.trail, api.st.hist.trail, obj.base.status.jobRef, job, at);
      if ACTOR_ANNOTATION !in obj.annotations || obj.annotations[ACTOR_ANNOTATION] == "" {
        obj.annotations := obj.annotations[ACTOR_ANNOTATION := pod];
        var ok := api.Update(obj, Annotate(pod));
        return ok, !ok;
      }
      if obj.annotations[ACTOR_ANNOTATION] != pod {
        var ok := api.SuspendJob(obj, obj.status.jobRef, job, at);
        return ok, !ok;
      }
      return false, false;
    }

    /** `CheckConfigMapExist` and `CheckSecretExist`: up to five tries, and an error counts as there. */
    method CheckExist(obj: ClusterOp, key: Key) returns (found: bool)
      requires api.Knows(obj)
      modifies api
      ensures api.Knows(obj) && old(api.log) <= api.log && Later(obj.uid, old(api.st), api.st)
      ensures api.quiet ==> api.st == old(api.st)
      ensures !found ==> key !in api.st.objs
      ensures Calm() ==> (found <==> key in api.st.objs)
    {
      for i := 0 to RETRY_COUNT
        invariant api.Knows(obj) && old(api.log) <= api.log && Later(obj.uid, old(api.st), api.st)
        invariant api.quiet ==> api.st == old(api.st)
        invariant i > 0 ==> key !in api.st.objs
      {
        var r := api.GetObj(obj, key);
        if !r.Missing? {
          return true;
        }
      }
      return false;
    }

    /** One of the three blocks of `CheckClusterDataRef`. */
    method CheckSlot(obj: ClusterOp, cl: Cluster, slot: Slot) returns (ok: bool)
      requires api.Knows(obj) && InMemory(obj)
      modifies api
      ensures api.Knows(obj) && old(api.log) <= api.log && Later(obj.uid, old(api.st), api.st)
      ensures api.quiet ==> api.st == old(api.st)
      ensures !ok ==> !SlotOk(cl, api.st.objs, slot)
      ensures Calm() ==> (ok <==> SlotOk(cl, api.st.objs, slot))
    {
      var ref := ClusterRef(cl, slot);
      if ref.IsEmpty() {
        return false;
      }
      ok := CheckExist(obj, KeyOf(KindOf(slot), ref));
    }

    method CheckNeeded(obj: ClusterOp, cl: Cluster, slot: Slot) returns (ok: bool, namespaces: set<string>)
      requires api.Knows(obj) && InMemory(obj)
      modifies api
      ensures api.Knows(obj) && old(api.log) <= api.log && Later(obj.uid, old(api.st), api.st)
      ensures api.quiet ==> api.st == old(api.st)
      ensures !ok ==> Needs(obj.base.spec, cl, slot) && !SlotOk(cl, api.st.objs, slot)
      ensures ok ==> namespaces == NamespaceOf(obj.base.spec, cl, slot)
      ensures Calm() ==> (ok <==> (Needs(obj.base.spec, cl, slot) ==> SlotOk(cl, api.st.objs, slot)))
    {
      if !Needs(obj.spec, cl, slot) {
        return true, {};
      }
      ok := CheckSlot(obj, cl, slot);
      namespaces := {ClusterRef(cl, slot).Ns()};
    }

    /** `bad`: the references are refused, and when the call returns they are still to be refused. */
    method CheckClusterDataRef(obj: ClusterOp, cl: Cluster) returns (bad: bool)
      requires api.Knows(obj) && InMemory(obj)
      modifies api
      ensures api.Knows(obj) && old(api.log) <= api.log && Later(obj.uid, old(api.st), api.st)
      ensures api.quiet ==> api.st == old(api.st)
      ensures bad ==> !RefsOk(cl, api.st.objs, obj.base.spec)
      ensures Calm() ==> (bad <==> !RefsOk(cl, api.st.objs, obj.base.spec))
    {
      hide Step;
      var ok, namespaces := CheckNeeded(obj, cl, Hosts);
      if !ok {
        return true;
      }
      var more: set<string>;
      ok, more := CheckNeeded(obj, cl, Vars);
      if !ok {
        return true;
      }
      namespaces := namespaces + more;
      ok, more := CheckNeeded(obj, cl, Ssh);
      if !ok {
        return true;
      }
      namespaces := namespaces + more;
      assert namespaces == Namespaces(obj.base.spec, cl);
      return |namespaces| > 1;
    }

    method UpdateOperationOwnReferenceForCluster(obj: ClusterOp, clusterName: string, cl: Cluster, at: nat)
      returns (requeue: bool, err: bool)
      requires api.Knows(obj) && obj.Loaded(obj.base) && ClusterSeen(api.st.hist, obj.uid, clusterName, cl, at)
      modifies api, obj
      ensures api.Valid() && old(api.log) <= api.log && Later(obj.uid, old(api.st), api.st)
      ensures !requeue && !err ==>
        api.Knows(obj) && obj.Loaded(obj.base) && obj.base == old(obj.base) && api.st == old(api.st)
      ensures Calm() && old(api.Current(obj)) && clusterName == old(obj.base).spec.cluster ==>
        !err && requeue == Lacks(old(obj.base), cl, OwnerStage)
      ensures api.quiet && requeue ==>
        OpWritten(api.c, old(api.st), api.st, obj.name, old(obj.base), OwnByCluster(cl, at))
    {
      if obj.spec.cluster != clusterName || cl.uid == 0 {
        return false, false;
      }
      for i := 0 to |obj.owners|
        invariant cl.uid !in obj.owners[..i]
      {
        if obj.owners[i] == cl.uid {
          return false, false;
        }
        assert obj.owners[..i + 1] == obj.owners[..i] + [obj.owners[i]];
      }
      assert obj.owners[..|obj.owners|] == obj.owners;
      obj.owners := obj.owners + [cl.uid];
      var ok := api.Update(obj, OwnByCluster(cl, at));
      return ok, !ok;
    }

    // Backups.

    /** The second half of `CopyConfigMap` and `CopySecret`, behind the reads that the copy rests on. */
    method StoreCopy(obj: ClusterOp, copy: Copy, cl: Cluster, at: nat, read: nat) returns (ok: bool)
      requires api.Knows(obj) && CopyRead(api.st.hist, obj.uid, copy, cl, at, read)
      modifies api
      ensures api.Knows(obj) && old(api.log) <= api.log && Later(obj.uid, old(api.st), api.st)
      ensures ok ==> (CopyKey(api.c, copy), copy) in api.st.hist.copyPast
      ensures api.quiet ==> api.st == old(api.st).(objs := api.st.objs, hist := api.st.hist)
      ensures api.quiet && ok ==> api.st.objs == old(api.st).objs[CopyKey(api.c, copy) := Obj(copy.data, [obj.uid])]
      ensures Calm() && CopyKey(api.c, copy) !in old(api.st).objs ==> ok
    {
      hide Step, CopyKey;
      var put := api.CreateObj(obj, CopyData(copy, cl, at, read));
      ok := put == Done;
    }

    /** `CopyConfigMap` and `CopySecret` for a reference of the cluster. The copy has the data that the
        object had at place `read` in the trail, during this call. */
    method CopyBackup(obj: ClusterOp, clusterName: string, cl: Cluster, at: nat, slot: Slot, stamp: nat)
      returns (r: Option<Copy>, ghost read: nat)
      requires api.Knows(obj) && ClusterSeen(api.st.hist, obj.uid, clusterName, cl, at)
        && !ClusterRef(cl, slot).IsEmpty()
      modifies api
      ensures api.Knows(obj) && old(api.log) <= api.log && Later(obj.uid, old(api.st), api.st)
      ensures r.Some? ==>
        && r.value == Copy(obj.uid, slot, clusterName, ClusterRef(cl, slot), stamp, r.value.data)
        && (CopyKey(api.c, r.value), r.value) in api.st.hist.copyPast
        && old(api.Now()) <= read
        && ObjSeen(api.st.hist, obj.uid, KeyOf(KindOf(slot), ClusterRef(cl, slot)), r.value.data, read)
      ensures api.quiet ==> api.st == old(api.st).(objs := api.st.objs, hist := api.st.hist)
      ensures api.quiet && r.Some? ==>
        api.st.objs == old(api.st).objs[CopyKey(api.c, r.value) := Obj(r.value.data, [obj.uid])]
      ensures Calm() && SlotOk(cl, old(api.st).objs, slot) ==>
        StampedKey(api.c, cl, slot, stamp) !in old(api.st).objs ==>
          r.Some? && r.value.data == old(api.st).objs[KeyOf(KindOf(slot), ClusterRef(cl, slot))].data
    {
      hide Step, ObjKept, Stamp;
      var src := ClusterRef(cl, slot);
      var found := api.GetObj(obj, KeyOf(KindOf(slot), src));
      read := api.Now();
      if !found.Found? {
        return None, read;
      }
      var copy := Copy(obj.uid, slot, clusterName, src, stamp, found.value.data);
      assert CopyKey(api.c, copy) == StampedKey(api.c, cl, slot, stamp);
      var ok := StoreCopy(obj, copy, cl, at, api.Now());
      return if ok then Some(copy) else None, read;
    }

    /** One of the three blocks of `BackUpDataRef`. */
    method BackUpSlot(obj: ClusterOp, clusterName: string, cl: Cluster, at: nat, slot: Slot, stamp: nat)
      returns (ok: bool)
      requires api.Knows(obj) && InMemory(obj) && Needs(obj.base.spec, cl, slot) && !ClusterRef(cl, slot).IsEmpty()
      requires clusterName == obj.base.spec.cluster && obj.labels == obj.base.labels[CLUSTER_LABEL := clusterName]
      requires ClusterSeen(api.st.hist, obj.uid, clusterName, cl, at)
      modifies api, obj
      ensures api.Valid() && old(api.log) <= api.log && Later(obj.uid, old(api.st), api.st)
      ensures api.quiet && old(api.Current(obj)) ==> PhaseStays(old(api.st), api.st, obj.name)
      ensures Calm() && old(Steady(obj, clusterName, cl)) && stamp == old(api.st).now ==>
        SlotOk(cl, old(api.st).objs, slot) ==>
          ok && Progress(api.c, old(api.st), api.st, obj.name, cl, StageOf(slot))
    {
      hide Step, Progress;
      var copy;
      ghost var read;
      copy, read := CopyBackup(obj, clusterName, cl, at, slot, stamp);
      if copy.None? {
        return false;
      }
      ok := RecordBackup(obj, copy.value, old(api.st));
    }

    method RecordBackup(obj: ClusterOp, copy: Copy, ghost before: State) returns (ok: bool)
      requires api.Knows(obj) && InMemory(obj) && SpecRef(obj.base.spec, copy.slot).IsEmpty()
      requires copy.uid == obj.uid && copy.cluster == obj.base.spec.cluster
      requires (CopyKey(api.c, copy), copy) in api.st.hist.copyPast
      requires obj.labels == obj.base.labels[CLUSTER_LABEL := obj.base.spec.cluster]
      requires api.quiet ==>
        api.st == before.(objs := before.objs[CopyKey(api.c, copy) := Obj(copy.data, [obj.uid])], hist := api.st.hist)
      modifies api, obj
      ensures api.Valid() && old(api.log) <= api.log && Later(obj.uid, old(api.st), api.st)
      ensures api.quiet && old(api.Current(obj)) ==> PhaseStays(old(api.st), api.st, obj.name)
      ensures Calm() && old(api.Current(obj)) ==>
        Ready(api.c, before, obj.name, before.now) && copy.stamp == before.now ==>
        ok && var cl := before.clusters[old(obj.base).spec.cluster];
          (Needs(old(obj.base).spec, cl, copy.slot) && copy.src == ClusterRef(cl, copy.slot) ==>
            Progress(api.c, before, api.st, obj.name, cl, StageOf(copy.slot)))
    {
      hide Step;
      obj.spec := WithRef(obj.spec, copy.slot, CopyRef(api.c, copy));
      ok := api.Update(obj, FillRef(copy));
      if Calm() && old(api.Current(obj)) && Ready(api.c, before, obj.name, before.now) && copy.stamp == before.now {
        var cl := before.clusters[old(obj.base).spec.cluster];
        if Needs(old(obj.base).spec, cl, copy.slot) && copy.src == ClusterRef(cl, copy.slot) {
          BackupProgress(api.c, before, api.st, obj.name, copy);
        }
      }
    }

    /** A pass that nobody disturbs works on the current operation and cluster, and it is ready. */
    ghost predicate Steady(obj: ClusterOp, clusterName: string, cl: Cluster)
      reads api, obj
    {
      && api.Current(obj) && obj.base.spec.cluster == clusterName
      && clusterName in api.st.clusters && api.st.clusters[clusterName] == cl
      && Ready(api.c, api.st, obj.name, api.st.now)
    }

    /** The three blocks in turn: the first backup that is missing is taken. */
    method BackUpFirst(obj: ClusterOp, clusterName: string, cl: Cluster, at: nat, stamp: nat)
      returns (requeue: bool, err: bool)
      requires api.Knows(obj) && InMemory(obj) && HasData(cl) && clusterName == obj.base.spec.cluster
      requires obj.labels == obj.base.labels[CLUSTER_LABEL := clusterName]
      requires ClusterSeen(api.st.hist, obj.uid, clusterName, cl, at)
      modifies api, obj
      ensures api.Valid() && old(api.log) <= api.log && Later(obj.uid, old(api.st), api.st)
      ensures api.quiet && old(api.Current(obj)) ==> PhaseStays(old(api.st), api.st, obj.name)
      ensures if NeedsBackup(old(obj.base).spec, cl) then requeue == !err
              else
                && !requeue && !err && api.Knows(obj) && InMemory(obj) && obj.base == old(obj.base)
                && obj.labels == old(obj.labels) && api.st == old(api.st)
      ensures Calm() && old(Steady(obj, clusterName, cl)) && stamp == old(api.st).now ==>
        && !err
        && (requeue ==> Progress(api.c, old(api.st), api.st, obj.name, cl, FirstBackup(old(obj.base).spec, cl)))
    {
      hide Step, Progress;
      ReadySlots(api.c, api.st, obj.name, cl);
      if obj.spec.hosts.IsEmpty() {
        var ok := BackUpSlot(obj, clusterName, cl, at, Hosts, stamp);
        return ok, !ok;
      }
      if obj.spec.vars.IsEmpty() {
        var ok := BackUpSlot(obj, clusterName, cl, at, Vars, stamp);
        return ok, !ok;
      }
      if obj.spec.ssh.IsEmpty() && !cl.ssh.IsEmpty() {
        var ok := BackUpSlot(obj, clusterName, cl, at, Ssh, stamp);
        return ok, !ok;
      }
      return false, false;
    }

    method BackUpDataRef(obj: ClusterOp, clusterName: string, cl: Cluster, at: nat) returns (requeue: bool, err: bool)
      requires api.Knows(obj) && obj.Loaded(obj.base) && clusterName == obj.base.spec.cluster
      requires ClusterSeen(api.st.hist, obj.uid, clusterName, cl, at)
      modifies api, obj
      ensures api.Valid() && old(api.log) <= api.log && Later(obj.uid, old(api.st), api.st)
      ensures !requeue && !err ==>
        && api.Knows(obj) && InMemory(obj) && obj.base == old(obj.base) && api.st == old(api.st)
        && obj.labels == obj.base.labels[CLUSTER_LABEL := clusterName]
        && !NeedsBackup(obj.base.spec, cl)
      ensures HasData(cl) && !NeedsBackup(old(obj.base).spec, cl) ==> !requeue && !err
      ensures !HasData(cl) ==> !requeue && err && api.st == old(api.st)
      ensures api.quiet && old(api.Current(obj)) ==> PhaseStays(old(api.st), api.st, obj.name)
      ensures Calm() && old(Steady(obj, clusterName, cl)) ==>
        && !err && requeue == NeedsBackup(old(obj.base).spec, cl)
        && (requeue ==> Progress(api.c, old(api.st), api.st, obj.name, cl, FirstBackup(old(obj.base).spec, cl)))
    {
      hide Step, Progress;
      var stamp := api.st.now;
      if cl.hosts.IsEmpty() || cl.vars.IsEmpty() {
        return false, true;
      }
      obj.labels := obj.labels[CLUSTER_LABEL := clusterName];
      requeue, err := BackUpFirst(obj, clusterName, cl, at, stamp);
    }

    // Entrypoint script.

    /** Creates the ConfigMap of the script, or overwrites the one that is there. */
    method WriteEntry(obj: ClusterOp, spec: Spec, script: Payload) returns (ok: bool)
      requires api.Knows(obj) && spec == obj.base.spec && EntryPoint.Compile(spec) == Ok(script)
      modifies api
      ensures api.Knows(obj) && old(api.log) <= api.log && Later(obj.uid, old(api.st), api.st)
      ensures ok ==> ObjSeen(api.st.hist, obj.uid, EntryKey(api.c, obj.name), script, api.Now())
      ensures Calm() ==> ok
      ensures api.quiet ==> api.st == old(api.st).(objs := api.st.objs, hist := api.st.hist)
      ensures api.quiet && ok ==> api.st.objs == old(api.st).objs[EntryKey(api.c, obj.name) := Obj(script, [obj.uid])]
    {
      var put := api.CreateObj(obj, PutEntry(spec, script));
      match put {
        case Done => ok := true;
        case AlreadyExists => ok := api.OverwriteEntry(obj, spec, script);
        case Refused => ok := false;
      }
    }

    method CreateEntryPointShellConfigMap(obj: ClusterOp, clusterName: string, cl: Cluster)
      returns (requeue: bool, err: ErrorKind)
      requires api.Knows(obj) && InMemory(obj) && clusterName == obj.base.spec.cluster
      requires obj.labels == obj.base.labels[CLUSTER_LABEL := clusterName]
      modifies api, obj
      ensures api.Valid() && old(api.log) <= api.log && Later(obj.uid, old(api.st), api.st)
      ensures err != NoError ==> !requeue
      ensures !old(obj.base).spec.entry.IsEmpty() ==> !requeue && err == NoError
      ensures err == WrongArgs <==> old(obj.base).spec.entry.IsEmpty() && !EntryPoint.ValidActions(old(obj.base).spec)
      ensures !requeue && err != OtherError ==>
        api.Knows(obj) && InMemory(obj) && obj.base == old(obj.base) && api.st == old(api.st)
      ensures !requeue && err == NoError ==> !obj.base.spec.entry.IsEmpty()
      ensures api.quiet && old(api.Current(obj)) ==> PhaseStays(old(api.st), api.st, obj.name)
      ensures Calm() && old(Steady(obj, clusterName, cl)) ==>
        && err == NoError && requeue == old(obj.base).spec.entry.IsEmpty()
        && (requeue ==> Progress(api.c, old(api.st), api.st, obj.name, cl, EntryStage))
    {
      hide Step, Stamp;
      requeue := false;
      if !obj.spec.entry.IsEmpty() {
        return false, NoError;
      }
      var script := EntryPoint.CompileScript(obj.spec);
      if script.ArgsError? {
        return false, WrongArgs;
      }
      var ok := WriteEntry(obj, obj.spec, script.value);
      if !ok {
        return false, OtherError;
      }
      obj.spec := obj.spec.(entry := Ref(api.c.ns, obj.name + ENTRYPOINT_SUFFIX));
      var at := api.Now();
      ok := api.Update(obj, FillEntry(script.value, at));
      if Calm() && old(Steady(obj, clusterName, cl)) {
        EntryProgress(api.c, old(api.st), api.st, obj.name, script.value, obj.uid, at);
      }
      return ok, if ok then NoError else OtherError;
    }

    // Owner references (pkg/util/cluster.go).

    /** The body of the loops of `UpdateOwnReference`. */
    method OwnObject(obj: ClusterOp, ref: Ref, kind: Kind) returns (ok: bool)
      requires api.Knows(obj)
      modifies api
      ensures api.Knows(obj) && old(api.log) <= api.log && Later(obj.uid, old(api.st), api.st)
      ensures Calm() ==> ok
      ensures api.quiet ==> Owns(old(api.st), api.st, if ok then OwnerRefs.Keys(kind, [ref]) else {}, obj.uid)
      ensures api.quiet && Owns(old(api.st), old(api.st), OwnerRefs.Keys(kind, [ref]), obj.uid) ==>
        api.log == old(api.log)
    {
      hide Step;
      var key := KeyOf(kind, ref);
      ghost var objs := api.st.objs;
      OwnerRefs.OwnOneMore(objs, {}, key, obj.uid);
      OwnerRefs.RerunReachesTheSame(objs, {}, {}, obj.uid);
      if ref.IsEmpty() {
        assert OwnerRefs.Keys(kind, [ref]) == {};
        return true;
      }
      assert OwnerRefs.Keys(kind, [ref]) == {} + {key};
      var found := api.GetObj(obj, key);
      if found.Missing? {
        return true;
      }
      if found.Broken? {
        return false;
      }
      var hasSet := HasOwner(found.value.owners, obj.uid);
      if hasSet {
        return true;
      }
      ok := api.UpdateOwners(obj, key, found.value, api.Now());
    }

    method HasOwner(owners: seq<nat>, u: nat) returns (found: bool)
      ensures found <==> u in owners
    {
      for i := 0 to |owners|
        invariant u !in owners[..i]
      {
        if owners[i] == u {
          return true;
        }
        assert owners[..i + 1] == owners[..i] + [owners[i]];
      }
      assert owners[..|owners|] == owners;
      return false;
    }

    /** One of the two loops; `done` is what was reached before a call failed. */
    method OwnObjects(obj: ClusterOp, refs: seq<Ref>, kind: Kind) returns (ok: bool, ghost done: set<Key>)
      requires api.Knows(obj)
      modifies api
      ensures api.Knows(obj) && old(api.log) <= api.log && Later(obj.uid, old(api.st), api.st)
      ensures Calm() ==> ok
      ensures done <= OwnerRefs.Keys(kind, refs) && (ok ==> done == OwnerRefs.Keys(kind, refs))
      ensures api.quiet ==> Owns(old(api.st), api.st, done, obj.uid)
      ensures api.quiet && Owns(old(api.st), old(api.st), OwnerRefs.Keys(kind, refs), obj.uid) ==>
        api.log == old(api.log)
    {
      hide Step;
      ok, done := true, {};
      OwnNothing(api.st, obj.uid);
      for i := 0 to |refs|
        invariant ok && api.Knows(obj) && old(api.log) <= api.log && Later(obj.uid, old(api.st), api.st)
        invariant done == OwnerRefs.Keys(kind, refs[..i])
        invariant api.quiet ==> Owns(old(api.st), api.st, done, obj.uid)
        invariant api.quiet && Owns(old(api.st), old(api.st), OwnerRefs.Keys(kind, refs), obj.uid) ==>
          api.log == old(api.log)
      {
        OwnNext(kind, refs, i);
        ghost var s := api.st;
        ok := OwnObject(obj, refs[i], kind);
        if api.quiet {
          OwnMore(old(api.st), s, api.st, done, if ok then OwnerRefs.Keys(kind, [refs[i]]) else {},
                  OwnerRefs.Keys(kind, [refs[i]]), OwnerRefs.Keys(kind, refs), obj.uid);
        }
        if !ok {
          return;
        }
        done := done + OwnerRefs.Keys(kind, [refs[i]]);
      }
      assert refs[..|refs|] == refs;
    }

    /** `UpdateOwnReferenceToClusterOps`: ConfigMaps first, then Secrets, and out at the first error.
        Where all objects have their owner already, nothing is written. */
    method UpdateOwnReferenceToClusterOps(obj: ClusterOp) returns (ok: bool, ghost done: set<Key>)
      requires api.Knows(obj) && InMemory(obj)
      modifies api
      ensures api.Knows(obj) && old(api.log) <= api.log && Later(obj.uid, old(api.st), api.st)
      ensures Calm() ==> ok
      ensures done <= DataKeys(obj.base.spec) && (ok ==> done == DataKeys(obj.base.spec))
      ensures api.quiet ==> Owns(old(api.st), api.st, done, obj.uid)
      ensures api.quiet && Owns(old(api.st), old(api.st), DataKeys(obj.base.spec), obj.uid) ==> api.log == old(api.log)
    {
      var refs := ConfigDataList(obj.spec);
      if api.quiet {
        OwnBoth(api.st, OwnerRefs.Keys(ConfigMap, refs), OwnerRefs.Keys(Secret, [obj.spec.ssh]), obj.uid);
      }
      ok, done := OwnObjects(obj, refs, ConfigMap);
      if !ok {
        return;
      }
      ghost var s := api.st;
      ghost var more: set<Key>;
      ok, more := OwnObjects(obj, [obj.spec.ssh], Secret);
      if api.quiet {
        OwnMore(old(api.st), s, api.st, done, more, OwnerRefs.Keys(Secret, [obj.spec.ssh]), DataKeys(obj.spec),
            obj.uid);
      }
      done := done + more;
    }

    // The Job.

    /** The first half of `injectCustomAction`: a copy of a ConfigMap from another namespace, unless
        its name is taken here. */
    method CopyAction(obj: ClusterOp, h: Hook) returns (ok: bool)
      requires api.Knows(obj) && JobVolumes.IsCustom(h) && !h.sourceRef.IsEmpty()
      modifies api
      ensures api.Knows(obj) && old(api.log) <= api.log && Later(obj.uid, old(api.st), api.st)
      ensures api.quiet ==> Grew(api.c, old(api.st), api.st)
      ensures Calm() ==> (ok <==> HookOk(api.c, old(api.st).objs, h))
      ensures api.quiet && ok ==> api.st.objs == HookData.Brought(api.c, old(api.st).objs, obj.uid, h)
    {
      hide Step;
      var ref := h.sourceRef;
      if ref.Ns() != api.c.ns {
        var found := api.GetObj(obj, KeyOf(ConfigMap, ref));
        if !found.Found? {
          return false;
        }
        var put := api.CreateObj(obj, Inject(ref, found.value.data, api.Now()));
        return put != Refused;
      }
      return true;
    }

    /** Hook `h`, if it is custom: its ConfigMap is brought here, and the Job mounts it. */
    method InjectHook(obj: ClusterOp, job: JobVolumes.JobObject, h: Hook) returns (ok: bool)
      requires api.Knows(obj)
      modifies api, job
      ensures api.Knows(obj) && old(api.log) <= api.log && Later(obj.uid, old(api.st), api.st)
      ensures api.quiet ==> Grew(api.c, old(api.st), api.st)
      ensures ok && JobVolumes.IsCustom(h) ==>
        !h.sourceRef.IsEmpty() && job.Content() == JobVolumes.AddCustom(old(job.Content()), h)
      ensures ok && !JobVolumes.IsCustom(h) ==> job.Content() == old(job.Content())
      ensures Calm() ==> (ok <==> (JobVolumes.IsCustom(h) ==> HookOk(api.c, old(api.st).objs, h)))
      ensures api.quiet && ok ==> api.st.objs == HookData.Brought(api.c, old(api.st).objs, obj.uid, h)
    {
      if JobVolumes.IsCustom(h) {
        if h.sourceRef.IsEmpty() {
          return false;
        }
        ok := CopyAction(obj, h);
        if !ok {
          return false;
        }
        job.InjectCustomAction(h);
      }
      return true;
    }

    /** One of the two loops of `HookCustomAction`. */
    method InjectHooks(obj: ClusterOp, job: JobVolumes.JobObject, hooks: seq<Hook>) returns (ok: bool)
      requires api.Knows(obj)
      modifies api, job
      ensures api.Knows(obj) && old(api.log) <= api.log && Later(obj.uid, old(api.st), api.st)
      ensures api.quiet ==> Grew(api.c, old(api.st), api.st)
      ensures ok ==> JobVolumes.Added(old(job.Content()), job.Content(), hooks)
      ensures Calm() ==> (ok <==> HooksOk(api.c, old(api.st).objs, hooks))
      ensures api.quiet && ok ==> api.st.objs == HookData.AllBrought(api.c, old(api.st).objs, obj.uid, hooks)
    {
      hide Step, JobVolumes.Added, HookData.AllBrought, HookData.Brought;
      JobVolumes.NothingAdded(job.Content());
      HookData.NothingBrought(api.c, api.st.objs, obj.uid);
      assert hooks[..0] == [];
      for i := 0 to |hooks|
        invariant api.Knows(obj) && old(api.log) <= api.log && Later(obj.uid, old(api.st), api.st)
        invariant api.quiet ==> Grew(api.c, old(api.st), api.st)
        invariant JobVolumes.Added(old(job.Content()), job.Content(), hooks[..i])
        invariant Calm() ==> HooksOk(api.c, old(api.st).objs, hooks[..i])
        invariant api.quiet ==> api.st.objs == HookData.AllBrought(api.c, old(api.st).objs, obj.uid, hooks[..i])
      {
        ghost var content := job.Content();
        ok := InjectHook(obj, job, hooks[i]);
        if !ok {
          return false;
        }
        assert hooks[..i + 1] == hooks[..i] + [hooks[i]];
        JobVolumes.OneAdded(old(job.Content()), content, job.Content(), hooks[..i], hooks[i]);
        HookData.BroughtOneMore(api.c, old(api.st).objs, obj.uid, hooks[..i], hooks[i]);
      }
      assert hooks[..|hooks|] == hooks;
      return true;
    }

    method HookCustomAction(obj: ClusterOp, job: JobVolumes.JobObject) returns (ok: bool)
      requires api.Knows(obj) && InMemory(obj)
      modifies api, job
      ensures api.Knows(obj) && old(api.log) <= api.log && Later(obj.uid, old(api.st), api.st)
      ensures api.quiet ==> Grew(api.c, old(api.st), api.st)
      ensures ok ==> JobVolumes.Added(old(job.Content()), job.Content(), JobVolumes.AllHooks(obj.spec))
      ensures Calm() ==> (ok <==> HooksOk(api.c, old(api.st).objs, JobVolumes.AllHooks(obj.spec)))
      ensures api.quiet && ok ==>
        api.st.objs == HookData.AllBrought(api.c, old(api.st).objs, obj.uid, JobVolumes.AllHooks(obj.spec))
    {
      hide Step, JobVolumes.Added, HookData.AllBrought;
      ok := HooksUpToMain(obj, job);
      if !ok {
        return false;
      }
      ghost var content, s, front := job.Content(), api.st, obj.spec.preHook + [obj.spec.main];
      ok := InjectHooks(obj, job, obj.spec.postHook);
      if ok {
        JobVolumes.MoreAdded(old(job.Content()), content, job.Content(), front, obj.spec.postHook);
        HookData.AllBroughtAppends(api.c, old(api.st).objs, obj.uid, front, obj.spec.postHook);
      }
      if api.quiet {
        GrewHooks(api.c, old(api.st), s, obj.spec.postHook);
      }
    }

    method HooksUpToMain(obj: ClusterOp, job: JobVolumes.JobObject) returns (ok: bool)
      requires api.Knows(obj)
      modifies api, job
      ensures api.Knows(obj) && old(api.log) <= api.log && Later(obj.uid, old(api.st), api.st)
      ensures api.quiet ==> Grew(api.c, old(api.st), api.st)
      ensures ok ==> JobVolumes.Added(old(job.Content()), job.Content(), obj.spec.preHook + [obj.spec.main])
      ensures Calm() ==> (ok <==> HooksOk(api.c, old(api.st).objs, obj.spec.preHook + [obj.spec.main]))
      ensures api.quiet && ok ==>
        api.st.objs == HookData.AllBrought(api.c, old(api.st).objs, obj.uid, obj.spec.preHook + [obj.spec.main])
    {
      hide Step;
      ok := InjectHooks(obj, job, obj.spec.preHook);
      if !ok {
        return false;
      }
      ghost var content, s := job.Content(), api.st;
      ok := InjectHook(obj, job, obj.spec.main);
      if ok {
        JobVolumes.OneAdded(old(job.Content()), content, job.Content(), obj.spec.preHook, obj.spec.main);
        HookData.BroughtOneMore(api.c, old(api.st).objs, obj.uid, obj.spec.preHook, obj.spec.main);
      }
      if api.quiet {
        GrewHooks(api.c, old(api.st), s, [obj.spec.main]);
      }
    }

    /** The Job to create: the one of `NewKubesprayJob` and what custom actions add to it. */
    method BuildJob(obj: ClusterOp) returns (r: Option<Template>)
      requires api.Knows(obj) && InMemory(obj)
      requires !obj.base.spec.hosts.IsEmpty() && !obj.base.spec.vars.IsEmpty() && !obj.base.spec.entry.IsEmpty()
      modifies api
      ensures api.Knows(obj) && old(api.log) <= api.log && Later(obj.uid, old(api.st), api.st)
      ensures api.quiet ==> Grew(api.c, old(api.st), api.st)
      ensures r.Some? ==> JobVolumes.WellFormed(r.value)
      ensures r.Some? ==> JobVolumes.Added(JobVolumes.BaseTemplate(obj.spec), r.value, JobVolumes.AllHooks(obj.spec))
      ensures r.Some? ==> JobVolumes.ShowsData(r.value, obj.spec)
      ensures api.quiet && r.Some? ==>
        api.st.objs == HookData.AllBrought(api.c, old(api.st).objs, obj.uid, JobVolumes.AllHooks(obj.spec))
      ensures Calm() ==>
        (r.Some? <==> old(api.st).accounts != [] && HooksOk(api.c, old(api.st).objs, JobVolumes.AllHooks(obj.spec)))
    {
      hide Step, JobVolumes.ShowsData, JobVolumes.BaseTemplate, JobVolumes.Added;
      var accounts := api.ListAccounts(obj);
      if !accounts.Found? || accounts.value == [] {
        return None;
      }
      var job := new JobVolumes.JobObject.NewKubesprayJob(obj.spec);
      var ok := HookCustomAction(obj, job);
      if !ok {
        return None;
      }
      JobVolumes.AddedIsWellFormed(JobVolumes.BaseTemplate(obj.spec), job.Content(), JobVolumes.AllHooks(obj.spec));
      JobVolumes.JobShowsData(obj.spec, job.Content());
      return Some(job.Content());
    }

    /** The branch of `CreateKubeSprayJob` in which no Job was found. */
    method MakeJob(obj: ClusterOp) returns (ok: bool)
      requires api.Knows(obj) && InMemory(obj) && obj.base.status.jobRef.IsEmpty()
      requires !obj.base.spec.hosts.IsEmpty() && !obj.base.spec.vars.IsEmpty() && !obj.base.spec.entry.IsEmpty()
      modifies api
      ensures api.Knows(obj) && old(api.log) <= api.log && Later(obj.uid, old(api.st), api.st)
      ensures ok ==>
        && (obj.uid, JobKey(api.c, obj.name)) in api.st.hist.makers
        && OwnedBy(api.st.jobs, JobKey(api.c, obj.name), obj.uid)
      ensures api.quiet && !ok ==> Waits(api.c, old(api.st), api.st)
      ensures api.quiet && ok ==> Supplied(api.c, old(api.st), api.st, obj.name, obj.uid, obj.spec)
      ensures Calm() ==>
        (ok <==> JobKey(api.c, obj.name) !in old(api.st).jobs && CanLaunch(api.c, old(api.st), obj.name, obj.spec))
    {
      hide Step;
      var template := BuildJob(obj);
      if template.None? {
        return false;
      }
      JobVolumes.PathsAre(obj.spec, template.value);
      ok := api.CreateJobObject(obj, obj.spec, template.value);
    }

    /** Finds the Job of the operation's name, or creates it. Whatever others do in the meantime, `find`
        tells whose Job it is and where in the trail it was looked for and was there. */
    method FindOrMakeJob(obj: ClusterOp) returns (ok: bool, job: Ref, find: Find)
      requires api.Knows(obj) && InMemory(obj) && obj.base.status.jobRef.IsEmpty()
      requires !obj.base.spec.hosts.IsEmpty() && !obj.base.spec.vars.IsEmpty() && !obj.base.spec.entry.IsEmpty()
      modifies api
      ensures api.Knows(obj) && old(api.log) <= api.log && Later(obj.uid, old(api.st), api.st)
      ensures ok ==>
        && job == JobKey(api.c, obj.name) && (find.maker, job) in api.st.hist.makers
        && JobFound(api.st.hist, obj.uid, LookKey(obj.name, obj.base.spec), job, find)
      ensures api.quiet && !ok ==> Waits(api.c, old(api.st), api.st)
      ensures api.quiet && ok ==> Supplied(api.c, old(api.st), api.st, obj.name, obj.uid, obj.spec)
      ensures Calm() ==> (ok <==> CanLaunch(api.c, old(api.st), obj.name, obj.spec))
    {
      job := Ref(obj.spec.hosts.ns, "kubean-" + obj.name + "-job");
      var found := api.GetJob(obj, job);
      api.TrailEnds();
      var looked := api.Now();
      find := Find(obj.uid, looked, looked);
      match found {
        case Broken => return false, job, find;
        case Found(value) => return true, job, find.(maker := value.owner);
        case Missing =>
          job := JobKey(api.c, obj.name);
          ok := MakeJob(obj);
          api.TrailEnds();
          find := find.(had := api.Now());
      }
    }

    /** The write that persists the reference to the Job. */
    method RecordJob(obj: ClusterOp, job: Ref, find: Find, cl: Cluster, at: nat, ghost before: State)
      returns (ok: bool)
      requires api.Knows(obj) && InMemory(obj) && job == JobKey(api.c, obj.name)
      requires CanWrite(api.c, api.st.hist, obj.name, obj.base, SetJobRef(job, find, cl, api.st.now, at))
      requires api.quiet ==> Supplied(api.c, before, api.st, obj.name, obj.uid, obj.spec)
      modifies api, obj
      ensures api.Valid() && old(api.log) <= api.log && Later(obj.uid, old(api.st), api.st)
      ensures Calm() && old(api.Current(obj)) ==>
        ok && Launched(api.c, before, api.st, obj.name, old(obj.base))
    {
      hide Step;
      var now := api.st.now;
      obj.status := obj.status.(jobRef := job, start := Some(now), phase := Running, action := obj.spec.main.action);
      ok := api.StatusUpdate(obj, SetJobRef(job, find, cl, now, at));
      if Calm() && old(api.Current(obj)) {
        LaunchedBy(api.c, before, old(api.st), api.st, obj.name, old(obj.base), SetJobRef(job, find, cl, now, at));
      }
    }

    method CreateKubeSprayJob(obj: ClusterOp, cl: Cluster, at: nat) returns (requeue: bool, err: bool)
      requires api.Knows(obj) && InMemory(obj) && ClusterSeen(api.st.hist, obj.uid, obj.base.spec.cluster, cl, at)
      requires obj.base.status.digest != NoDigest && ValidImage(api.c.alnum, obj.base.spec.image)
      requires DataThere(obj.base.spec, cl)
      modifies api, obj
      ensures api.Valid() && old(api.log) <= api.log && Later(obj.uid, old(api.st), api.st)
      ensures !requeue && !err ==>
        && api.Knows(obj) && InMemory(obj) && obj.base == old(obj.base) && api.st == old(api.st)
        && !obj.base.status.jobRef.IsEmpty()
      ensures Calm() && old(api.Current(obj)) && !old(obj.base).status.jobRef.IsEmpty() ==> !requeue && !err
      ensures Calm() && old(api.Current(obj)) && CanStart(api.c, old(api.st), obj.name, old(obj.base)) ==>
        requeue && !err && Launched(api.c, old(api.st), api.st, obj.name, old(obj.base))
      ensures Calm() && old(api.Current(obj)) && Stuck(api.c, old(api.st), obj.name, old(obj.base)) ==>
        !requeue && err && Waits(api.c, old(api.st), api.st)
    {
      hide Step, Launched, Supplied, JobFound, CanLaunch, Waits;
      if !obj.status.jobRef.IsEmpty() {
        return false, false;
      }
      var ok, job, find := FindOrMakeJob(obj);
      if !ok {
        return false, true;
      }
      ok := RecordJob(obj, job, find, cl, at, old(api.st));
      return ok, !ok;
    }

    // One pass.

    /** `obj` is what the server has, and `cl` is its cluster there. */
    ghost predicate At(obj: ClusterOp, cl: Cluster)
      reads api, obj
    {
      api.Current(obj) && obj.base.spec.cluster in api.st.clusters && api.st.clusters[obj.base.spec.cluster] == cl
    }

    /** The status write of the three validations; its error is only logged. */
    method Fail(obj: ClusterOp, why: Why) returns (ok: bool)
      requires api.Knows(obj) && InMemory(obj) && CanFail(api.c, api.st.hist, obj.base, why)
      modifies api, obj
      ensures api.Valid() && old(api.log) <= api.log && Later(obj.uid, old(api.st), api.st)
      ensures Calm() && old(api.Current(obj)) ==> ok
      ensures api.quiet && ok ==> old(api.Current(obj)) ==> FailedNow(old(api.st), api.st, obj.name)
      ensures api.quiet && !ok ==> api.st == old(api.st)
    {
      obj.status := obj.status.(phase := Failed);
      ok := api.StatusUpdate(obj, MarkFailed(why));
    }

    /** The three stages that write the operation only; `w` is the write that was made, if any. */
    method FirstWrites(obj: ClusterOp, clusterName: string, cl: Cluster, at: nat)
      returns (requeue: bool, err: bool, ghost w: OpWrite)
      requires api.Knows(obj) && obj.Loaded(obj.base) && ClusterSeen(api.st.hist, obj.uid, clusterName, cl, at)
      modifies api, obj
      ensures api.Valid() && old(api.log) <= api.log && Later(obj.uid, old(api.st), api.st)
      ensures !requeue && !err ==>
        api.Knows(obj) && obj.Loaded(obj.base) && obj.base == old(obj.base) && api.st == old(api.st)
      ensures !requeue && !err ==> obj.base.status.digest != NoDigest
      ensures Calm() && old(api.Current(obj)) && clusterName == old(obj.base).spec.cluster ==>
        && !err && (requeue <==> FirstLack(old(obj.base), cl) in WRITE_STAGES)
        && (requeue ==> w == StageWrite(FirstLack(old(obj.base), cl).value, cl, at))
        && (requeue ==> OpWritten(api.c, old(api.st), api.st, obj.name, old(obj.base), w))
    {
      hide Step, Written;
      requeue, err := UpdateOperationOwnReferenceForCluster(obj, clusterName, cl, at);
      w := OwnByCluster(cl, at);
      if requeue || err {
        return;
      }
      requeue, err := UpdateClusterOpsStatusDigest(obj);
      w := TakeDigest;
      if requeue || err {
        return;
      }
      requeue, err := UpdateStatusHasModified(obj);
      w := FlagModified;
    }

    method WriteStages(obj: ClusterOp, clusterName: string, cl: Cluster, at: nat) returns (done: bool)
      requires api.Knows(obj) && obj.Loaded(obj.base) && clusterName == obj.base.spec.cluster
      requires ClusterSeen(api.st.hist, obj.uid, clusterName, cl, at)
      modifies api, obj
      ensures api.Valid() && old(api.log) <= api.log && Later(obj.uid, old(api.st), api.st)
      ensures !done ==> api.Knows(obj) && obj.Loaded(obj.base) && obj.base == old(obj.base) && api.st == old(api.st)
      ensures !done ==> obj.base.status.digest != NoDigest
      ensures Calm() && old(api.Current(obj)) ==> (done <==> FirstLack(old(obj.base), cl) in WRITE_STAGES)
      ensures Calm() && old(api.Current(obj)) ==> PhaseStays(old(api.st), api.st, obj.name)
      ensures Calm() && old(api.Current(obj)) ==>
        StageWritten(api.c, old(api.st), api.st, obj.name, old(obj.base), cl)
      ensures Calm() && old(Steady(obj, clusterName, cl)) && done ==>
        Progress(api.c, old(api.st), api.st, obj.name, cl, FirstLack(old(obj.base), cl).value)
    {
      hide Step, Progress, Ready;
      var requeue, err;
      ghost var w: OpWrite;
      requeue, err, w := FirstWrites(obj, clusterName, cl, at);
      if Calm() && old(Steady(obj, clusterName, cl)) && requeue {
        FirstWriteProgress(api.c, old(api.st), api.st, obj.name, cl, w, at);
      }
      done := requeue || err;
    }

    /** The script. If one of the stages up to here ends the pass, the queue calls again: a requeue was
        asked for, or an error was returned, which is what happens for wrong arguments. */
    method EntryStages(obj: ClusterOp, clusterName: string, cl: Cluster) returns (done: bool)
      requires api.Knows(obj) && InMemory(obj) && clusterName == obj.base.spec.cluster
      requires obj.labels == obj.base.labels[CLUSTER_LABEL := clusterName] && !NeedsBackup(obj.base.spec, cl)
      modifies api, obj
      ensures api.Valid() && old(api.log) <= api.log && Later(obj.uid, old(api.st), api.st)
      ensures !done ==>
        && api.Knows(obj) && InMemory(obj) && obj.base == old(obj.base) && api.st == old(api.st)
        && DataThere(obj.base.spec, cl)
      ensures !old(obj.base).spec.entry.IsEmpty() ==> !done
      ensures Calm() && old(Steady(obj, clusterName, cl)) && done ==>
        Progress(api.c, old(api.st), api.st, obj.name, cl, EntryStage)
      ensures api.quiet && old(api.Current(obj)) && !BadScript(old(obj.base).spec, cl) && HasData(cl) ==>
        PhaseStays(old(api.st), api.st, obj.name)
      ensures Calm() && old(api.Current(obj)) && WrongArguments(old(obj.base), cl) ==>
        done && FailedNow(old(api.st), api.st, obj.name)
    {
      hide Step;
      var requeue, err := CreateEntryPointShellConfigMap(obj, clusterName, cl);
      if err == WrongArgs {
        var ok := Fail(obj, BadArgs);
        return true;
      }
      done := requeue || err != NoError;
    }

    /** The stages from the backups to the script. */
    method DataStages(obj: ClusterOp, clusterName: string, cl: Cluster, at: nat) returns (done: bool)
      requires api.Knows(obj) && obj.Loaded(obj.base) && clusterName == obj.base.spec.cluster
      requires ClusterSeen(api.st.hist, obj.uid, clusterName, cl, at)
      modifies api, obj
      ensures api.Valid() && old(api.log) <= api.log && Later(obj.uid, old(api.st), api.st)
      ensures !done ==>
        && api.Knows(obj) && InMemory(obj) && obj.base == old(obj.base) && api.st == old(api.st)
        && DataThere(obj.base.spec, cl)
      ensures HasData(cl) && DataThere(old(obj.base).spec, cl) ==> !done
      ensures !HasData(cl) ==> done && api.st == old(api.st)
      ensures Calm() && old(Steady(obj, clusterName, cl)) && done ==>
        Progress(api.c, old(api.st), api.st, obj.name, cl, FirstData(old(obj.base).spec, cl))
      ensures api.quiet && old(api.Current(obj)) && !BadScript(old(obj.base).spec, cl) ==>
        PhaseStays(old(api.st), api.st, obj.name)
      ensures Calm() && old(api.Current(obj)) && WrongArguments(old(obj.base), cl) ==>
        done && FailedNow(old(api.st), api.st, obj.name)
    {
      hide Step, Progress, Ready, FailedNow;
      var requeue, err := BackUpDataRef(obj, clusterName, cl, at);
      if requeue || err {
        return true;
      }
      done := EntryStages(obj, clusterName, cl);
    }

    /** The stages before the owner references of the data. */
    method EarlyStages(obj: ClusterOp, clusterName: string, cl: Cluster, at: nat) returns (done: bool)
      requires api.Knows(obj) && obj.Loaded(obj.base) && clusterName == obj.base.spec.cluster
      requires ClusterSeen(api.st.hist, obj.uid, clusterName, cl, at)
      modifies api, obj
      ensures api.Valid() && old(api.log) <= api.log && Later(obj.uid, old(api.st), api.st)
      ensures !done ==>
        && api.Knows(obj) && InMemory(obj) && obj.base == old(obj.base) && api.st == old(api.st)
        && obj.base.status.digest != NoDigest && DataThere(obj.base.spec, cl)
      ensures Calm() && old(At(obj, cl)) ==>
        if done then EndsEarly(api.c, old(api.st), api.st, obj.name, cl)
        else HasData(cl) && FirstLack(old(obj.base), cl) in {None, Some(JobStage)}
    {
      hide Step, Progress;
      FirstLackIs(obj.base, cl);
      done := WriteStages(obj, clusterName, cl, at);
      if done {
        return true;
      }
      done := DataStages(obj, clusterName, cl, at);
    }

    method FollowJob(obj: ClusterOp) returns (again: bool)
      requires api.Knows(obj) && InMemory(obj)
      modifies api, obj
      ensures api.Valid() && old(api.log) <= api.log
      ensures api.quiet && !again && !old(obj.base).status.phase.Other? ==> Over(api.st, obj.name)
      ensures Calm() && old(api.Current(obj)) && HasJob(old(obj.base)) ==>
        Followed(old(api.st), api.st, obj.name, again)
    {
      hide Step;
      var requeue, err := UpdateStatusLoop(obj);
      if requeue || err {
        return true;
      }
      err := UpdateStatusForLabel(obj);
      return err;
    }

    /** The Job and its verdict. */
    method JobStages(obj: ClusterOp, cl: Cluster, at: nat) returns (again: bool)
      requires api.Knows(obj) && InMemory(obj) && ClusterSeen(api.st.hist, obj.uid, obj.base.spec.cluster, cl, at)
      requires obj.base.status.digest != NoDigest && ValidImage(api.c.alnum, obj.base.spec.image)
      requires DataThere(obj.base.spec, cl)
      modifies api, obj
      ensures api.Valid() && old(api.log) <= api.log
      ensures api.quiet && !again && !old(obj.base).status.phase.Other? ==> Over(api.st, obj.name)
      ensures Calm() && old(api.Current(obj)) && CanStart(api.c, old(api.st), obj.name, old(obj.base)) ==>
        again && Launched(api.c, old(api.st), api.st, obj.name, old(obj.base))
      ensures Calm() && old(api.Current(obj)) && Stuck(api.c, old(api.st), obj.name, old(obj.base)) ==>
        again && Waits(api.c, old(api.st), api.st)
      ensures Calm() && old(api.Current(obj)) && HasJob(old(obj.base)) ==>
        Followed(old(api.st), api.st, obj.name, again)
    {
      var requeue, err := CreateKubeSprayJob(obj, cl, at);
      if requeue || err {
        return true;
      }
      again := FollowJob(obj);
    }

    /** The owner references of the data, the Job, and its verdict. */
    method LastStages(obj: ClusterOp, cl: Cluster, at: nat) returns (again: bool)
      requires api.Knows(obj) && InMemory(obj) && ClusterSeen(api.st.hist, obj.uid, obj.base.spec.cluster, cl, at)
      requires obj.base.status.digest != NoDigest && ValidImage(api.c.alnum, obj.base.spec.image)
      requires DataThere(obj.base.spec, cl)
      modifies api, obj
      ensures api.Valid() && old(api.log) <= api.log
      ensures api.quiet && !again && !old(obj.base).status.phase.Other? ==> Over(api.st, obj.name)
      ensures Calm() && old(api.Current(obj)) && CanStart(api.c, old(api.st), obj.name, old(obj.base)) ==>
        again && Launched(api.c, old(api.st), api.st, obj.name, old(obj.base))
      ensures Calm() && old(api.Current(obj)) && Stuck(api.c, old(api.st), obj.name, old(obj.base)) ==>
        again && Waits(api.c, old(api.st), api.st)
      ensures Calm() && old(api.Current(obj)) && HasJob(old(obj.base)) ==>
        Followed(old(api.st), api.st, obj.name, again)
    {
      hide Step, Launched, CanLaunch;
      var ok;
      ghost var done: set<Key>;
      ok, done := UpdateOwnReferenceToClusterOps(obj);
      if !ok {
        return true;
      }
      ghost var s := api.st;
      OwnsWaits(api.c, old(api.st), s, done, obj.uid, obj.name, obj.base.spec);
      again := JobStages(obj, cl, at);
      if Calm() && old(api.Current(obj)) && CanStart(api.c, old(api.st), obj.name, old(obj.base)) {
        OwnsLaunched(api.c, old(api.st), s, api.st, done, obj.uid, obj.name, old(obj.base));
      }
    }

    method LateStages(obj: ClusterOp, cl: Cluster, at: nat) returns (again: bool)
      requires api.Knows(obj) && InMemory(obj) && ClusterSeen(api.st.hist, obj.uid, obj.base.spec.cluster, cl, at)
      requires obj.base.status.digest != NoDigest && ValidImage(api.c.alnum, obj.base.spec.image)
      requires DataThere(obj.base.spec, cl)
      modifies api, obj
      ensures api.Valid() && old(api.log) <= api.log
      ensures api.quiet && !again && !old(obj.base).status.phase.Other? ==> Over(api.st, obj.name)
      ensures Calm() && old(At(obj, cl)) ==> EndsLate(api.c, old(api.st), api.st, obj.name, cl, again)
    {
      hide Step, Followed, Waits;
      again := LastStages(obj, cl, at);
      if Calm() && old(At(obj, cl)) && AtStage(api.c, old(api.st), obj.name, cl)
         && FirstLack(old(obj.base), cl) == Some(JobStage) {
        ReadyCanLaunch(api.c, old(api.st), obj.name, cl);
        LaunchProgress(api.c, old(api.st), api.st, obj.name, cl);
      }
    }

    /** What a pass does that met the cluster as `cl`, when nobody disturbs it or when calls fail. */
    twostate predicate Ran(obj: ClusterOp, cl: Cluster, again: bool, dropped: bool)
      reads api, obj
    {
      && (Calm() && old(At(obj, cl)) ==> PassResult(api.c, old(api.st), api.st, obj.name, again))
      && (Calm() && old(api.Current(obj)) ==> !dropped)
      && (api.quiet && old(api.Current(obj)) && dropped ==>
            !again && api.st == old(api.st) && Invalid(api.c, old(obj.base), cl, api.st.objs))
      && (api.quiet && old(api.Current(obj)) && !again && !dropped && !old(obj.base).status.phase.Other? ==>
            Over(api.st, obj.name))
    }

    /** Everything behind the validations. A pass that does not ask to be called again has finished the
        operation. */
    method RunStages(obj: ClusterOp, clusterName: string, cl: Cluster, at: nat) returns (again: bool)
      requires api.Knows(obj) && obj.Loaded(obj.base) && clusterName == obj.base.spec.cluster
      requires ClusterSeen(api.st.hist, obj.uid, clusterName, cl, at) && ValidImage(api.c.alnum, obj.base.spec.image)
      requires Calm() ==> RefsOk(cl, api.st.objs, obj.base.spec)
      modifies api, obj
      ensures api.Valid() && old(api.log) <= api.log && Ran(obj, cl, again, false)
    {
      hide Step, Progress, Ready;
      var done := EarlyStages(obj, clusterName, cl, at);
      if done {
        if Calm() && old(At(obj, cl)) {
          EarlyResult(api.c, old(api.st), api.st, obj.name, cl);
        }
        return true;
      }
      again := LateStages(obj, cl, at);
      if Calm() && old(At(obj, cl)) {
        LateResult(api.c, old(api.st), api.st, obj.name, cl, again);
      }
    }

    /** The image or the references are refused. */
    method Refuse(obj: ClusterOp, cl: Cluster, why: Why) returns (ghost dropped: bool)
      requires api.Knows(obj) && InMemory(obj) && CanFail(api.c, api.st.hist, obj.base, why)
      requires Invalid(api.c, obj.base, cl, api.st.objs)
      modifies api, obj
      ensures api.Valid() && old(api.log) <= api.log && Ran(obj, cl, false, dropped)
    {
      var ok := Fail(obj, why);
      dropped := !ok;
      if Calm() && old(At(obj, cl)) {
        RefusedResult(api.c, old(api.st), api.st, obj.name);
      }
    }

    method RefuseRefs(obj: ClusterOp, clusterName: string, cl: Cluster, at: nat) returns (ghost dropped: bool)
      requires api.Knows(obj) && InMemory(obj) && clusterName == obj.base.spec.cluster
      requires ClusterSeen(api.st.hist, obj.uid, clusterName, cl, at) && !RefsOk(cl, api.st.objs, obj.base.spec)
      modifies api, obj
      ensures api.Valid() && old(api.log) <= api.log && Ran(obj, cl, false, dropped)
    {
      api.TrailEnds();
      dropped := Refuse(obj, cl, BadRefs(cl, at, api.Now()));
    }

    /** The check of the references, and the stages if it passes. `dropped`: they were refused, and the
        status could not be written. */
    method ValidateRefs(obj: ClusterOp, clusterName: string, cl: Cluster, at: nat)
      returns (again: bool, ghost dropped: bool)
      requires api.Knows(obj) && obj.Loaded(obj.base) && clusterName == obj.base.spec.cluster
      requires ClusterSeen(api.st.hist, obj.uid, clusterName, cl, at) && ValidImage(api.c.alnum, obj.base.spec.image)
      modifies api, obj
      ensures api.Valid() && old(api.log) <= api.log && Ran(obj, cl, again, dropped)
    {
      hide Step, PassResult;
      var bad := CheckClusterDataRef(obj, cl);
      if bad {
        again := false;
        dropped := RefuseRefs(obj, clusterName, cl, at);
        return;
      }
      again := RunStages(obj, clusterName, cl, at);
      dropped := false;
    }

    /** The validations, and the stages if they pass. */
    method Validate(obj: ClusterOp, clusterName: string, cl: Cluster, at: nat)
      returns (again: bool, ghost dropped: bool)
      requires api.Knows(obj) && obj.Loaded(obj.base) && clusterName == obj.base.spec.cluster
      requires ClusterSeen(api.st.hist, obj.uid, clusterName, cl, at)
      modifies api, obj
      ensures api.Valid() && old(api.log) <= api.log && Ran(obj, cl, again, dropped)
    {
      if !ValidImage(api.c.alnum, obj.spec.image) {
        again := false;
        dropped := Refuse(obj, cl, BadImage);
        return;
      }
      again, dropped := ValidateRefs(obj, clusterName, cl, at);
    }

    /** A pass for an operation that is not finished; `pod` is the running pod that it saw. */
    method Pass(obj: ClusterOp) returns (again: bool, ghost dropped: bool, ghost pod: Option<string>)
      requires api.Knows(obj) && obj.Loaded(obj.base)
      modifies api, obj
      ensures api.Valid() && old(api.log) <= api.log
      ensures Calm() && old(api.Current(obj)) ==> PassDone(api.c, old(api.st), api.st, obj.name, pod, again)
      ensures api.quiet && Settled(old(api.st).jobs, old(obj.base).status.jobRef) ==> pod.None?
      ensures Calm() && old(api.Current(obj)) ==> !dropped
      ensures api.quiet && old(api.Current(obj)) && dropped ==> Dropped(api.c, old(api.st), api.st, obj.name) && !again
      ensures api.quiet && old(api.Current(obj)) && !again && !dropped && !old(obj.base).status.phase.Other? ==>
        Over(api.st, obj.name)
    {
      hide Step;
      dropped := false;
      var requeue, err;
      requeue, err, pod := TrySuspendPod(obj);
      if requeue || err {
        return true, false, pod;
      }
      // The status cannot be a finished one here: nothing between this point and the first test sets it.
      var clusterName := obj.spec.cluster;
      var cl := api.GetCluster(obj, clusterName);
      if !cl.Found? {
        return true, false, pod;
      }
      again, dropped := Validate(obj, clusterName, cl.value, api.Now());
    }

    /** `again`: the work queue calls again, because a requeue was asked for or an error returned.
        `dropped`: image or references were refused, and the status could not be written. These are
        exactly the passes after which an unfinished operation is left alone. `pod`: the running pod that
        the pass saw, which it looks for only while the Job is under way. */
    method Reconcile(name: string) returns (again: bool, ghost dropped: bool, ghost pod: Option<string>)
      requires api.Valid()
      modifies api
      ensures api.Valid() && old(api.log) <= api.log
      ensures Calm() && (name !in old(api.st).ops || Finished(old(api.st).ops[name].status.phase)) ==>
        !again && api.st == old(api.st)
      ensures Calm() && name in old(api.st).ops && Live(old(api.st).ops[name]) ==>
        PassDone(api.c, old(api.st), api.st, name, pod, again)
      ensures api.quiet && NothingToSuspend(old(api.st), name) ==> pod.None?
      ensures api.quiet ==> (dropped <==> !again && name in api.st.ops && Live(api.st.ops[name]))
      ensures api.quiet && dropped ==> Dropped(api.c, old(api.st), api.st, name) && !api.reliable
    {
      dropped, pod := false, None;
      var op := api.GetOp(name);
      if op.Missing? {
        return false, false, None;
      }
      if op.Broken? {
        return true, false, None;
      }
      if Finished(op.value.status.phase) {
        return false, false, None;
      }
      var obj := api.BeginPass(name, op.value);
      ghost var s := api.st;
      again, dropped, pod := Pass(obj);
      if Calm() {
        DoneFrom(api.c, old(api.st), s, api.st, name, pod, again);
      }
    }

    /** The work queue calls again after some time: from any state in which passes find what they
        need, a Job is recorded after exactly as many passes as stages are missing, seven at most. */
    method RunUntilLaunched(name: string) returns (passes: nat)
      requires api.Valid() && Calm()
      requires Ready(api.c, api.st, name, api.st.now) && api.st.ops[name].status.jobRef.IsEmpty()
      modifies api
      ensures api.Valid() && old(api.log) <= api.log
      ensures var op := old(api.st).ops[name];
        passes == StagesLeft(op, old(api.st).clusters[op.spec.cluster]) && 1 <= passes <= 7
      ensures name in api.st.ops && api.st.ops[name].uid == old(api.st).ops[name].uid
      ensures api.st.ops[name].status.jobRef == JobKey(api.c, name) && api.st.ops[name].status.phase == Running
      ensures JobRecorded(api.c, old(api.st).jobs, api.st.jobs, name)
    {
      hide Step;
      passes := 0;
      ghost var cl := api.st.clusters[api.st.ops[name].spec.cluster];
      while api.st.ops[name].status.jobRef.IsEmpty()
        invariant api.Valid() && old(api.log) <= api.log
        invariant name in api.st.ops && api.st.ops[name].uid == old(api.st).ops[name].uid
        invariant passes + StagesLeft(api.st.ops[name], cl) == StagesLeft(old(api.st).ops[name], cl)
        invariant
          if api.st.ops[name].status.jobRef.IsEmpty()
          then AtStage(api.c, api.st, name, cl) && api.st.jobs == old(api.st).jobs
          else Arrived(api.c, api.st, name, cl) && JobRecorded(api.c, old(api.st).jobs, api.st.jobs, name)
        decreases StagesLeft(api.st.ops[name], cl)
      {
        PassAndTick(name, cl);
        passes := passes + 1;
      }
    }

    method PassAndTick(name: string, ghost cl: Cluster)
      requires api.Valid() && Calm() && AtStage(api.c, api.st, name, cl) && api.st.ops[name].status.jobRef.IsEmpty()
      modifies api
      ensures api.Valid() && old(api.log) <= api.log
      ensures OneStageOn(api.c, old(api.st), api.st, name, cl)
    {
      hide Step, Ready, PassDone, OneStageOn;
      StageIsLive(api.c, api.st, name, cl);
      var again;
      ghost var dropped, pod;
      again, dropped, pod := Reconcile(name);
      ghost var s := api.st;
      api.Perform(Others(Tick));
      TickIsTick(api.c, s);
      DoneAndTick(api.c, old(api.st), s, api.st, name, cl, pod, again);
    }

    /** Such an operation is called again for ever and never gets further, until someone else acts:
        neither operations nor Jobs change in any number of passes, and all the while it keeps other
        operations out of its cluster. */
    method PassesWhileStuck(name: string, passes: nat)
      requires api.Valid() && Calm() && StuckAt(api.c, api.st, name)
      modifies api
      ensures api.Valid() && old(api.log) <= api.log
      ensures StuckAt(api.c, api.st, name) && api.st.ops == old(api.st).ops && api.st.jobs == old(api.st).jobs
      ensures forall other | other != name :: !Admits(api.st.ops, other, api.st.ops[name].spec.cluster)
    {
      hide Step;
      for i := 0 to passes
        invariant api.Valid() && old(api.log) <= api.log
        invariant StuckAt(api.c, api.st, name) && api.st.ops == old(api.st).ops && api.st.jobs == old(api.st).jobs
      {
        ghost var s := api.st;
        var again;
        ghost var dropped, pod;
        again, dropped, pod := Reconcile(name);
        assert again && Waits(api.c, s, api.st);
        ghost var s' := api.st;
        api.Perform(Others(Tick));
        TickIsTick(api.c, s');
        StuckStays(api.c, s, s', api.st, name);
      }
      forall other | other != name
        ensures !Admits(api.st.ops, other, api.st.ops[name].spec.cluster)
      {
        StuckBlocks(api.c, api.st, name, other);
      }
    }
  }
}
