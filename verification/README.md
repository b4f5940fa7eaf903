# The control plane of kubean, verified

kubean is a Kubernetes operator that runs Kubespray. A *ClusterOperation* asks for one run of Ansible
on one *Cluster*; the operator backs up the data it refers to, compiles its actions to a script and to
the volumes of a Job, creates that Job and follows it until it ends. A webhook keeps operations of one
cluster from overlapping, another controller deletes old operations, and two more keep an index of
release manifests and merge what a local artifact set offers into their status.

This project models that behaviour in Dafny and proves what it is for. `dafny verify dfyconfig.toml`
checks all of it.

## How it is built

**A step system for the store.** `ControlPlane.dfy` is the API server's store with its steps: every
single write of the operator (to an operation's spec or status, to a ConfigMap or Secret, to a Job) is
one step with the guard under which the code makes it, and so is everything that others do: users
create, edit and delete operations, clusters, objects and service accounts, the Job controller reports
conditions, Jobs are deleted, time passes. A crash or a failed call is a run in which the following
steps are missing, so a property of all runs holds under every crash and every failure. The store also
keeps a history of what it forgets itself: the *trail* of all worlds (clusters, objects and Jobs) so far,
where in it the present pass of an operation began and what spec it read, the Jobs created and deleted,
the backups taken and recorded, edits by users. The guards of the operator's steps use it for what a pass has read: whatever a
step rests on was there at some moment since the pass began. The environment is free of it, except that
UIDs are never given out twice.

`Invariants.dfy` proves one inductive invariant. What follows for every run is in `Runs.dfy` (exclusion,
statuses, Jobs), `Snapshots.dfy` (backups and the tamper flag), `Ownership.dfy` (where Jobs come from and
whose they are) and `Endings.dfy` (what a finished operation rests on, with `Refusals.dfy` for validations
under a recorded Job); `Trails.dfy` turns places in the trail into positions in the run. `Witnesses.dfy`
holds runs in which the code fails what it is for.

**The reconciler, call by call.** `ApiServer.dfy` is the store as a pass sees it. Every call may fail,
and before every call any number of steps of others may happen. `OpsController.dfy` is the reconciler
with the methods of the Go file, working on an operation in memory whose fields it changes. Every method
keeps `Valid()`: the store is the result of a run of the step system, after each call and hence at each
crash. So the theorems about runs are theorems about this code. For a server where nobody disturbs
(`quiet`) and calls do not fail without a reason (`reliable`) the same methods promise progress:
`Reconcile` completes exactly the first missing stage, or refuses the operation, or follows its Job; and
`RunUntilLaunched` reaches the Job after exactly as many passes as stages are missing, seven at most.
`Passes.dfy` says what a single pass does and what follows from that alone.

**The rest.** `EntryPoint.dfy` and `JobVolumes.dfy` compile hooks to commands and to mounts and prove
that the two agree. `Webhook.dfy` is the admission decision and its agreement with the rule of the step
system. `OwnerRefs.dfy`, `References.dfy`, `Stages.dfy` and `HookData.dfy` are specifications that the
reconciler is proved against: owner references, the check of the references, the stages, and the data
behind the mounts of custom actions.
`Retention.dfy` is the two-pass sort and the cleanup, `ManifestIndex.dfy` the index of manifests against
a plain group-by, `VersionMerge.dfy` the merge of versions. `Text.dfy` and `Objects.dfy` hold strings and
data.

## What turned out to hold only under a condition

- Mutual exclusion holds in every run exactly if `spec.cluster` cannot be edited
  (`Runs.MutualExclusion`): the webhook's rule covers creation only. It is a rule about operations: while
  the Job of an operation is under way no other operation is admitted for its cluster if users neither
  delete nor edit the operation and the cluster gets no SSH reference (`Endings.OthersStayOut`), and
  otherwise one can be (`Witnesses.AdmittedBesideJob`).
- The recorded Job is the operation's own exactly if there was none, or its own, when the launching pass
  looked for it (`Ownership.RecordedIsOwn`), and so is the Job that a Succeeded operation rests on unless
  it was deleted in between (`Endings.CompletedIsOwn`). Where a name is used again before the Job of the
  deleted operation is gone, the new operation can be Succeeded without any Job of its own
  (`Witnesses.SucceededByAnothersJob`).
- A Job that a pass created before it crashed is found again exactly if the operation's hosts reference
  is in the operator's namespace (`Passes.CanLaunch` in `OpsController.Controller.CreateKubeSprayJob`): the
  code looks the Job up in the namespace of that reference and creates it in its own.
  `Witnesses.JobIsNeverAdopted` is a run into this state. From there no number of undisturbed passes gets
  any further, and the operation keeps all others out of its cluster
  (`OpsController.Controller.PassesWhileStuck`).
- Under a recorded Job one validation can still fail an operation that nobody edited, and exactly if it
  has no SSH reference, its cluster has one now, and the Secret behind that is not there
  (`Refusals.RefusedUnderJob`, `Refusals.PassUnderJob`). So the operation is Failed although its Job
  completes in `Witnesses.FailedThoughJobCompleted`; while the cluster has no SSH reference after the Job
  was recorded, the Job alone decides (`Endings.JobAloneDecides`).
- The verdict of a Job that is over is stored exactly if both ConfigMap references of the cluster are
  still there (`Passes.VerdictIsStored`): the backups, which are long done, are looked at first. Without
  them the operation is called again for ever (`Witnesses.VerdictIsNeverStored`).
- A pass leaves an unfinished operation without asking to be called again exactly if it refused the image
  or the references and could not write the status (`OpsController.Controller.Reconcile`).
- The mount of a custom action shows the data of the ConfigMap that the action refers to, whatever the
  contents, exactly if no built-in volume shows something else under its name, equal names mean equal
  namespaces, and the names of ConfigMaps from other namespaces are free in the operator's
  (`HookData.MountsShowReferences`). `HookData.TwoNamespaces` is a pair of actions that shares one
  ConfigMap; `Passes.LaunchedMounts` gives the case of each single action after the pass that creates the
  Job.
- The mount paths of a Job are distinct, as the API server demands, exactly if no custom action occurs
  twice among the actions of its operation and none is a shell action called "entrypoint.sh"
  (`JobVolumes.PathsAre`). Otherwise no Job is ever created, and the operation is called again for ever.
- The digest does not see hooks that move across the main action (`Objects.SummaryMissesMovedHooks`).
- The promised order of old operations comes out of a second sort that is not stable exactly if no two
  operations of one score differ in age (`Retention.UnstableSecondPass`), and a second cleanup then
  deletes nothing exactly if no kept operation ties with a spared one
  (`Retention.SecondCleanupUnstable`).
- Merged versions settle on the union of the normalised ones exactly if none starts with "vv"
  (`VersionMerge.SettlesWithoutVv`).
- A merged status whose write failed is written again by the same artifact set exactly if one of its
  versions starts with "v" (`VersionMerge.RepeatedMergeUpdates`), because the cache has it already.

## Assumptions

Admission and persistence of a creation are one step, and the webhook is always asked. One worker at a
time handles the operation of a name. Reads are fresh: no call returns an older state than an earlier
call. Only the operator writes statuses and the `hasCompleted` label. UIDs are never reused. MD5 is
injective (a free constructor). For progress, time moves on between two passes, so that two backups do
not get the same timestamp.

## Model

| member | source | states |
|---|---|---|
| Text.StampedNameInjective | pkg/controllers/clusterops/controller.go:870-884 | a name with a timestamp suffix determines both the name and the time, so backups taken at different times or of differently named objects never share a name |
| Text.StampedNameIsNoEntrypoint | pkg/controllers/clusterops/controller.go:659-668 | no backup has the name of an entrypoint script |
| Text.SpaceIs | pkg/controllers/clusterops/controller.go:74-83 | which ASCII characters are spaces |
| Text.TrimSpaceIs | pkg/controllers/clusterops/controller.go:74-83 | trimming takes the spaces at both ends away and nothing else |
| Text.TrimVIs | pkg/util/version.go:5-18 | exactly one letter "v" goes from the front |
| Text.AtoiMeans | pkg/controllers/cluster/controller.go:107-113 | what is read from a written number with or without a sign, from one out of range, and from text that is no number |
| Objects.ConfigDataList | api/apis/clusteroperation/v1alpha1/types.go:83-92 | the loops list the references of hosts, vars, script, main action, pre-hooks and post-hooks, in this order |
| Objects.SummaryMissesMovedHooks | pkg/controllers/clusterops/controller.go:69-85 | actions that move from the end of the pre-hooks to the front of the post-hooks leave the digested text unchanged |
| Objects.EditChangesSummary | pkg/controllers/clusterops/controller.go:69-85 | a change of one digested field alone (cluster, image, type or trimmed text of the main action or of one hook) changes the digested text |
| Objects.ConfigRefsAre | api/apis/clusteroperation/v1alpha1/types.go:83-92 | the listed references are exactly those of hosts, vars, script, main action and hooks |
| Objects.ImageMeans | pkg/controllers/clusterops/controller.go:190-199 | an image name is accepted exactly if it begins and ends with a letter or number and has no space |
| EntryPoint.HookCommandMeaning | pkg/util/entrypoint/entrypoint.go:112-154 | an action compiles exactly if it is accepted; a playbook's command is its options, its path under /kubespray/ and then all its extra arguments and nothing more; a shell action is its own text |
| EntryPoint.PlaybookOptionsMeaning | pkg/util/entrypoint/entrypoint.go:119-128 | the private key is offered when there is one, reset and remove-node are confirmed beforehand, and there are no other options |
| EntryPoint.CompileMeaning | pkg/util/entrypoint/entrypoint.go:136-191 | compilation fails exactly if some action fails, and otherwise command i of each list is that of hook i, with its extra arguments |
| EntryPoint.Script.PreHookRunPart | pkg/util/entrypoint/entrypoint.go:156-163 | appends the command exactly if the action is accepted, and nothing otherwise |
| EntryPoint.Script.PostHookRunPart | pkg/util/entrypoint/entrypoint.go:165-172 | the same for post-hooks |
| EntryPoint.Script.SprayRunPart | pkg/util/entrypoint/entrypoint.go:174-191 | sets the main command exactly if the action is accepted |
| EntryPoint.CompileScript | pkg/controllers/clusterops/controller.go:638-655 | the two loops and the main action yield the compiled script, or an argument error |
| JobVolumes.JobObject.NewKubesprayJob | pkg/controllers/clusterops/controller.go:364-509 | the Job under construction has the built-in volumes and mounts and is well formed; inventory, variables and script are mounted at their paths from the references of hosts, vars and script, and the private key exactly if there is an SSH reference |
| JobVolumes.JobShowsData | pkg/controllers/clusterops/controller.go:411-499 | custom actions do not change that: for every spec the mounts of its Job show hosts, vars, script and key at their paths |
| JobVolumes.ShownAlone | pkg/controllers/clusterops/controller.go:411-499 | and in an accepted Job nothing else is shown there |
| JobVolumes.JobObject.InjectCustomAction | pkg/controllers/clusterops/controller.go:733-764 | one mount is appended, and one volume unless its name is taken |
| JobVolumes.AddAllKeepsJobWellFormed | pkg/controllers/clusterops/controller.go:692-765 | for all hook lists, volume names stay pairwise distinct, every mount names a volume, and no volume goes away |
| JobVolumes.AddAllMountsInOrder | pkg/controllers/clusterops/controller.go:692-765 | custom mounts come one for each custom hook, in the order of the hooks |
| JobVolumes.CustomMountBacked | pkg/controllers/clusterops/controller.go:739-764 | the volume behind a custom mount is one of the ConfigMap that has the name of the action's reference, if and only if no earlier volume of that name shows something else |
| JobVolumes.UnreservedMountBacked | pkg/controllers/clusterops/controller.go:411-499 | so it is for all names other than the four built-in volume names; whose data that ConfigMap has is in the rows of HookData |
| JobVolumes.PathsAre | pkg/controllers/clusterops/controller.go:733-764 | the mount paths of the Job for a spec are distinct if and only if no custom action occurs twice and none has the path of the entrypoint script |
| JobVolumes.ScriptAndJobAgree | pkg/controllers/clusterops/controller.go:641-653 | the builtin tests of script and Job are complements; a custom playbook's command runs the path at which the Job mounts it, with the action as sub-path; a custom shell action is mounted under /bin |
| HookData.OwnDataIs | pkg/controllers/clusterops/controller.go:725-732 | after all actions brought their ConfigMaps here, the one that an action mounts has the data of its reference if and only if the one that was here before has it or, if there was none, the one that the first action of this name brought |
| HookData.OwnDataForAllContents | pkg/controllers/clusterops/controller.go:692-732 | all actions get the data they refer to, whatever the contents, if and only if the ConfigMaps are there, equal names mean equal namespaces, and names of foreign ones are free here |
| HookData.MountsShowReferences | pkg/controllers/clusterops/controller.go:692-765 | the same for the mounts of the Job, with the condition on built-in volumes |
| HookData.TwoNamespaces | pkg/controllers/clusterops/controller.go:725-732 | two actions with ConfigMaps of one name in two namespaces: the second gets the data of the first |
| Invariants.WritesKeepSummary | pkg/controllers/clusterops/controller.go:69-98 | no write of the operator changes the digested text |
| Invariants.StepKeepsInv | pkg/controllers/clusterops/controller.go:201-327 | every step of the operator and of the environment keeps the invariant |
| Invariants.RunKeepsInv | pkg/controllers/clusterops/controller.go:201-327 | so it holds after every run |
| Runs.MutualExclusion | pkg/webhooks/clusterops/clusterops_webhook.go:259-274 | at most one unfinished operation for each cluster in every run, if and only if spec.cluster cannot be edited |
| Runs.StatusMoves | pkg/controllers/clusterops/controller.go:132-156 | a status moves only from empty to Running or Failed and from Running to Succeeded or Failed; finished ones are absorbing |
| Runs.StatusNeverReverts | pkg/controllers/clusterops/controller.go:201-327 | between any two states of a run, the Job reference, start time, digest, tamper flag and finished statuses never revert |
| Runs.StatusMeans | pkg/controllers/clusterops/controller.go:547-555 | in every reachable state Running implies a recorded Job and a start time, Succeeded also an end time; a recorded Job implies a digest and, without later edits, the name of the main action; the label implies a finished status |
| Runs.SucceededMeansComplete | pkg/controllers/clusterops/controller.go:172-187 | the verdict is Succeeded if and only if the first true terminal condition is Complete |
| Runs.VerdictMeans | pkg/controllers/clusterops/controller.go:172-187 | the verdict is Running if and only if no condition is terminal, and Failed if and only if the first terminal one is that the Job failed, is about to fail, or is suspended |
| Runs.AtMostOneJob | pkg/controllers/clusterops/controller.go:511-559 | whatever crashes and fails, an operation creates at most one Job more than Jobs of its name were deleted, and none under another name |
| Runs.JobsConserved | pkg/controllers/clusterops/controller.go:515-559 | Jobs created under a name are those deleted and the one there |
| Runs.NoJobAfterLaunch | pkg/controllers/clusterops/controller.go:515-518 | once the Job reference is persisted, no later step of any run creates a Job for the operation |
| Runs.RecordedJobIsOwn | pkg/controllers/clusterops/controller.go:547-555 | a recorded reference names the Job of the operation's name, which an operation of that name created, the same one if the name was not reused |
| Ownership.StoredJobFollowsSpec | pkg/controllers/clusterops/controller.go:364-509 | in every run a stored Job was created by a pass of its owner, with the volumes and mounts of the spec that this pass had read when it began: at /conf/hosts.yml the ConfigMap of its hosts, at /conf/group_vars.yml that of its vars, at /bin/entrypoint.sh that of its script, and the key exactly if it has one |
| Ownership.OwnerStays | pkg/controllers/clusterops/controller.go:515-546 | a Job that nobody deletes stays the Job of whoever created it |
| Ownership.LaunchMeans | pkg/controllers/clusterops/controller.go:515-559 | in every run an operation with a recorded Job came by it in one pass, which looked for it in the namespace of the hosts reference, and found it there or else created it, and had it before it recorded it |
| Ownership.RecordedIsOwn | pkg/controllers/clusterops/controller.go:519-550 | the recorded Job is the operation's own if and only if there was none, or its own, when that pass looked |
| Runs.StoredJobsWellFormed | pkg/controllers/clusterops/controller.go:364-509 | every Job in every reachable state has distinct volume names and mount paths and no mount without a volume |
| Endings.FinishedMeans | pkg/controllers/clusterops/controller.go:201-327 | what every finished operation rests on: a pass that began after its Job was recorded saw this Job, still that of its maker unless it was deleted in between, with conditions of that verdict, or that it was missing; or, for Failed only, the operation itself was not acceptable at that step, or the pass saw a cluster and then objects with which its references are not |
| Endings.CompletedIsOwn | pkg/controllers/clusterops/controller.go:519-555 | unless it was deleted in between, the completed Job of a Succeeded operation is its own if and only if there was none, or its own, when the launching pass looked |
| Refusals.RefusedUnderJob | pkg/controllers/clusterops/controller.go:973-1008 | under a recorded Job and without later edits, a validation refuses the operation if and only if it has no SSH reference, its cluster has one now, and the Secret behind that is not in the store |
| Refusals.PassUnderJob | pkg/controllers/clusterops/controller.go:215-326 | an undisturbed pass, whatever pod it sees running, refuses it exactly in this case unless it stops for the pod, makes it Failed exactly then or when it comes to a Job that failed or is missing, and as long as the Job is under way and no Secret missing asks again and leaves it Running |
| Endings.FinishedUnderJob | pkg/controllers/clusterops/controller.go:201-327 | in every run such an operation ended through its Job, or its cluster, which had no SSH reference before the Job was recorded, was later seen with one whose Secret was missing |
| Endings.JobAloneDecides | pkg/controllers/clusterops/controller.go:241-248 | if the cluster has no SSH reference at any time after the Job was recorded, no validation fails the operation: its Job decides |
| Endings.OthersStayOut | pkg/webhooks/clusterops/clusterops_webhook.go:259-274 | in every run in which the operation is neither deleted nor edited, its cluster has no SSH reference after the launch and its Job is under way all the time, no other operation is admitted for the cluster |
| Witnesses.JobIsNeverAdopted | pkg/controllers/clusterops/controller.go:519-546 | a run in which a pass crashes after it created the Job of an operation whose hosts reference is elsewhere, and after which passes get nowhere although the Job is there |
| Witnesses.FailedThoughJobCompleted | pkg/controllers/clusterops/controller.go:973-1008 | a run in which nobody edits the operation, its recorded Job completes, and the operation is Failed because its cluster got an SSH reference without a Secret |
| Witnesses.AdmittedBesideJob | pkg/webhooks/clusterops/clusterops_webhook.go:259-274 | the same run before the Job completes: another operation is admitted for the cluster |
| Witnesses.VerdictIsNeverStored | pkg/controllers/clusterops/controller.go:870-875 | a run in which the cluster loses its hosts reference, the Job completes, and no pass stores the verdict |
| Witnesses.SucceededByAnothersJob | pkg/controllers/clusterops/controller.go:519-555 | a run in which a name is used again, and the second operation is Succeeded on account of the Job that a crashed pass for the first one left |
| Snapshots.BackupIsSnapshot | pkg/controllers/clusterops/controller.go:870-926 | behind an operator-filled reference is what its pass read: after the pass began, the cluster had the reference that was copied, and then, before the copy was made, the object behind it had that content; no operator step changes the copy, and the spec still names it unless users edit |
| Snapshots.FieldsAreSnapshots | pkg/controllers/clusterops/controller.go:870-926 | field by field: backed-up hosts are a stamped copy of the cluster's hosts, vars of its vars, and the SSH secret of its SSH secret |
| Snapshots.BackupNamesAreOwn | pkg/controllers/clusterops/controller.go:783-837 | two backups of one name are of one source name and time, and none is a script |
| Snapshots.FlagMeansTampering | pkg/controllers/clusterops/controller.go:104-122 | the tamper flag is set only if users changed the digested text of this operation after its digest was taken |
| Snapshots.CopyWasTaken | pkg/controllers/clusterops/controller.go:783-837 | every recorded backup was made at a step of the run by a pass for its operation |
| Snapshots.CopyWasRead | pkg/controllers/clusterops/controller.go:783-837 | this pass had read the reference and then the content, both after it began and before the step |
| ApiServer.Server.Update | pkg/controllers/clusterops/controller.go:891-893 | spec and metadata are stored, the status is not, and a stale revision is refused |
| ApiServer.Server.StatusUpdate | pkg/controllers/clusterops/controller.go:93-96 | the status is stored, spec and metadata are not, and a stale revision is refused |
| ApiServer.Server.CreateObj | pkg/controllers/clusterops/controller.go:678-679 | an object is created unless its name is taken |
| ApiServer.Server.OverwriteEntry | pkg/controllers/clusterops/controller.go:679-684 | an existing script is overwritten |
| ApiServer.Server.BeginPass | pkg/controllers/clusterops/controller.go:201-214 | a pass begins with the operation that was read, and with its Job recorded or not |
| ApiServer.Server.UpdateOwners | pkg/util/cluster.go:97-101 | one owner is added, and it is refused unless the object was the same in all states from the read to the write |
| ApiServer.Server.CreateJobObject | pkg/controllers/clusterops/controller.go:535-539 | a Job of the operation's name and spec is created, and then owned by it, exactly if there is none and its mount paths are distinct |
| ApiServer.Server.SuspendJob | pkg/controllers/clusterops/controller.go:601-609 | the recorded Job is suspended and nothing else changes, and it is refused unless the Job was the same in all states from the read to the write |
| OwnerRefs.OwnedMeans | pkg/util/cluster.go:75-130 | every existing referenced object gets the owner, at most one reference is added, data and earlier owners stay |
| OwnerRefs.RerunReachesTheSame | pkg/util/cluster.go:75-130 | a rerun after a partial failure reaches the same objects, and after a complete call nothing is left to do |
| Stages.FirstLackIsFirst | pkg/controllers/clusterops/controller.go:249-313 | the stage of the next pass is the first missing one in the order owner, digest, flag, hosts, vars, SSH, script, Job |
| Stages.WriteCompletesOneStage | pkg/controllers/clusterops/controller.go:249-313 | the write of a stage completes that stage and undoes no other |
| Stages.StagesLeftGoDown | pkg/controllers/clusterops/controller.go:249-313 | so the number of missing stages goes down by exactly one |
| References.CheckKeepsPassing | pkg/controllers/clusterops/controller.go:973-1008 | once the check of the references passed, it keeps passing as references are backed up one by one |
| References.RefsOkMeans | pkg/controllers/clusterops/controller.go:973-1008 | the check in terms of the fields: each of hosts, vars and SSH that the operation lacks leads to an object (SSH only if the cluster has it), and any two of these are in one namespace |
| Stages.StageProgress | pkg/controllers/clusterops/controller.go:249-313 | after a stage before the last, the others are as before, and the next pass finds everything it needs |
| Passes.VerdictIsStored | pkg/controllers/clusterops/controller.go:870-875 | the verdict of a Job that is over is stored if and only if both ConfigMap references of the cluster are there |
| Passes.FailsExactly | pkg/controllers/clusterops/controller.go:215-326 | a pass for an operation with a recorded Job makes it Failed in two cases only, neither of which it comes to when it stops for a pod: a validation refuses it, or the pass comes to the Job and this failed or is missing |
| Passes.LiveJobIsFollowed | pkg/controllers/clusterops/controller.go:215-326 | as long as the Job is under way, a pass that refuses nothing asks again and leaves the operation Running |
| Passes.FirstConditionDecides | pkg/controllers/clusterops/controller.go:132-188 | an undisturbed pass that comes to a Job that is over stores Succeeded if the first terminal condition is Complete and Failed otherwise, Failed for a missing Job, the completion time of the Job or the present, and the label |
| Passes.TamperingIsFlagged | pkg/controllers/clusterops/controller.go:104-122 | an undisturbed pass that comes to that stage flags every change of one digested field since the digest was taken |
| Passes.NothingIsFlagged | pkg/controllers/clusterops/controller.go:104-122 | and it leaves the status alone if the digested text is the same |
| Passes.SecondPodSuspends | pkg/controllers/clusterops/controller.go:567-612 | a pass notes the first pod and changes no Job, is not interrupted by the noted one, and suspends the Job when it sees another |
| Passes.DataKeysAre | pkg/controllers/clusterops/controller.go:839-851 | the objects to be owned are exactly the ConfigMaps of hosts, vars, script and actions and the SSH Secret |
| Passes.LaunchedMounts | pkg/controllers/clusterops/controller.go:725-764 | after the pass that created the Job, the mount of a custom action shows the data of its reference exactly if no built-in volume hides it and the first ConfigMap that had the name here has that data |
| Passes.StuckBlocks | pkg/webhooks/clusterops/clusterops_webhook.go:259-274 | an operation that passes get nowhere with keeps every other one out of its cluster |
| OpsController.Controller.CalSaltOf | pkg/controllers/clusterops/controller.go:69-85 | the loops digest cluster, main action, image, pre-hooks and post-hooks, without separators |
| OpsController.Controller.UpdateClusterOpsStatusDigest | pkg/controllers/clusterops/controller.go:87-98 | the digest is taken exactly if it is missing, and nothing else changes |
| OpsController.Controller.UpdateStatusHasModified | pkg/controllers/clusterops/controller.go:104-122 | the flag is set exactly if there is a digest that no longer fits and no flag yet |
| OpsController.Controller.ReadConditions | pkg/controllers/clusterops/controller.go:172-187 | the first true one of four conditions decides, and Running stands for none |
| OpsController.Controller.FetchJobStatus | pkg/controllers/clusterops/controller.go:158-188 | whatever fails and whoever interferes, the verdict is that of the conditions that the recorded Job has when it is read, and Failed only if it is missing then; an error exactly for a missing reference when calls do not fail |
| OpsController.Controller.RecordEnd | pkg/controllers/clusterops/controller.go:143-152 | the verdict and an end time are stored |
| OpsController.Controller.UpdateStatusLoop | pkg/controllers/clusterops/controller.go:132-156 | asks again exactly while the verdict is Running, and otherwise stores it with the completion time of the Job, or the present one if the Job has none |
| OpsController.Controller.UpdateStatusForLabel | pkg/controllers/clusterops/controller.go:853-867 | a finished operation gets the label, and nothing else changes |
| OpsController.Controller.FindActor | pkg/controllers/clusterops/controller.go:567-590 | no pod is looked for without a Job or when it is gone, suspended or finished |
| OpsController.Controller.TrySuspendPod | pkg/controllers/clusterops/controller.go:567-612 | an undisturbed call asks again exactly if it sees a running pod and none or another one is noted; then the pod becomes the actor, or the Job is suspended |
| OpsController.Controller.KeepActor | pkg/controllers/clusterops/controller.go:589-611 | the first pod is written down, another one suspends the Job and changes nothing else, and the same one changes nothing |
| OpsController.Controller.CheckExist | pkg/controllers/clusterops/controller.go:937-971 | up to five tries; an object is called missing only if it is missing when the call returns, and exactly then if calls do not fail |
| OpsController.Controller.CheckClusterDataRef | pkg/controllers/clusterops/controller.go:973-1008 | references are refused only if, when the call returns, one to be backed up leads to no object or two namespaces occur, and exactly then if calls do not fail and nobody interferes |
| OpsController.Controller.UpdateOperationOwnReferenceForCluster | pkg/controllers/clusterops/controller.go:329-343 | the cluster is added to the owners exactly if it has a UID and is not among them |
| OpsController.Controller.CopyBackup | pkg/controllers/clusterops/controller.go:783-837 | a copy has the data that the object had during the call, a stamped name in the operator's namespace and the operation as owner |
| OpsController.Controller.BackUpSlot | pkg/controllers/clusterops/controller.go:882-895 | one backup is taken and recorded, and that completes its stage |
| OpsController.Controller.BackUpDataRef | pkg/controllers/clusterops/controller.go:870-926 | a cluster without one of its two ConfigMap references is an error that changes nothing; otherwise a pass takes exactly the first missing backup of hosts, vars and SSH, and an undisturbed one completes that stage |
| OpsController.Controller.WriteEntry | pkg/controllers/clusterops/controller.go:659-685 | the script is created or overwritten |
| OpsController.Controller.CreateEntryPointShellConfigMap | pkg/controllers/clusterops/controller.go:633-689 | argument errors are exactly those of the compilation, and then nothing is written; otherwise the script is written and recorded |
| OpsController.Controller.OwnObject | pkg/util/cluster.go:77-102 | one referenced object gets its owner; where it has it already, nothing is written |
| OpsController.Controller.OwnObjects | pkg/util/cluster.go:76-129 | the loop stops at the first error, and what it reached is owned |
| OpsController.Controller.UpdateOwnReferenceToClusterOps | pkg/controllers/clusterops/controller.go:839-851 | all referenced objects are owned after a complete call, some after a failed one, data is unchanged, and a call with nothing to do writes nothing |
| OpsController.Controller.CopyAction | pkg/controllers/clusterops/controller.go:725-732 | a ConfigMap of another namespace is copied here with its data unless its name is taken, and a missing one is an error |
| OpsController.Controller.HookCustomAction | pkg/controllers/clusterops/controller.go:692-723 | the Job gets what the custom actions of all hooks add, and the operator's namespace the data they bring, in order; without failing calls it succeeds exactly if each has a reference and its ConfigMap can be had |
| OpsController.Controller.BuildJob | pkg/controllers/clusterops/controller.go:525-534 | the Job to create has the built-in and the custom volumes and mounts, shows hosts, vars, script and key at their paths, and is well formed; it exists exactly if there is a service account and the custom actions are accepted |
| OpsController.Controller.FindOrMakeJob | pkg/controllers/clusterops/controller.go:519-546 | an existing Job is adopted and not created again; a missing one is created; whoever interferes, the Job was there during the call and was that of the one it names |
| OpsController.Controller.CreateKubeSprayJob | pkg/controllers/clusterops/controller.go:515-559 | no Job is created once the reference is there; otherwise, when calls do not fail, the Job is recorded if and only if an existing one is in the namespace of the hosts reference or a missing one can be created |
| OpsController.Controller.EarlyStages | pkg/controllers/clusterops/controller.go:249-301 | the first missing stage before the Job is completed; wrong arguments mark the operation as failed and write no object |
| OpsController.Controller.JobStages | pkg/controllers/clusterops/controller.go:306-326 | Job and verdict: launches exactly what can be launched, and follows a recorded Job |
| OpsController.Controller.LastStages | pkg/controllers/clusterops/controller.go:301-326 | the same behind the owner references of the data, which make no difference for it |
| OpsController.Controller.Validate | pkg/controllers/clusterops/controller.go:232-248 | a bad image or a failing check of references marks the operation as failed, and nothing else changes; if that write fails, nothing changes and the pass does not ask again |
| OpsController.Controller.Pass | pkg/controllers/clusterops/controller.go:215-326 | what every undisturbed pass does: it keeps the actor and asks again, or it waits for the cluster, or it completes the first missing stage, or refuses, or records the Job, or follows it; with an emptied cluster reference or a Job out of reach it changes no operation and asks again |
| OpsController.Controller.Reconcile | pkg/controllers/clusterops/controller.go:201-327 | whatever fails, the store stays a result of legal steps; every undisturbed pass for an unfinished operation does what Pass promises, also while its Job is under way; a finished or missing operation is left alone; as long as nobody interferes, an unfinished operation is left without asking again if and only if a refusal of image or references could not be written |
| OpsController.Controller.RunUntilLaunched | pkg/controllers/clusterops/controller.go:201-327 | requeued passes record the Job after exactly as many passes as stages are missing, seven at most, and adopt a Job that a crashed pass left |
| OpsController.Controller.PassesWhileStuck | pkg/controllers/clusterops/controller.go:515-546 | an operation whose Job can be neither found nor created, or whose cluster lost a reference, is called again for ever: no number of undisturbed passes changes an operation or a Job, and no other operation is admitted for its cluster |
| Webhook.Decide | pkg/webhooks/clusterops/clusterops_webhook.go:229-274 | bad requests are those without a cluster or with a failed listing; the first blocking operation in the list is named, and without one the request is allowed |
| Webhook.DecisionIsAdmission | pkg/webhooks/clusterops/clusterops_webhook.go:259-274 | for every order of listing the decision is the rule that admits a creation: no other operation of the cluster is without a status or Running |
| Webhook.FirstBlockerIs | pkg/webhooks/clusterops/clusterops_webhook.go:259-274 | the one that is named is the first of the list that blocks |
| Webhook.LabelFilterRefinesScan | pkg/webhooks/clusterops/clusterops_webhook.go:236-243 | in every reachable state the list filtered by label gives the same decision and blames the same operation as the full list |
| Webhook.AllowedCreation | pkg/webhooks/clusterops/clusterops_webhook.go:259-274 | an allowed creation is a step of the system, and no other operation of its cluster is unfinished |
| Retention.BackEndLimit | api/cluster/cluster.go:15-26 | the limit is the configured number between 1 and 200, 30 for all that is not positive, and 200 for all above |
| Retention.LimitMeans | api/cluster/cluster.go:15-26 | a written number means itself up to 200, however many digits it has; negative numbers, zero and text that is no number mean 30 |
| Retention.ScoreMeans | pkg/controllers/cluster/controller.go:107-113 | the annotated number is the score, with its sign; no annotation, other text and numbers out of range count as 0 |
| Retention.StableSortSorts | pkg/controllers/cluster/controller.go:116-123 | the specification of a stable sort is met by an insertion sort |
| Retention.StableSortIsUnique | pkg/controllers/cluster/controller.go:116-123 | and determines its result |
| Retention.StableSecondPass | pkg/controllers/cluster/controller.go:115-123 | a stable second pass gives a permutation by rising score, then newest first |
| Retention.UnstableSecondPass | pkg/controllers/cluster/controller.go:115-123 | an arbitrary second pass gives that order in all cases if and only if no two operations of one score differ in age |
| Retention.SortClusterOperationsByCreation | pkg/controllers/cluster/controller.go:116-123 | the two passes over the array: a permutation by score, with the stronger promises where the passes are stable |
| Retention.StableSortCommutes | pkg/controllers/cluster/controller.go:116-123 | stable sorting commutes with removing operations |
| Retention.DeleteExcess | pkg/controllers/cluster/controller.go:138-145 | the deletions that succeed are among those of operations beyond the limit that are not Running, and all of these if no call fails |
| Retention.CleanExcessClusterOps | pkg/controllers/cluster/controller.go:126-147 | asks for another pass exactly if there are more operations than the limit, and then deletes as above |
| Retention.CleanupKeeps | pkg/controllers/cluster/controller.go:138-145 | whatever fails, Running operations and the first ones within the limit stay |
| Retention.CleanupLeaves | pkg/controllers/cluster/controller.go:126-147 | if deletions succeed, the survivors are exactly the first ones within the limit and the Running ones beyond |
| Retention.DeletedAreWorst | pkg/controllers/cluster/controller.go:126-147 | no deleted operation is Running, and none has a lower score than a kept one within the limit |
| Retention.LargerGoesFirst | pkg/controllers/cluster/controller.go:115-147 | of two annotated operations the one with the larger number goes first: if the other one is deleted, it is deleted too unless it is Running |
| Retention.SecondCleanup | pkg/controllers/cluster/controller.go:126-147 | with stable sorts a second cleanup deletes nothing, and asks for another pass exactly if a Running operation was spared |
| Retention.SecondCleanupUnstable | pkg/controllers/cluster/controller.go:126-147 | with sorts that are not stable it deletes nothing in all cases if and only if no operation within the limit that is not Running ties with a spared one |
| ManifestIndex.VersionedManifest.Op | pkg/controllers/infomanifest/controller.go:64-77 | the three operations by name, and nothing for other names; an event about real manifests keeps the index equal to the grouping of the live ones |
| ManifestIndex.VersionedManifest.AddManifest | pkg/controllers/infomanifest/controller.go:79-90 | a labelled manifest is appended to its bucket |
| ManifestIndex.VersionedManifest.UpdateManifest | pkg/controllers/infomanifest/controller.go:92-105 | the old manifest is removed and the new one added, unless they are equal |
| ManifestIndex.VersionedManifest.DeleteManifest | pkg/controllers/infomanifest/controller.go:107-131 | the first manifest of the name is removed, and an empty bucket goes away |
| ManifestIndex.VersionedManifest.LookUp | pkg/controllers/offlineversion/controller.go:112-115 | as long as the index agrees with the live manifests, nothing is found exactly if none of them has the release, and otherwise exactly those that have it, each once |
| ManifestIndex.ReplayAgrees | pkg/controllers/infomanifest/controller.go:64-131 | after any fitting sequence of events the index is the grouping of the live manifests |
| ManifestIndex.LookUpIsGroupBy | pkg/controllers/offlineversion/controller.go:112-115 | a lookup finds a release exactly if some live manifest has it, and then gives exactly those manifests, each once; unlabelled ones are nowhere |
| VersionMerge.UnifyVersions | pkg/util/version.go:5-18 | the loop normalises and drops repetitions, keeping first occurrences in order |
| VersionMerge.UnifiedIs | pkg/util/version.go:5-18 | the result has each normalised version exactly once |
| VersionMerge.UnifiedTwice | pkg/util/version.go:5-18 | normalising twice is normalising once if and only if no version starts with "vv" |
| VersionMerge.MergeVersions | api/apis/manifest/v1alpha1/types.go:140-149 | missing versions are appended, and the flag tells whether there were any |
| VersionMerge.MergeInfo | api/apis/manifest/v1alpha1/types.go:176-190 | the first entry of the name is merged, or a new one appended; the flag is false exactly if everything was there |
| VersionMerge.MergesConverge | pkg/controllers/offlineversion/controller.go:44-79 | any number of merges gives each component the union of normalised versions and each operating system the plain union, if only the last set has versions that start with "vv" |
| VersionMerge.OrderDoesNotMatter | pkg/controllers/offlineversion/controller.go:44-79 | sequences of the same artifact sets give the same versions |
| VersionMerge.SettlesWithoutVv | pkg/controllers/offlineversion/controller.go:60-62 | that union is what a set and any later set give, if and only if no version of the first starts with "vv" |
| VersionMerge.RepeatedMergeChangesNothing | pkg/controllers/offlineversion/controller.go:44-79 | repeating a set leaves the status unchanged even where it counts as an update again |
| VersionMerge.RepeatedMergeUpdates | pkg/controllers/offlineversion/controller.go:57-75 | it counts as an update again if and only if one of its versions starts with "v" |
| VersionMerge.CachedManifest.MergeArtifacts | pkg/controllers/offlineversion/controller.go:46-62 | the loops over docker and items and the normalisation yield the merged status; the flag tells whether there was anything to merge |
| VersionMerge.MergeManifestsStatus | pkg/controllers/offlineversion/controller.go:44-79 | all manifests up to the first failed write are merged in the cache, those before it on the server, and the rest is untouched |
| VersionMerge.StoredAfterIs | pkg/controllers/offlineversion/controller.go:63-76 | on the server exactly the manifests that were updated and exist changed, to their merged status |

## Left out

- Stale reads from caches, two workers on one operation, and creations that are admitted concurrently or while the webhook is not asked (its failure policy): see the assumptions above.
- Object revisions of ConfigMaps, Secrets and Jobs: a write conflicts if the value changed at any time since the read. Pods are not in the store: `RunningPod` returns any name or none.
- Jobs that others create under the operator's names, in its namespace or in others, and users who write statuses or the label.
- OpsController.Controller.TrySuspendPod: which pod is running is arbitrary, since pods are not in the store; every contract holds for each of them.
- OpsController.Controller.Reconcile: the second test for a finished status (lines 223-225) cannot succeed and is not in the body; requeue delays are not modelled.
- The label of finished operations after a failed validation: the code returns before it sets it, and so does the model.
- Progress for a custom action without a reference: the code retries for ever.
- References without a namespace: the API client answers them with an error, and here they lead to a namespace in which nothing is.
- A joint snapshot of hosts, vars and SSH: they are copied in separate passes.
- ExtraArgs, ActionSource and references are not part of the digest; nothing is claimed about edits of them.
- The entrypoint template and its rendering: the model stops at the command lists. `Render` is assumed to succeed.
- Image tags, environment, resources, deadlines, owner references and annotations of the Job; the text of error messages and logs.
- Unicode's letters and numbers are a parameter (`alnum`), and strings are sequences of characters.
- Slices that share memory: the index and the merged docker versions are values here, so readers that hold a slice while it is edited in place are not covered. Locking of the index is not modelled either.
- Events about manifests that are not what the cache had, such as tombstones.
- The migration of artifact sets without a release label to "master", the local service and image fields of manifests.
- ManifestIndex.VersionedManifest.AddManifest: the Go methods `add`, `update` and `delete` carry the longer names here.
- `UpdateStatus` of clusters and `CompareClusterConditions`: a list comparison and a copy, which would only add easy members.
- HTTP, JSON, TLS, certificates, leader election, generated clients, commands and release scripts.
