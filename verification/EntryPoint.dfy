/** Compilation of the hooks of an operation to the commands of its entrypoint script
    (pkg/util/entrypoint/entrypoint.go). The template that prints the commands is not modelled. */
module EntryPoint {
  import opened Objects

  const PB_ACTION := "playbook"
  const SH_ACTION := "shell"
  const RESET_PB := "reset.yml"
  const REMOVE_NODE_PB := "remove-node.yml"

  const PLAYBOOKS: seq<string> := [
    "facts.yml", RESET_PB, "scale.yml", "cluster.yml", REMOVE_NODE_PB, "upgrade-cluster.yml",
    "ping.yml", "enable-repo.yml", "disable-firewalld.yml", "kubeconfig.yml", "cluster-info.yml", "update-hosts.yml",
    "remove-pkgs.yml", "precheck.yml", "renew-certs.yml",
    "config-for-kube-vip.yml", "config-insecure-registry.yml", "enable-nf-conntrack.yml", "mount-xfs-pquota.yml",
    "set-containerd-registry-mirror.yml", "disable-kernel-unattended-upgrade.yml",
    "config-docker-cgroup-driver-for-kylinSP2.yml",
    "ensure-kube-resolv-conf.yml", "rh8-compat.yml", "strip-kylin-version.yml"]

  const ANSIBLE := "ansible-playbook -i /dev/fd/200 -b --become-user root -e \"@/conf/group_vars.yml\""

  /** What the script module takes for a builtin action. */
  predicate IsBuiltin(h: Hook) {
    h.source.None? || h.source.value == BUILTIN
  }

  /** The command in front of the playbook's path. */
  function PlaybookOptions(action: string, isPrivateKey: bool): (options: string)
    ensures ANSIBLE <= options
  {
    var options := ANSIBLE;
    var options := if isPrivateKey then options + " --private-key /auth/ssh-privatekey" else options;
    var options := if action == RESET_PB then options + " -e \"reset_confirmation=yes\"" else options;
    if action == REMOVE_NODE_PB then options + " -e \"skip_confirmation=true\"" else options
  }

  const KEY_OPTION := " --private-key /auth/ssh-privatekey"
  const RESET_OPTION := " -e \"reset_confirmation=yes\""
  const REMOVE_OPTION := " -e \"skip_confirmation=true\""

  ghost predicate Contains(text: string, part: string) {
    exists i | 0 <= i <= |text| :: part <= text[i..]
  }

  lemma ContainsAt(front: string, part: string, back: string)
    ensures Contains(front + part + back, part)
  {
    assert (front + part + back)[|front|..] == part + back;
  }

  /** The private key is offered exactly when there is one, the two playbooks that ask back are confirmed
      beforehand, and there are no other options. */
  lemma PlaybookOptionsMeaning(action: string, key: bool)
    ensures var options := PlaybookOptions(action, key); var plain := if key then ANSIBLE + KEY_OPTION else ANSIBLE;
      && (key ==> Contains(options, KEY_OPTION))
      && (action == RESET_PB ==> options == plain + RESET_OPTION)
      && (action == REMOVE_NODE_PB ==> options == plain + REMOVE_OPTION)
      && (action !in {RESET_PB, REMOVE_NODE_PB} ==> options == plain)
  {
    assert |RESET_PB| != |REMOVE_NODE_PB|;
    var back := if action == RESET_PB then RESET_OPTION else if action == REMOVE_NODE_PB then REMOVE_OPTION else "";
    ContainsAt(ANSIBLE, KEY_OPTION, back);
    assert (if key then ANSIBLE + KEY_OPTION else ANSIBLE) + back == PlaybookOptions(action, key);
  }

  /** `buildPlaybookCmd`. */
  function BuildPlaybookCmd(action: string, extraArgs: string, isPrivateKey: bool, builtin: bool): Result<string> {
    if builtin && action !in PLAYBOOKS then ArgsError
    else
      var cmd := PlaybookOptions(action, isPrivateKey) + " /kubespray/" + action;
      Ok(if |extraArgs| > 0 then cmd + " " + extraArgs else cmd)
  }

  /** `hookRunPart`. */
  function HookCommand(h: Hook, isPrivateKey: bool): Result<string> {
    if h.actionType == PB_ACTION then BuildPlaybookCmd(h.action, h.extraArgs, isPrivateKey, IsBuiltin(h))
    else if h.actionType == SH_ACTION then Ok(h.action)
    else ArgsError
  }

  /** Which actions are accepted. */
  predicate ValidAction(h: Hook) {
    || h.actionType == SH_ACTION
    || (h.actionType == PB_ACTION && (IsBuiltin(h) ==> h.action in PLAYBOOKS))
  }

  predicate AllValid(hooks: seq<Hook>) {
    forall h | h in hooks :: ValidAction(h)
  }

  predicate ValidActions(spec: Spec) {
    ValidAction(spec.main) && AllValid(spec.preHook) && AllValid(spec.postHook)
  }

  /** The command of an accepted action. */
  function Command(h: Hook, isPrivateKey: bool): string {
    match HookCommand(h, isPrivateKey)
    case Ok(cmd) => cmd
    case ArgsError => ""
  }

  function Commands(hooks: seq<Hook>, isPrivateKey: bool): seq<string> {
    seq(|hooks|, i requires 0 <= i < |hooks| => Command(hooks[i], isPrivateKey))
  }

  /** The script of a whole spec: everything or nothing, one command for each hook, in order. */
  function Compile(spec: Spec): Result<Payload> {
    var key := !spec.ssh.IsEmpty();
    if ValidActions(spec)
    then Ok(Rendered(Commands(spec.preHook, key), Command(spec.main, key), Commands(spec.postHook, key)))
    else ArgsError
  }

  /** Path `path` is what command `cmd` has ansible run: a whole word behind the options. */
  ghost predicate RunsPlaybook(cmd: string, path: string) {
    exists front: string, back: string :: IsCommandOf(cmd, front, path, back)
  }

  ghost predicate IsCommandOf(cmd: string, front: string, path: string, back: string) {
    && cmd == front + " " + path + back
    && ANSIBLE <= front
    && (back == "" || back[0] == ' ')
  }

  /** The extra arguments of an action as the command ends with them. */
  function ArgsText(h: Hook): string {
    if h.extraArgs == "" then "" else " " + h.extraArgs
  }

  /** Command `cmd` is that of action `h`: a shell action as it stands; for a playbook the options, its path
      under `/kubespray/`, and then its extra arguments and nothing more. */
  ghost predicate IsCommandFor(h: Hook, cmd: string, key: bool) {
    if h.actionType == SH_ACTION then cmd == h.action
    else cmd == PlaybookOptions(h.action, key) + " /kubespray/" + h.action + ArgsText(h)
  }

  /** An action compiles exactly if it is accepted; a playbook then runs from `/kubespray/` with all its
      extra arguments, which are all that they add, and a shell action is the command itself. */
  lemma HookCommandMeaning(h: Hook, key: bool)
    ensures HookCommand(h, key).Ok? <==> ValidAction(h)
    ensures ValidAction(h) <==>
      || h.actionType == "shell"
      || (h.actionType == "playbook" && ((h.source.Some? && h.source.value != "builtin") || h.action in PLAYBOOKS))
    ensures ValidAction(h) ==> IsCommandFor(h, Command(h, key), key)
    ensures ValidAction(h) && h.actionType == PB_ACTION ==> RunsPlaybook(Command(h, key), "/kubespray/" + h.action)
    ensures ValidAction(h) && h.actionType == PB_ACTION ==>
      Command(h, key) == Command(h.(extraArgs := ""), key) + ArgsText(h)
    ensures ValidAction(h) && h.actionType == SH_ACTION ==> Command(h, key) == h.action
  {
    assert PB_ACTION[0] != SH_ACTION[0];
    if ValidAction(h) && h.actionType == PB_ACTION {
      PlaybookCommandRuns(h, key);
      var cmd := PlaybookOptions(h.action, key) + " /kubespray/" + h.action;
      assert h.extraArgs != "" ==> cmd + " " + h.extraArgs == cmd + ArgsText(h);
      assert cmd + "" == cmd;
    }
  }

  lemma PlaybookCommandRuns(h: Hook, key: bool)
    requires ValidAction(h) && h.actionType == PB_ACTION
    ensures RunsPlaybook(Command(h, key), "/kubespray/" + h.action)
  {
    var front := PlaybookOptions(h.action, key);
    var back := if |h.extraArgs| > 0 then " " + h.extraArgs else "";
    var cmd := front + " /kubespray/" + h.action;
    assert cmd + back == front + " " + ("/kubespray/" + h.action) + back;
    assert Command(h, key) == cmd + back;
    assert IsCommandOf(Command(h, key), front, "/kubespray/" + h.action, back);
  }

  /** Hook `i` has command `i`, for every hook. */
  ghost predicate Matches(hooks: seq<Hook>, cmds: seq<string>, key: bool) {
    && |cmds| == |hooks|
    && forall i | 0 <= i < |hooks| :: HookCommand(hooks[i], key) == Ok(cmds[i]) && IsCommandFor(hooks[i], cmds[i], key)
  }

  /** Compilation is all or nothing and keeps the order: it fails exactly if some action fails, and
      otherwise every hook has its own command at its own place. */
  lemma CompileMeaning(spec: Spec)
    ensures var key := !spec.ssh.IsEmpty();
      match Compile(spec)
      case Ok(script) =>
        && script.Rendered? && Matches(spec.preHook, script.pre, key) && Matches(spec.postHook, script.post, key)
        && HookCommand(spec.main, key) == Ok(script.main) && IsCommandFor(spec.main, script.main, key)
      case ArgsError =>
        exists h | h in spec.preHook + [spec.main] + spec.postHook :: HookCommand(h, key) == ArgsError
  {
    var key := !spec.ssh.IsEmpty();
    var all := spec.preHook + [spec.main] + spec.postHook;
    forall h | h in all
      ensures HookCommand(h, key).Ok? <==> ValidAction(h)
      ensures ValidAction(h) ==> IsCommandFor(h, Command(h, key), key)
    {
      HookCommandMeaning(h, key);
    }
    assert spec.main in all;
    assert forall h | h in spec.preHook :: h in all;
    assert forall h | h in spec.postHook :: h in all;
  }

  /** The script under construction. */
  class Script {
    var preHookCmds: seq<string>
    var sprayCmd: string
    var postHookCmds: seq<string>

    constructor ()
      ensures preHookCmds == [] && sprayCmd == "" && postHookCmds == []
    {
      preHookCmds, sprayCmd, postHookCmds := [], "", [];
    }

    method PreHookRunPart(h: Hook, key: bool) returns (ok: bool)
      modifies this`preHookCmds
      ensures ok <==> ValidAction(h)
      ensures preHookCmds == old(preHookCmds) + if ok then [Command(h, key)] else []
    {
      HookCommandMeaning(h, key);
      var cmd := HookCommand(h, key);
      if cmd.ArgsError? {
        return false;
      }
      preHookCmds := preHookCmds + [cmd.value];
      return true;
    }

    method PostHookRunPart(h: Hook, key: bool) returns (ok: bool)
      modifies this`postHookCmds
      ensures ok <==> ValidAction(h)
      ensures postHookCmds == old(postHookCmds) + if ok then [Command(h, key)] else []
    {
      HookCommandMeaning(h, key);
      var cmd := HookCommand(h, key);
      if cmd.ArgsError? {
        return false;
      }
      postHookCmds := postHookCmds + [cmd.value];
      return true;
    }

    method SprayRunPart(h: Hook, key: bool) returns (ok: bool)
      modifies this`sprayCmd
      ensures ok <==> ValidAction(h)
      ensures sprayCmd == if ok then Command(h, key) else old(sprayCmd)
    {
      HookCommandMeaning(h, key);
      if h.actionType == PB_ACTION {
        var cmd := BuildPlaybookCmd(h.action, h.extraArgs, key, IsBuiltin(h));
        if cmd.ArgsError? {
          return false;
        }
        sprayCmd := cmd.value;
      } else if h.actionType == SH_ACTION {
        sprayCmd := h.action;
      } else {
        return false;
      }
      return true;
    }

    function Content(): Payload
      reads this
    {
      Rendered(preHookCmds, sprayCmd, postHookCmds)
    }
  }

  lemma OneMoreCommand(hooks: seq<Hook>, i: nat, key: bool)
    requires i < |hooks|
    ensures Commands(hooks[..i + 1], key) == Commands(hooks[..i], key) + [Command(hooks[i], key)]
    ensures AllValid(hooks[..i + 1]) <==> AllValid(hooks[..i]) && ValidAction(hooks[i])
    ensures AllValid(hooks) ==> ValidAction(hooks[i])
  {
    assert hooks[..i + 1] == hooks[..i] + [hooks[i]];
  }

  /** The loop over the pre-hooks, and out at the first action that is not accepted. */
  method RunPreHooks(ep: Script, hooks: seq<Hook>, key: bool) returns (ok: bool)
    modifies ep`preHookCmds
    ensures ok <==> AllValid(hooks)
    ensures ok ==> ep.preHookCmds == old(ep.preHookCmds) + Commands(hooks, key)
  {
    for i := 0 to |hooks|
      invariant AllValid(hooks[..i])
      invariant ep.preHookCmds == old(ep.preHookCmds) + Commands(hooks[..i], key)
    {
      OneMoreCommand(hooks, i, key);
      ok := ep.PreHookRunPart(hooks[i], key);
      if !ok {
        return;
      }
    }
    assert hooks[..|hooks|] == hooks;
    return true;
  }

  method RunPostHooks(ep: Script, hooks: seq<Hook>, key: bool) returns (ok: bool)
    modifies ep`postHookCmds
    ensures ok <==> AllValid(hooks)
    ensures ok ==> ep.postHookCmds == old(ep.postHookCmds) + Commands(hooks, key)
  {
    for i := 0 to |hooks|
      invariant AllValid(hooks[..i])
      invariant ep.postHookCmds == old(ep.postHookCmds) + Commands(hooks[..i], key)
    {
      OneMoreCommand(hooks, i, key);
      ok := ep.PostHookRunPart(hooks[i], key);
      if !ok {
        return;
      }
    }
    assert hooks[..|hooks|] == hooks;
    return true;
  }

  /** The compilation in `CreateEntryPointShellConfigMap` (pkg/controllers/clusterops/controller.go). */
  method CompileScript(spec: Spec) returns (script: Result<Payload>)
    ensures script == Compile(spec)
  {
    var key := !spec.ssh.IsEmpty();
    var ep := new Script();
    var ok := RunPreHooks(ep, spec.preHook, key);
    if !ok {
      return ArgsError;
    }
    ok := ep.SprayRunPart(spec.main, key);
    if !ok {
      return ArgsError;
    }
    ok := RunPostHooks(ep, spec.postHook, key);
    if !ok {
      return ArgsError;
    }
    assert ep.preHookCmds == Commands(spec.preHook, key) && ep.postHookCmds == Commands(spec.postHook, key);
    return Ok(ep.Content());
  }
}
