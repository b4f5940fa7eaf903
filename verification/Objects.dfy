/** The objects that the control plane stores, as values. */
module Objects {
  import opened Text

  datatype Option<+T> = None | Some(value: T) {
    function GetOr(default: T): T {
      if Some? then value else default
    }
  }

  datatype Result<+T> = Ok(value: T) | ArgsError

  /** A pointer to a ConfigMap, Secret or Job (api/apis/refdata.go). */
  datatype Ref = Nil | Ref(ns: string, name: string) {
    predicate IsEmpty() {
      Nil? || |name| == 0
    }

    function Name(): string {
      if Nil? then "" else name
    }

    function Ns(): string {
      if Nil? then "" else ns
    }
  }

  /** One action: a hook, or the main action of an operation. */
  datatype Hook = Hook(actionType: string, action: string, source: Option<string>, sourceRef: Ref, extraArgs: string)

  datatype Spec = Spec(
    cluster: string,
    hosts: Ref, vars: Ref, ssh: Ref, entry: Ref,
    main: Hook, image: string,
    preHook: seq<Hook>, postHook: seq<Hook>)

  datatype Phase = Unset | Running | Succeeded | Failed | Other(text: string)

  /** The digest of an operation. MD5 is a free constructor: a function about which nothing is
      known except that different texts have different digests. */
  datatype Digest = NoDigest | Md5(text: string)

  datatype Status = Status(
    action: string, jobRef: Ref, phase: Phase, start: Option<int>, end: Option<int>,
    digest: Digest, modified: bool)

  /** A ClusterOperation as the API server keeps it. */
  datatype Op = Op(
    uid: nat, rv: nat, created: int,
    labels: map<string, string>, annotations: map<string, string>, owners: seq<nat>,
    spec: Spec, status: Status)

  /** A Cluster; UID 0 is the empty UID. */
  datatype Cluster = Cluster(uid: nat, hosts: Ref, vars: Ref, ssh: Ref)

  datatype Kind = ConfigMap | Secret

  datatype Key = Key(kind: Kind, ns: string, name: string)

  /** What a ConfigMap or Secret holds: some text, or a rendered entrypoint script, of which the
      model keeps the command lists that the template prints. */
  datatype Payload = Raw(text: string) | Rendered(pre: seq<string>, main: string, post: seq<string>)

  datatype Obj = Obj(data: Payload, owners: seq<nat>)

  datatype CondType = Complete | JobFailed | FailureTarget | Suspended | OtherCond

  datatype Cond = Cond(kind: CondType, isTrue: bool)

  datatype Source = FromConfigMap(name: string) | FromSecret(name: string)

  datatype Volume = Volume(name: string, source: Source)

  datatype Mount = Mount(volume: string, path: string, subPath: string)

  /** The part of a Job's pod template that hooks can change. */
  datatype Template = Template(volumes: seq<Volume>, mounts: seq<Mount>)

  datatype Job = Job(owner: nat, suspend: bool, conds: seq<Cond>, completion: Option<int>, template: Template)

  const BUILTIN := "builtin"
  const CLUSTER_LABEL := "clusterName"
  const COMPLETED_LABEL := "hasCompleted"
  const ACTOR_ANNOTATION := "kubean.io/actor"
  const ENTRYPOINT_SUFFIX := "-entrypoint"

  predicate Finished(p: Phase) {
    p == Succeeded || p == Failed
  }

  /** The three references that the operator backs up. */
  datatype Slot = Hosts | Vars | Ssh

  function KindOf(slot: Slot): Kind {
    if slot == Ssh then Secret else ConfigMap
  }

  function SpecRef(spec: Spec, slot: Slot): Ref {
    match slot
    case Hosts => spec.hosts
    case Vars => spec.vars
    case Ssh => spec.ssh
  }

  function WithRef(spec: Spec, slot: Slot, ref: Ref): Spec {
    match slot
    case Hosts => spec.(hosts := ref)
    case Vars => spec.(vars := ref)
    case Ssh => spec.(ssh := ref)
  }

  function ClusterRef(cl: Cluster, slot: Slot): Ref {
    match slot
    case Hosts => cl.hosts
    case Vars => cl.vars
    case Ssh => cl.ssh
  }

  /** `ConfigDataList`: the ConfigMaps that an operation refers to. */
  function ConfigRefs(spec: Spec): seq<Ref> {
    [spec.hosts, spec.vars, spec.entry, spec.main.sourceRef] + HookRefs(spec.preHook) + HookRefs(spec.postHook)
  }

  function HookRefs(hooks: seq<Hook>): seq<Ref> {
    seq(|hooks|, i requires 0 <= i < |hooks| => hooks[i].sourceRef)
  }

  method ConfigDataList(spec: Spec) returns (refs: seq<Ref>)
    ensures refs == ConfigRefs(spec)
  {
    refs := [spec.hosts, spec.vars, spec.entry, spec.main.sourceRef];
    ghost var front := refs;
    for i := 0 to |spec.preHook|
      invariant refs == front + HookRefs(spec.preHook[..i])
    {
      refs := refs + [spec.preHook[i].sourceRef];
    }
    for i := 0 to |spec.postHook|
      invariant refs == front + HookRefs(spec.preHook) + HookRefs(spec.postHook[..i])
    {
      refs := refs + [spec.postHook[i].sourceRef];
    }
  }

  /** The text that is digested (`CalSalt`): no separators, no refs, no extra arguments. */
  function HookText(hooks: seq<Hook>): string {
    if hooks == [] then ""
    else HookText(hooks[..|hooks| - 1]) + hooks[|hooks| - 1].actionType + TrimSpace(hooks[|hooks| - 1].action)
  }

  function SummaryFront(spec: Spec): string {
    "kubean" + spec.cluster + spec.main.actionType + TrimSpace(spec.main.action) + spec.image
  }

  function Summary(spec: Spec): string {
    SummaryFront(spec) + HookText(spec.preHook) + HookText(spec.postHook)
  }

  lemma HookTextOneMore(hooks: seq<Hook>, h: Hook)
    ensures HookText(hooks + [h]) == HookText(hooks) + h.actionType + TrimSpace(h.action)
  {
    assert (hooks + [h])[..|hooks|] == hooks;
  }

  lemma Regroup(a: string, b: string, c: string, d: string)
    ensures a + b + c + d == a + (b + c + d)
  {
  }

  lemma {:induction false} HookTextAppends(a: seq<Hook>, b: seq<Hook>)
    ensures HookText(a + b) == HookText(a) + HookText(b)
  {
    if b == [] {
      assert a + b == a;
    } else {
      var front, last := b[..|b| - 1], b[|b| - 1];
      assert b == front + [last] && a + b == a + front + [last];
      HookTextAppends(a, front);
      HookTextOneMore(a + front, last);
      HookTextOneMore(front, last);
      Regroup(HookText(a), HookText(front), last.actionType, TrimSpace(last.action));
    }
  }

  lemma RegroupMiddle(a: string, b: string, c: string, d: string)
    ensures a + (b + c) + d == a + b + (c + d)
  {
  }

  /** The digest does not identify the spec: hooks can move across the main action unseen. */
  lemma SummaryMissesMovedHooks(spec: Spec, pre: seq<Hook>, moved: seq<Hook>, post: seq<Hook>)
    ensures Summary(spec.(preHook := pre + moved, postHook := post))
         == Summary(spec.(preHook := pre, postHook := moved + post))
  {
    HookTextAppends(pre, moved);
    HookTextAppends(moved, post);
    RegroupMiddle(SummaryFront(spec), HookText(pre), HookText(moved), HookText(post));
  }

  /** `IsValidImageName`; `alnum` stands for Unicode's letters and numbers. */
  predicate ValidImage(alnum: char -> bool, image: string) {
    && |image| != 0
    && ' ' !in image
    && alnum(image[0])
    && alnum(image[|image| - 1])
  }

  /** Which image names are accepted, by their parts. */
  lemma ImageMeans(alnum: char -> bool, first: char, middle: string, last: char)
    ensures !ValidImage(alnum, "")
    ensures ValidImage(alnum, [first]) <==> alnum(first) && first != ' '
    ensures ValidImage(alnum, [first] + middle + [last]) <==>
      alnum(first) && alnum(last) && first != ' ' && last != ' ' && ' ' !in middle
  {
    var image := [first] + middle + [last];
    assert image[0] == first && image[|image| - 1] == last;
    assert ' ' in image <==> first == ' ' || ' ' in middle || last == ' ';
  }

  /** The references of an operation to ConfigMaps are those of its data, its script and its actions. */
  lemma ConfigRefsAre(spec: Spec, ref: Ref)
    ensures ref in ConfigRefs(spec) <==>
      || ref in {spec.hosts, spec.vars, spec.entry, spec.main.sourceRef}
      || exists h :: (h in spec.preHook || h in spec.postHook) && h.sourceRef == ref
  {
    HookRefsAre(spec.preHook, ref);
    HookRefsAre(spec.postHook, ref);
  }

  lemma HookRefsAre(hooks: seq<Hook>, ref: Ref)
    ensures ref in HookRefs(hooks) <==> exists h :: h in hooks && h.sourceRef == ref
  {
    if h :| h in hooks && h.sourceRef == ref {
      var i :| 0 <= i < |hooks| && hooks[i] == h;
      assert HookRefs(hooks)[i] == ref;
    }
  }

  // What the digest sees.

  lemma CancelEnds(a: string, x: string, y: string, b: string)
    requires a + x + b == a + y + b
    ensures x == y
  {
    var s, t := a + x + b, a + y + b;
    assert |x| == |y|;
    assert s[|a|..|s| - |b|] == x && t[|a|..|t| - |b|] == y;
  }

  /** One field of one action changes that is digested: its type, or its text but for spaces around it. */
  predicate HookEdit(h: Hook, h': Hook) {
    || (h' == h.(actionType := h'.actionType) && h'.actionType != h.actionType)
    || (h' == h.(action := h'.action) && TrimSpace(h'.action) != TrimSpace(h.action))
  }

  predicate HooksEdit(hooks: seq<Hook>, hooks': seq<Hook>) {
    exists i :: 0 <= i < |hooks| && HookEditAt(hooks, hooks', i)
  }

  predicate HookEditAt(hooks: seq<Hook>, hooks': seq<Hook>, i: int)
    requires 0 <= i < |hooks|
  {
    |hooks'| == |hooks| && hooks' == hooks[i := hooks'[i]] && HookEdit(hooks[i], hooks'[i])
  }

  /** One digested field of the spec changes, and nothing else. */
  predicate OneEdit(spec: Spec, spec': Spec) {
    || (spec' == spec.(cluster := spec'.cluster) && spec'.cluster != spec.cluster)
    || (spec' == spec.(image := spec'.image) && spec'.image != spec.image)
    || (spec' == spec.(main := spec'.main) && HookEdit(spec.main, spec'.main))
    || (spec' == spec.(preHook := spec'.preHook) && HooksEdit(spec.preHook, spec'.preHook))
    || (spec' == spec.(postHook := spec'.postHook) && HooksEdit(spec.postHook, spec'.postHook))
  }

  function HookPart(h: Hook): string {
    h.actionType + TrimSpace(h.action)
  }

  lemma HookEditChanges(h: Hook, h': Hook)
    requires HookEdit(h, h')
    ensures HookPart(h) != HookPart(h')
  {
    if HookPart(h) == HookPart(h') {
      assert "" + h.actionType + TrimSpace(h.action) == HookPart(h);
      assert "" + h'.actionType + TrimSpace(h'.action) == HookPart(h');
      assert h.actionType + TrimSpace(h.action) + "" == HookPart(h);
      assert h'.actionType + TrimSpace(h'.action) + "" == HookPart(h');
      if h'.action == h.action {
        CancelEnds("", h.actionType, h'.actionType, TrimSpace(h.action));
      } else {
        CancelEnds(h.actionType, TrimSpace(h.action), TrimSpace(h'.action), "");
      }
    }
  }

  lemma HookTextAround(front: seq<Hook>, h: Hook, back: seq<Hook>)
    ensures HookText(front + [h] + back) == HookText(front) + HookPart(h) + HookText(back)
  {
    HookTextAppends(front + [h], back);
    HookTextOneMore(front, h);
    Join(HookText(front), h.actionType, TrimSpace(h.action));
  }

  lemma HookTextSplit(hooks: seq<Hook>, i: int)
    requires 0 <= i < |hooks|
    ensures HookText(hooks) == HookText(hooks[..i]) + HookPart(hooks[i]) + HookText(hooks[i + 1..])
  {
    hide HookText, HookPart;
    assert hooks == hooks[..i] + [hooks[i]] + hooks[i + 1..];
    HookTextAround(hooks[..i], hooks[i], hooks[i + 1..]);
  }

  lemma Join(a: string, b: string, c: string)
    ensures a + b + c == a + (b + c)
  {
  }

  lemma HooksEditChanges(hooks: seq<Hook>, hooks': seq<Hook>)
    requires HooksEdit(hooks, hooks')
    ensures HookText(hooks) != HookText(hooks')
  {
    var i :| 0 <= i < |hooks| && HookEditAt(hooks, hooks', i);
    HookTextSplit(hooks, i);
    HookTextSplit(hooks', i);
    assert hooks'[..i] == hooks[..i] && hooks'[i + 1..] == hooks[i + 1..];
    HookEditChanges(hooks[i], hooks'[i]);
    if HookText(hooks) == HookText(hooks') {
      CancelEnds(HookText(hooks[..i]), HookPart(hooks[i]), HookPart(hooks'[i]), HookText(hooks[i + 1..]));
    }
  }

  lemma JoinMore(a: string, b: string, c: string, d: string)
    ensures a + b + c + d == a + b + (c + d)
    ensures a + b + c + d == a + (b + c + d)
  {
  }

  /** The digested text: the name, the cluster, the main action, the image and the hooks. */
  lemma SummaryParts(spec: Spec)
    ensures Summary(spec)
      == "kubean" + spec.cluster + HookPart(spec.main) + spec.image + HookText(spec.preHook) + HookText(spec.postHook)
  {
    Join("kubean" + spec.cluster, spec.main.actionType, TrimSpace(spec.main.action));
  }

  /** Six texts, with everything behind the second, the third and the fourth joined. */
  lemma JoinEnds(a: string, b: string, c: string, d: string, e: string, f: string)
    ensures a + b + c + d + e + f == a + b + (c + d + e + f)
    ensures a + b + c + d + e + f == a + b + c + (d + e + f)
    ensures a + b + c + d + e + f == a + b + c + d + (e + f)
  {
    JoinMore(a + b + c, d, e, f);
    Join(a + b + c + d, e, f);
    Join(a + b, c, d + e + f);
    JoinMore(c, d, e, f);
  }

  /** Every change of one digested field changes the digested text. */
  lemma EditChangesSummary(spec: Spec, spec': Spec)
    requires OneEdit(spec, spec')
    ensures Summary(spec) != Summary(spec')
  {
    SummaryParts(spec);
    SummaryParts(spec');
    if Summary(spec) == Summary(spec') {
      var c, m, i := spec.cluster, HookPart(spec.main), spec.image;
      var c', m', i' := spec'.cluster, HookPart(spec'.main), spec'.image;
      var p, q := HookText(spec.preHook), HookText(spec.postHook);
      var p', q' := HookText(spec'.preHook), HookText(spec'.postHook);
      JoinEnds("kubean", c, m, i, p, q);
      JoinEnds("kubean", c', m', i', p', q');
      if c' != c {
        CancelEnds("kubean", c, c', m + i + p + q);
      } else if i' != i {
        CancelEnds("kubean" + c + m, i, i', p + q);
      } else if spec'.main != spec.main {
        HookEditChanges(spec.main, spec'.main);
        CancelEnds("kubean" + c, m, m', i + p + q);
      } else if spec'.preHook != spec.preHook {
        HooksEditChanges(spec.preHook, spec'.preHook);
        CancelEnds("kubean" + c + m + i, p, p', q);
      } else {
        HooksEditChanges(spec.postHook, spec'.postHook);
        assert "kubean" + c + m + i + p + q + "" == "kubean" + c + m + i + p + q;
        assert "kubean" + c + m + i + p + q' + "" == "kubean" + c + m + i + p + q';
        CancelEnds("kubean" + c + m + i + p, q, q', "");
      }
    }
  }
}
