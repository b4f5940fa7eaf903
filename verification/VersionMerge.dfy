/** The merge of the versions of local artifact sets into the status of manifests
    (api/apis/manifest/v1alpha1/types.go, pkg/controllers/offlineversion/controller.go,
    pkg/util/version.go). */
module VersionMerge {
  import opened Text
  import opened Objects

  /** A component or an operating system, and its versions. */
  datatype Entry = Entry(name: string, versions: seq<string>)

  /** What an artifact set brings. */
  datatype Artifacts = Artifacts(docker: seq<Entry>, items: seq<Entry>)

  /** What a manifest has. */
  datatype Avail = Avail(components: seq<Entry>, docker: seq<Entry>)

  // Versions of one entry.

  /** `Merge`: the versions that are not there yet are appended. */
  function Merged(have: seq<string>, range: seq<string>): seq<string> {
    if range == [] then have
    else
      var front := Merged(have, range[..|range| - 1]);
      if range[|range| - 1] in front then front else front + [range[|range| - 1]]
  }

  function Unified(versions: seq<string>): seq<string> {
    if versions == [] then []
    else
      var front := Unified(versions[..|versions| - 1]);
      var cleaned := TrimV(versions[|versions| - 1]);
      if cleaned in front then front else front + [cleaned]
  }

  method UnifyVersions(versions: seq<string>) returns (result: seq<string>)
    ensures result == Unified(versions)
  {
    var seen := {};
    result := [];
    for i := 0 to |versions|
      invariant result == Unified(versions[..i])
      invariant forall x :: x in seen <==> x in result
    {
      assert versions[..i + 1][..i] == versions[..i];
      var cleaned := TrimV(versions[i]);
      if cleaned !in seen {
        seen := seen + {cleaned};
        result := result + [cleaned];
      }
    }
    assert versions[..|versions|] == versions;
  }

  method MergeVersions(have: seq<string>, range: seq<string>) returns (updated: bool, result: seq<string>)
    ensures result == Merged(have, range)
    ensures updated <==> result != have
  {
    updated, result := false, have;
    for i := 0 to |range|
      invariant result == Merged(have, range[..i])
      invariant updated <==> |result| > |have|
      invariant !updated ==> result == have
    {
      assert range[..i + 1][..i] == range[..i];
      if range[i] !in result {
        updated := true;
        result := result + [range[i]];
      }
    }
    assert range[..|range|] == range;
  }

  lemma {:induction false} MergedIs(have: seq<string>, range: seq<string>)
    ensures have <= Merged(have, range)
    ensures forall x :: x in Merged(have, range) <==> x in have || x in range
    ensures Merged(have, range) == have <==> forall x | x in range :: x in have
  {
    if range != [] {
      var front, last := range[..|range| - 1], range[|range| - 1];
      assert range == front + [last];
      MergedIs(have, front);
    }
  }

  predicate NoRepeats(s: seq<string>) {
    forall i, j | 0 <= i < j < |s| :: s[i] != s[j]
  }

  /** Each normalised version once. */
  lemma {:induction false} UnifiedIs(versions: seq<string>)
    ensures NoRepeats(Unified(versions))
    ensures forall x :: x in Unified(versions) <==> exists v | v in versions :: TrimV(v) == x
  {
    if versions != [] {
      var front, last := versions[..|versions| - 1], versions[|versions| - 1];
      assert versions == front + [last];
      UnifiedIs(front);
    }
  }

  predicate StartsWithV(v: string) {
    v != "" && v[0] == 'v'
  }

  /** Normalising such a version leaves one that would be normalised again. */
  predicate DoubleV(v: string) {
    |v| >= 2 && v[0] == 'v' && v[1] == 'v'
  }

  predicate NoDoubleV(versions: seq<string>) {
    forall v | v in versions :: !DoubleV(v)
  }

  predicate Clean(versions: seq<string>) {
    NoRepeats(versions) && forall v | v in versions :: !StartsWithV(v)
  }

  lemma {:induction false} UnifiedOfClean(versions: seq<string>)
    requires Clean(versions)
    ensures Unified(versions) == versions
  {
    if versions != [] {
      var front, last := versions[..|versions| - 1], versions[|versions| - 1];
      assert versions == front + [last];
      UnifiedOfClean(front);
      assert last in versions;
      forall i | 0 <= i < |front|
        ensures front[i] != last
      {
        assert versions[i] != versions[|versions| - 1];
      }
    }
  }

  /** Normalising is idempotent on exactly the lists without a version that starts with "vv". */
  lemma UnifiedTwice(versions: seq<string>)
    ensures Unified(Unified(versions)) == Unified(versions) <==> NoDoubleV(versions)
  {
    UnifiedIs(versions);
    var once := Unified(versions);
    if NoDoubleV(versions) {
      UnifiedOfClean(once);
    } else {
      var v :| v in versions && DoubleV(v);
      UnifiedIs(once);
      LongestStays(once, TrimV(v));
    }
  }

  lemma LongestStays(once: seq<string>, w: string)
    requires w in once && StartsWithV(w)
    ensures Unified(once) != once
  {
    var longest := LongestWithV(once, w);
    forall x | x in once
      ensures TrimV(x) != longest
    {
      assert StartsWithV(x) ==> |TrimV(x)| < |longest|;
    }
    NotUnified(once, longest);
  }

  lemma NotUnified(versions: seq<string>, x: string)
    requires forall v | v in versions :: TrimV(v) != x
    ensures x !in Unified(versions)
  {
    hide TrimV;
    UnifiedIs(versions);
  }

  lemma {:induction false} LongestWithV(s: seq<string>, w: string) returns (longest: string)
    requires w in s && StartsWithV(w)
    ensures longest in s && StartsWithV(longest)
    ensures forall x | x in s && StartsWithV(x) :: |x| <= |longest|
  {
    var front, last := s[..|s| - 1], s[|s| - 1];
    assert s == front + [last];
    if exists x :: x in front && StartsWithV(x) {
      var x :| x in front && StartsWithV(x);
      longest := LongestWithV(front, x);
      if StartsWithV(last) && |last| > |longest| {
        longest := last;
      }
    } else {
      longest := last;
    }
  }
  // Lists of entries.

  /** The versions of the first entry of this name. */
  function Find(list: seq<Entry>, name: string): Option<seq<string>> {
    if list == [] then None
    else if list[0].name == name then Some(list[0].versions)
    else Find(list[1..], name)
  }

  /** `MergeSoftwareInfo` and `MergeDockerInfo`. */
  function InfoMerged(list: seq<Entry>, item: Entry): seq<Entry> {
    if list == [] then [item]
    else if list[0].name == item.name then [Entry(item.name, Merged(list[0].versions, item.versions))] + list[1..]
    else [list[0]] + InfoMerged(list[1..], item)
  }

  function AllMerged(list: seq<Entry>, items: seq<Entry>): seq<Entry> {
    if items == [] then list else InfoMerged(AllMerged(list, items[..|items| - 1]), items[|items| - 1])
  }

  /** There is nothing to merge: the entry is there with all these versions. */
  predicate Present(list: seq<Entry>, item: Entry) {
    Find(list, item.name).Some? && forall v | v in item.versions :: v in Find(list, item.name).value
  }

  predicate AllPresent(list: seq<Entry>, items: seq<Entry>) {
    forall item | item in items :: Present(list, item)
  }

  /** The loop that looks for the entry. */
  method IndexOf(list: seq<Entry>, name: string) returns (k: nat)
    ensures k <= |list| && (k < |list| ==> list[k].name == name)
    ensures forall i | 0 <= i < k :: list[i].name != name
  {
    for i := 0 to |list|
      invariant forall j | 0 <= j < i :: list[j].name != name
    {
      if list[i].name == name {
        return i;
      }
    }
    return |list|;
  }

  lemma {:induction false} InfoMergedAt(list: seq<Entry>, item: Entry, k: nat)
    requires k <= |list| && (k < |list| ==> list[k].name == item.name)
    requires forall i | 0 <= i < k :: list[i].name != item.name
    ensures Find(list, item.name) == if k < |list| then Some(list[k].versions) else None
    ensures InfoMerged(list, item)
         == if k < |list| then list[k := Entry(item.name, Merged(list[k].versions, item.versions))] else list + [item]
  {
    if k > 0 {
      InfoMergedAt(list[1..], item, k - 1);
      assert list == [list[0]] + list[1..];
    }
  }

  method MergeInfo(list: seq<Entry>, item: Entry) returns (updated: bool, result: seq<Entry>)
    ensures result == InfoMerged(list, item)
    ensures updated <==> !Present(list, item)
  {
    var k := IndexOf(list, item.name);
    InfoMergedAt(list, item, k);
    if k == |list| {
      return true, list + [item];
    }
    var versions;
    updated, versions := MergeVersions(list[k].versions, item.versions);
    MergedIs(list[k].versions, item.versions);
    result := list[k := Entry(item.name, versions)];
  }

  method MergeAll(list: seq<Entry>, items: seq<Entry>) returns (updated: bool, result: seq<Entry>)
    ensures result == AllMerged(list, items)
    ensures updated <==> !AllPresent(list, items)
  {
    updated, result := false, list;
    for i := 0 to |items|
      invariant result == AllMerged(list, items[..i])
      invariant updated <==> !AllPresent(list, items[..i])
    {
      assert items[..i + 1][..i] == items[..i] && items[..i + 1] == items[..i] + [items[i]];
      var grown;
      grown, result := MergeInfo(result, items[i]);
      if grown {
        PresentLater(list, items[..i], items[i]);
        updated := true;
      } else if !updated {
        NothingMerged(list, items[..i]);
      }
    }
    assert items[..|items|] == items;
  }

  lemma {:induction false} FindMerged(list: seq<Entry>, item: Entry, name: string)
    ensures Find(InfoMerged(list, item), name)
         == if name != item.name then Find(list, name)
            else match Find(list, name)
                 case None => Some(item.versions)
                 case Some(versions) => Some(Merged(versions, item.versions))
  {
    if list != [] && list[0].name != item.name {
      FindMerged(list[1..], item, name);
    }
  }

  /** Merging never takes anything away. */
  lemma {:induction false} PresentLater(list: seq<Entry>, items: seq<Entry>, item: Entry)
    ensures Present(list, item) ==> Present(AllMerged(list, items), item)
  {
    if items != [] {
      var last := items[|items| - 1];
      PresentLater(list, items[..|items| - 1], item);
      FindMerged(AllMerged(list, items[..|items| - 1]), last, item.name);
      if Find(AllMerged(list, items[..|items| - 1]), item.name).Some? {
        MergedIs(Find(AllMerged(list, items[..|items| - 1]), item.name).value, last.versions);
      }
    }
  }

  lemma {:induction false} PresentMerged(list: seq<Entry>, item: Entry)
    requires Present(list, item)
    ensures InfoMerged(list, item) == list
  {
    if list[0].name == item.name {
      MergedIs(list[0].versions, item.versions);
    } else {
      PresentMerged(list[1..], item);
    }
  }

  lemma {:induction false} NothingMerged(list: seq<Entry>, items: seq<Entry>)
    requires AllPresent(list, items)
    ensures AllMerged(list, items) == list
  {
    if items != [] {
      NothingMerged(list, items[..|items| - 1]);
      PresentMerged(list, items[|items| - 1]);
    }
  }

  /** The versions of an entry, as a set. */
  function VersionsOf(list: seq<Entry>, name: string): set<string> {
    match Find(list, name)
    case None => {}
    case Some(versions) => set v | v in versions
  }

  /** All versions that entries of this name bring. */
  function From(items: seq<Entry>, name: string): set<string> {
    set item, v | item in items && item.name == name && v in item.versions :: v
  }

  function Normal(versions: set<string>): set<string> {
    set v | v in versions :: TrimV(v)
  }

  lemma FromAppend(items: seq<Entry>, more: seq<Entry>, name: string)
    ensures From(items + more, name) == From(items, name) + From(more, name)
  {
  }

  lemma InfoMergedIs(list: seq<Entry>, item: Entry, name: string)
    ensures VersionsOf(InfoMerged(list, item), name) == VersionsOf(list, name) + From([item], name)
  {
    FindMerged(list, item, name);
    assert From([item], name) == if item.name == name then set v | v in item.versions else {};
    if Find(list, name).Some? {
      MergedIs(Find(list, name).value, item.versions);
    }
  }

  lemma {:induction false} AllMergedIs(list: seq<Entry>, items: seq<Entry>, name: string)
    ensures VersionsOf(AllMerged(list, items), name) == VersionsOf(list, name) + From(items, name)
  {
    if items != [] {
      var front, last := items[..|items| - 1], items[|items| - 1];
      AllMergedIs(list, front, name);
      InfoMergedIs(AllMerged(list, front), last, name);
      assert items == front + [last];
      FromAppend(front, [last], name);
    }
  }

  function UnifyAll(list: seq<Entry>): seq<Entry> {
    seq(|list|, i requires 0 <= i < |list| => list[i].(versions := Unified(list[i].versions)))
  }

  lemma {:induction false} FindUnified(list: seq<Entry>, name: string)
    ensures VersionsOf(UnifyAll(list), name) == Normal(VersionsOf(list, name))
  {
    if list != [] {
      UnifiedIs(list[0].versions);
      FindUnified(list[1..], name);
      assert UnifyAll(list)[1..] == UnifyAll(list[1..]);
    }
  }

  // The status of a manifest.

  /** Whether merging an artifact set counts as an update, which normalises and writes the status. */
  predicate Updates(a: Avail, art: Artifacts) {
    !AllPresent(a.docker, art.docker) || !AllPresent(a.components, art.items)
  }

  function Merge(a: Avail, art: Artifacts): Avail {
    if Updates(a, art)
    then Avail(UnifyAll(AllMerged(a.components, art.items)), AllMerged(a.docker, art.docker))
    else a
  }

  predicate CleanSet(versions: set<string>) {
    forall v | v in versions :: !StartsWithV(v)
  }

  lemma NormalOfClean(versions: set<string>)
    requires CleanSet(versions)
    ensures Normal(versions) == versions
  {
    assert forall v | v in versions :: TrimV(v) == v;
  }

  lemma NormalOfUnion(a: set<string>, b: set<string>)
    ensures Normal(a + b) == Normal(a) + Normal(b)
  {
  }

  lemma MergeIs(a: Avail, art: Artifacts, name: string)
    ensures VersionsOf(Merge(a, art).docker, name) == VersionsOf(a.docker, name) + From(art.docker, name)
    ensures CleanSet(VersionsOf(a.components, name)) ==>
      VersionsOf(Merge(a, art).components, name) == VersionsOf(a.components, name) + Normal(From(art.items, name))
  {
    var have, incoming := VersionsOf(a.components, name), From(art.items, name);
    AllMergedIs(a.docker, art.docker, name);
    AllMergedIs(a.components, art.items, name);
    if CleanSet(have) {
      NormalOfClean(have);
      NormalOfUnion(have, incoming);
    }
    if Updates(a, art) {
      FindUnified(AllMerged(a.components, art.items), name);
    } else {
      NothingMerged(a.docker, art.docker);
      NothingMerged(a.components, art.items);
      assert incoming <= have;
      if CleanSet(have) {
        NormalOfClean(incoming);
      }
    }
  }

  // Convergence.

  /** The status after a sequence of merges into an empty one. */
  function Status(arts: seq<Artifacts>): Avail {
    if arts == [] then Avail([], []) else Merge(Status(arts[..|arts| - 1]), arts[|arts| - 1])
  }

  function ItemsOf(arts: seq<Artifacts>): seq<Entry> {
    if arts == [] then [] else ItemsOf(arts[..|arts| - 1]) + arts[|arts| - 1].items
  }

  function DockerOf(arts: seq<Artifacts>): seq<Entry> {
    if arts == [] then [] else DockerOf(arts[..|arts| - 1]) + arts[|arts| - 1].docker
  }

  predicate NoVv(items: seq<Entry>) {
    forall item | item in items :: NoDoubleV(item.versions)
  }

  lemma CleanNormal(items: seq<Entry>, name: string)
    requires NoVv(items)
    ensures CleanSet(Normal(From(items, name)))
  {
    forall v | v in From(items, name)
      ensures !DoubleV(v)
    {
    }
  }

  /** Merged in any number of steps, a component has the union of the normalised versions, and an
      operating system the plain union, as long as only the last artifact set has versions that
      start with "vv". */
  lemma {:induction false} MergesConverge(arts: seq<Artifacts>, name: string)
    requires arts != [] ==> NoVv(ItemsOf(arts[..|arts| - 1]))
    ensures VersionsOf(Status(arts).components, name) == Normal(From(ItemsOf(arts), name))
    ensures VersionsOf(Status(arts).docker, name) == From(DockerOf(arts), name)
  {
    if arts != [] {
      var front, last := arts[..|arts| - 1], arts[|arts| - 1];
      if front != [] {
        assert forall item | item in ItemsOf(front[..|front| - 1]) :: item in ItemsOf(front);
      }
      MergesConverge(front, name);
      CleanNormal(ItemsOf(front), name);
      MergeIs(Status(front), last, name);
      FromAppend(ItemsOf(front), last.items, name);
      FromAppend(DockerOf(front), last.docker, name);
      NormalOfUnion(From(ItemsOf(front), name), From(last.items, name));
    }
  }

  lemma {:induction false} OfAll(arts: seq<Artifacts>, item: Entry)
    ensures item in ItemsOf(arts) <==> exists art :: art in arts && item in art.items
    ensures item in DockerOf(arts) <==> exists art :: art in arts && item in art.docker
  {
    if arts != [] {
      var front, last := arts[..|arts| - 1], arts[|arts| - 1];
      assert arts == front + [last];
      OfAll(front, item);
    }
  }

  /** So neither the order nor repetitions of merges matter. */
  lemma OrderDoesNotMatter(arts: seq<Artifacts>, arts': seq<Artifacts>, name: string)
    requires forall art :: art in arts <==> art in arts'
    requires NoVv(ItemsOf(arts))
    ensures VersionsOf(Status(arts).components, name) == VersionsOf(Status(arts').components, name)
    ensures VersionsOf(Status(arts).docker, name) == VersionsOf(Status(arts').docker, name)
  {
    forall item
      ensures item in ItemsOf(arts) <==> item in ItemsOf(arts')
      ensures item in DockerOf(arts) <==> item in DockerOf(arts')
    {
      OfAll(arts, item);
      OfAll(arts', item);
    }
    NoVvBefore(arts);
    NoVvBefore(arts');
    MergesConverge(arts, name);
    MergesConverge(arts', name);
    assert From(ItemsOf(arts), name) == From(ItemsOf(arts'), name);
    assert From(DockerOf(arts), name) == From(DockerOf(arts'), name);
  }

  lemma NoVvBefore(arts: seq<Artifacts>)
    requires NoVv(ItemsOf(arts))
    ensures arts != [] ==> NoVv(ItemsOf(arts[..|arts| - 1]))
  {
  }
  /** Whatever is merged after `art`, the outcome is the union of the normalised versions. */
  ghost predicate Settles(art: Artifacts) {
    forall later: Artifacts, name: string ::
      VersionsOf(Status([art, later]).components, name) == Normal(From(art.items + later.items, name))
  }

  /** Versions that start with "vv" are exactly what breaks this: normalising them again, as any
      later update does, makes another version of them. */
  lemma SettlesWithoutVv(art: Artifacts)
    ensures Settles(art) <==> NoVv(art.items)
  {
    if NoVv(art.items) {
      forall later: Artifacts, name: string
        ensures VersionsOf(Status([art, later]).components, name) == Normal(From(art.items + later.items, name))
      {
        TwoItems(art, later);
        MergesConverge([art, later], name);
      }
    } else {
      var item :| item in art.items && !NoDoubleV(item.versions);
      var v :| v in item.versions && DoubleV(v);
      var later := LosingSet(art, item, v);
      TwoItems(art, later);
      FromAppend(art.items, later.items, item.name);
    }
  }

  lemma TwoItems(art: Artifacts, later: Artifacts)
    ensures ItemsOf([art, later]) == art.items + later.items
    ensures ItemsOf([art, later][..1]) == art.items
    ensures Status([art, later]) == Merge(Status([art]), later)
  {
    assert [art, later][..1] == [art] && [art][..0] == [];
    assert ItemsOf([art]) == art.items;
  }

  /** A text longer than all of `s` that is no version with a "v". */
  function Unseen(s: seq<string>): (unseen: string)
    ensures !StartsWithV(unseen) && unseen != ""
    ensures forall x | x in s :: |x| < |unseen|
  {
    if s == [] then "x"
    else
      var front := Unseen(s[..|s| - 1]);
      assert s == s[..|s| - 1] + [s[|s| - 1]];
      front + s[|s| - 1]
  }

  /** An artifact set after which a version of `art` is gone. */
  lemma LosingSet(art: Artifacts, item: Entry, v: string) returns (later: Artifacts)
    requires item in art.items && v in item.versions && DoubleV(v)
    ensures VersionsOf(Status([art, later]).components, item.name)
      != Normal(From(art.items, item.name) + From(later.items, item.name))
  {
    var name, a := item.name, Status([art]);
    assert ItemsOf([art]) == art.items && ItemsOf([art][..0]) == [];
    MergesConverge([art], name);
    assert v in From(art.items, name) && TrimV(v) in VersionsOf(a.components, name);
    var have := Find(a.components, name).value;
    var longest := LongestWithV(have, TrimV(v));
    later := Artifacts([], [Entry(name, [Unseen(have)])]);
    TwoItems(art, later);
    LongestIsLost(a, name, longest, later);
    NormalOfUnion(From(art.items, name), From(later.items, name));
    assert longest in Normal(From(art.items, name));
  }

  lemma LongestIsLost(a: Avail, name: string, longest: string, later: Artifacts)
    requires Find(a.components, name).Some?
    requires var have := Find(a.components, name).value;
      && longest in have && StartsWithV(longest) && (forall x | x in have && StartsWithV(x) :: |x| <= |longest|)
      && later == Artifacts([], [Entry(name, [Unseen(have)])])
    ensures longest !in VersionsOf(Merge(a, later).components, name)
  {
    var have := Find(a.components, name).value;
    var unseen := Unseen(have);
    assert unseen in later.items[0].versions && unseen !in have;
    assert !Present(a.components, later.items[0]);
    AllMergedIs(a.components, later.items, name);
    FindUnified(AllMerged(a.components, later.items), name);
    FromOne(name, [unseen]);
    forall x | x in VersionsOf(a.components, name) + {unseen}
      ensures TrimV(x) != longest
    {
      assert StartsWithV(x) ==> |TrimV(x)| < |longest|;
    }
  }

  lemma FromOne(name: string, versions: seq<string>)
    ensures From([Entry(name, versions)], name) == set v | v in versions
  {
  }

  // Repeating an artifact set.

  lemma {:induction false} AllMergedPresent(list: seq<Entry>, items: seq<Entry>)
    ensures AllPresent(AllMerged(list, items), items)
  {
    if items != [] {
      var front, last := items[..|items| - 1], items[|items| - 1];
      AllMergedPresent(list, front);
      var before := AllMerged(list, front);
      assert items == front + [last];
      forall item | item in items
        ensures Present(InfoMerged(before, last), item)
      {
        FindMerged(before, last, item.name);
        if Find(before, item.name).Some? {
          MergedIs(Find(before, item.name).value, last.versions);
        }
      }
    }
  }

  lemma {:induction false} AllMergedNoVv(list: seq<Entry>, items: seq<Entry>)
    requires NoVv(list) && NoVv(items)
    ensures NoVv(AllMerged(list, items))
  {
    if items != [] {
      var front, last := items[..|items| - 1], items[|items| - 1];
      assert items == front + [last];
      AllMergedNoVv(list, front);
      InfoMergedNoVv(AllMerged(list, front), last);
    }
  }

  lemma {:induction false} InfoMergedNoVv(list: seq<Entry>, item: Entry)
    requires NoVv(list) && NoDoubleV(item.versions)
    ensures NoVv(InfoMerged(list, item))
  {
    if list == [] {
    } else if list[0].name == item.name {
      MergedIs(list[0].versions, item.versions);
    } else {
      InfoMergedNoVv(list[1..], item);
    }
  }

  /** `d` is the clean list `c` with versions appended whose normal form is there already. */
  predicate Extends(c: seq<Entry>, d: seq<Entry>) {
    && |d| == |c|
    && forall i | 0 <= i < |c| :: ExtendsEntry(c[i], d[i])
  }

  /** The entry is there with the normal forms of all these versions. */
  predicate NormalPresent(list: seq<Entry>, item: Entry) {
    Find(list, item.name).Some? && forall v | v in item.versions :: TrimV(v) in Find(list, item.name).value
  }

  predicate ExtendsEntry(e: Entry, f: Entry) {
    && f.name == e.name && Clean(e.versions) && e.versions <= f.versions
    && forall x | x in f.versions :: TrimV(x) in e.versions
  }

  lemma {:induction false} UnifiedExtends(have: seq<string>, versions: seq<string>)
    requires Clean(have) && have <= versions && forall x | x in versions :: TrimV(x) in have
    ensures Unified(versions) == have
    decreases |versions|
  {
    if versions == have {
      UnifiedOfClean(have);
    } else {
      var front, last := versions[..|versions| - 1], versions[|versions| - 1];
      assert versions == front + [last];
      UnifiedExtends(have, front);
    }
  }

  lemma UnifiedOfExtended(c: seq<Entry>, d: seq<Entry>)
    requires Extends(c, d)
    ensures UnifyAll(d) == c
  {
    forall i | 0 <= i < |c|
      ensures UnifyAll(d)[i] == c[i]
    {
      UnifiedExtends(c[i].versions, d[i].versions);
    }
  }

  lemma {:induction false} InfoMergedExtends(c: seq<Entry>, d: seq<Entry>, item: Entry)
    requires Extends(c, d) && NormalPresent(c, item)
    ensures Extends(c, InfoMerged(d, item))
  {
    assert ExtendsEntry(c[0], d[0]);
    if c[0].name == item.name {
      MergedIs(d[0].versions, item.versions);
    } else {
      InfoMergedExtends(c[1..], d[1..], item);
    }
  }

  lemma {:induction false} AllMergedExtends(c: seq<Entry>, items: seq<Entry>)
    requires Extends(c, c)
    requires forall item | item in items :: NormalPresent(c, item)
    ensures Extends(c, AllMerged(c, items))
  {
    if items != [] {
      var front, last := items[..|items| - 1], items[|items| - 1];
      assert items == front + [last];
      AllMergedExtends(c, front);
      InfoMergedExtends(c, AllMerged(c, front), last);
    }
  }

  lemma {:induction false} FindUnifiedEntry(list: seq<Entry>, name: string)
    ensures Find(UnifyAll(list), name).Some? <==> Find(list, name).Some?
    ensures Find(list, name).Some? ==> Find(UnifyAll(list), name).value == Unified(Find(list, name).value)
  {
    if list != [] {
      FindUnifiedEntry(list[1..], name);
      assert UnifyAll(list)[1..] == UnifyAll(list[1..]);
    }
  }

  /** After an update the components are normalised, and they have everything that was merged. */
  lemma UnifiedIsSettled(list: seq<Entry>, items: seq<Entry>)
    requires NoVv(list) && AllPresent(list, items)
    ensures var c := UnifyAll(list);
      && Extends(c, c)
      && forall item | item in items :: NormalPresent(c, item)
  {
    var c := UnifyAll(list);
    forall i | 0 <= i < |c|
      ensures ExtendsEntry(c[i], c[i])
    {
      assert list[i] in list;
      UnifiedIs(list[i].versions);
    }
    forall item | item in items
      ensures NormalPresent(c, item)
    {
      assert Present(list, item);
      FindUnifiedEntry(list, item.name);
      UnifiedIs(Find(list, item.name).value);
    }
  }

  /** Repeating an artifact set leaves the status unchanged, even where it counts as an update again. */
  lemma RepeatedMergeChangesNothing(a: Avail, art: Artifacts)
    requires NoVv(a.components) && NoVv(art.items)
    ensures Merge(Merge(a, art), art) == Merge(a, art)
  {
    if Updates(a, art) {
      var merged := AllMerged(a.components, art.items);
      AllMergedPresent(a.docker, art.docker);
      NothingMerged(AllMerged(a.docker, art.docker), art.docker);
      AllMergedPresent(a.components, art.items);
      AllMergedNoVv(a.components, art.items);
      UnifiedIsSettled(merged, art.items);
      AllMergedExtends(UnifyAll(merged), art.items);
      UnifiedOfExtended(UnifyAll(merged), AllMerged(UnifyAll(merged), art.items));
    }
  }

  /** It counts as an update again, and is written again, exactly if some version has a "v". So a
      status whose write failed is written later only in that case. */
  lemma RepeatedMergeUpdates(a: Avail, art: Artifacts)
    requires NoVv(a.components) && NoVv(art.items) && Updates(a, art)
    ensures Updates(Merge(a, art), art) <==> exists item, v :: item in art.items && v in item.versions && StartsWithV(v)
  {
    var merged := AllMerged(a.components, art.items);
    var c := UnifyAll(merged);
    AllMergedPresent(a.docker, art.docker);
    AllMergedPresent(a.components, art.items);
    AllMergedNoVv(a.components, art.items);
    UnifiedIsSettled(merged, art.items);
    forall item, v | item in art.items && v in item.versions
      ensures v in Find(c, item.name).value <==> !StartsWithV(v)
    {
      FoundIsClean(c, item.name);
    }
    assert forall item | item in art.items :: Present(c, item) <==> forall v | v in item.versions :: !StartsWithV(v);
  }

  lemma {:induction false} FoundIsClean(c: seq<Entry>, name: string)
    requires Extends(c, c) && Find(c, name).Some?
    ensures Clean(Find(c, name).value)
  {
    assert ExtendsEntry(c[0], c[0]);
    if c[0].name != name {
      FoundIsClean(c[1..], name);
    }
  }
  // The cache and the server.

  /** A manifest in the informer's cache. */
  class CachedManifest {
    const name: string
    var components: seq<Entry>
    var docker: seq<Entry>

    constructor (name: string, a: Avail)
      ensures this.name == name && Content() == a
    {
      this.name, components, docker := name, a.components, a.docker;
    }

    function Content(): Avail
      reads this
    {
      Avail(components, docker)
    }

    /** The body of the loop of `MergeManifestsStatus` up to the write. */
    method MergeArtifacts(art: Artifacts) returns (updated: bool)
      modifies this
      ensures Content() == Merge(old(Content()), art)
      ensures updated <==> Updates(old(Content()), art)
    {
      var updatedDocker, updatedItems;
      updatedDocker, docker := MergeAll(docker, art.docker);
      updatedItems, components := MergeAll(components, art.items);
      updated := updatedDocker || updatedItems;
      if !updated {
        NothingMerged(old(docker), art.docker);
        NothingMerged(old(components), art.items);
        return;
      }
      for i := 0 to |components|
        invariant docker == AllMerged(old(docker), art.docker)
        invariant |components| == |AllMerged(old(components), art.items)|
        invariant forall j | 0 <= j < |components| ::
          components[j] == if j < i then UnifyAll(AllMerged(old(components), art.items))[j]
            else AllMerged(old(components), art.items)[j]
      {
        var versions := UnifyVersions(components[i].versions);
        components := components[i := components[i].(versions := versions)];
      }
      assert components == UnifyAll(AllMerged(old(components), art.items));
    }
  }

  datatype Written = Stored | NotFound | Unwritten

  class ManifestServer {
    const reliable: bool
    var stored: map<string, Avail>

    constructor (stored: map<string, Avail>, reliable: bool)
      ensures this.stored == stored && this.reliable == reliable
    {
      this.stored, this.reliable := stored, reliable;
    }

    /** Gets the manifest and updates its status. */
    method UpdateStatus(name: string, a: Avail) returns (r: Written)
      modifies this
      ensures r == Stored ==> name in old(stored) && stored == old(stored)[name := a]
      ensures r != Stored ==> stored == old(stored)
      ensures r == NotFound ==> name !in stored
      ensures reliable ==> r == if name in old(stored) then Stored else NotFound
    {
      var broken: bool := *;
      if broken && !reliable {
        return Unwritten;
      }
      if name !in stored {
        return NotFound;
      }
      stored := stored[name := a];
      return Stored;
    }
  }

  function Contents(manifests: seq<CachedManifest>): (r: seq<Avail>)
    reads manifests
  {
    seq(|manifests|, i requires 0 <= i < |manifests| reads manifests => manifests[i].Content())
  }

  function NamesOf(manifests: seq<CachedManifest>): seq<string> {
    seq(|manifests|, i requires 0 <= i < |manifests| => manifests[i].name)
  }

  /** What is stored after the writes for the first `n` manifests. */
  function StoredAfter(stored: map<string, Avail>, names: seq<string>, were: seq<Avail>, art: Artifacts, n: nat)
    : map<string, Avail>
    requires n <= |names| == |were|
  {
    if n == 0 then stored
    else
      var before := StoredAfter(stored, names, were, art, n - 1);
      if Updates(were[n - 1], art) && names[n - 1] in stored then before[names[n - 1] := Merge(were[n - 1], art)]
        else before
  }

  /** The body of the loop of `MergeManifestsStatus`. */
  method MergeManifest(art: Artifacts, m: CachedManifest, server: ManifestServer) returns (ok: bool)
    modifies m, server
    ensures server.reliable ==> ok
    ensures m.Content() == Merge(old(m.Content()), art)
    ensures server.stored == if ok && Updates(old(m.Content()), art) && m.name in old(server.stored)
      then old(server.stored)[m.name := m.Content()] else old(server.stored)
  {
    var updated := m.MergeArtifacts(art);
    if !updated {
      return true;
    }
    var r := server.UpdateStatus(m.name, m.Content());
    return r != Unwritten;
  }

  /** `MergeManifestsStatus`. If a write fails at manifest `done`, that one is merged in the cache
      and not on the server, and the ones behind it are not merged at all. */
  method MergeManifestsStatus(art: Artifacts, manifests: seq<CachedManifest>, server: ManifestServer)
    returns (err: bool, ghost done: nat)
    requires forall i, j | 0 <= i < j < |manifests| :: manifests[i] != manifests[j]
    modifies server, manifests
    ensures server.reliable ==> !err
    ensures done <= |manifests| && (err <==> done < |manifests|)
    ensures forall i | 0 <= i < |manifests| ::
      manifests[i].Content() == if i <= done then Merge(old(manifests[i].Content()), art)
        else old(manifests[i].Content())
    ensures server.stored == StoredAfter(old(server.stored), NamesOf(manifests), old(Contents(manifests)), art, done)
    ensures server.stored.Keys == old(server.stored.Keys)
  {
    done := 0;
    for k := 0 to |manifests|
      invariant done == k
      invariant forall i | 0 <= i < |manifests| ::
        manifests[i].Content() == if i < k then Merge(old(manifests[i].Content()), art) else old(manifests[i].Content())
      invariant server.stored == StoredAfter(old(server.stored), NamesOf(manifests), old(Contents(manifests)), art, k)
      invariant server.stored.Keys == old(server.stored.Keys)
    {
      assert manifests[k].Content() == old(Contents(manifests))[k];
      label Before:
      var ok := MergeManifest(art, manifests[k], server);
      assert forall i | 0 <= i < |manifests| && i != k :: manifests[i].Content() == old@Before(manifests[i].Content());
      if !ok {
        return true, k;
      }
      done := k + 1;
    }
    return false, |manifests|;
  }

  /** On the server, the manifests that were updated and exist have their merged status, and nothing
      else changed. */
  lemma {:induction false} StoredAfterIs(stored: map<string, Avail>, names: seq<string>, were: seq<Avail>,
      art: Artifacts, n: nat, x: string)
    requires n <= |names| == |were| && x in stored
    requires forall i, j | 0 <= i < j < |names| :: names[i] != names[j]
    ensures var after := StoredAfter(stored, names, were, art, n);
      && after.Keys == stored.Keys
      && (forall i | 0 <= i < n && names[i] == x ::
            after[x] == if Updates(were[i], art) then Merge(were[i], art) else stored[x])
      && (x !in names[..n] ==> after[x] == stored[x])
  {
    if n > 0 {
      StoredAfterIs(stored, names, were, art, n - 1, x);
      assert names[..n] == names[..n - 1] + [names[n - 1]];
    }
  }
}
