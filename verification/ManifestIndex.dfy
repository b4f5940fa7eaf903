/** The index from release to manifests that the informer keeps up to date
    (pkg/controllers/infomanifest/controller.go), and its reader
    (pkg/controllers/offlineversion/controller.go). */
module ManifestIndex {
  import opened Objects

  /** A manifest: its name, its release label, and the rest. */
  datatype Manifest = Manifest(name: string, release: Option<string>, content: string)

  type Index = map<string, seq<Manifest>>

  // What the operations compute.

  function Bucket(index: Index, release: string): seq<Manifest> {
    if release in index then index[release] else []
  }

  function WithBucket(index: Index, release: string, bucket: seq<Manifest>): Index {
    if bucket == [] then index - {release} else index[release := bucket]
  }

  /** The list without the first manifest of this name. */
  function RemoveFirst(list: seq<Manifest>, name: string): seq<Manifest> {
    if list == [] then []
    else if list[0].name == name then list[1..]
    else [list[0]] + RemoveFirst(list[1..], name)
  }

  function Added(index: Index, m: Manifest): Index {
    if m.release.None? then index
    else index[m.release.value := Bucket(index, m.release.value) + [m]]
  }

  function Deleted(index: Index, m: Manifest): Index {
    if m.release.None? || m.release.value !in index then index
    else WithBucket(index, m.release.value, RemoveFirst(index[m.release.value], m.name))
  }

  function Updated(index: Index, m: Manifest, m': Manifest): Index {
    if m == m' then index else Added(Deleted(index, m), m')
  }

  /** What informers deliver. */
  datatype Event = Add(m: Manifest) | Update(before: Manifest, after: Manifest) | Delete(m: Manifest)

  function Applied(index: Index, e: Event): Index {
    match e
    case Add(m) => Added(index, m)
    case Update(m, m') => Updated(index, m, m')
    case Delete(m) => Deleted(index, m)
  }

  /** The event that a call of `Op` stands for: it knows three names. */
  function EventOf(op: string, m1: Manifest, m2: Manifest): Option<Event> {
    if op == "add" then Some(Add(m1))
    else if op == "update" then Some(Update(m1, m2))
    else if op == "delete" then Some(Delete(m1))
    else None
  }

  /** The index, and `live`, the manifests that the events so far have left. */
  class VersionedManifest {
    var manifests: Index
    ghost var live: map<string, Manifest>

    /** The index is the grouping of the live manifests by release. */
    ghost predicate Valid()
      reads this
    {
      Agrees(manifests, live)
    }

    constructor ()
      ensures Valid() && manifests == map[] && live == map[]
    {
      manifests, live := map[], map[];
    }

    /** `Op`. An event about real manifests keeps the index right. */
    method Op(op: string, m1: Manifest, m2: Manifest)
      modifies this
      ensures var event := EventOf(op, m1, m2);
        if event.None? then manifests == old(manifests) && live == old(live)
        else
          && manifests == Applied(old(manifests), event.value)
          && live == LiveAfter(old(live), event.value)
          && (old(Valid()) && Fits(old(live), event.value) ==> Valid())
    {
      assert "add"[0] != "update"[0] && "add"[0] != "delete"[0] && "update"[0] != "delete"[0];
      if op == "add" {
        AddManifest(m1);
      }
      if op == "update" {
        UpdateManifest(m1, m2);
      }
      if op == "delete" {
        DeleteManifest(m1);
      }
      ghost var event := EventOf(op, m1, m2);
      if event.Some? {
        live := LiveAfter(live, event.value);
        if old(Valid()) && Fits(old(live), event.value) {
          EventAgrees(old(manifests), old(live), event.value);
        }
      }
    }

    method AddManifest(m: Manifest)
      modifies this`manifests
      ensures manifests == Added(old(manifests), m)
    {
      if m.release.None? {
        return;
      }
      var list := if m.release.value in manifests then manifests[m.release.value] else [];
      manifests := manifests[m.release.value := list + [m]];
    }

    method UpdateManifest(m: Manifest, m': Manifest)
      modifies this`manifests
      ensures manifests == Updated(old(manifests), m, m')
    {
      if m.release.None? && m'.release.None? {
        return;
      } else if m.release.Some? && m'.release.None? {
        DeleteManifest(m);
      } else if m.release.None? && m'.release.Some? {
        AddManifest(m');
      } else if m.release.value != m'.release.value || m != m' {
        DeleteManifest(m);
        AddManifest(m');
      }
    }

    method DeleteManifest(m: Manifest)
      modifies this`manifests
      ensures manifests == Deleted(old(manifests), m)
    {
      if m.release.None? {
        return;
      }
      var release := m.release.value;
      if release !in manifests {
        return;
      }
      var list := RemoveManifest(manifests[release], m.name);
      manifests := manifests[release := list];
      if |manifests[release]| == 0 {
        manifests := manifests - {release};
      }
    }

    /** The lookup of the offline controller: as long as the index is right, it finds nothing exactly
        if no live manifest has the release, and otherwise those that have it, each once. */
    method LookUp(release: string) returns (list: Option<seq<Manifest>>)
      ensures list == if release in manifests then Some(manifests[release]) else None
      ensures Valid() ==>
        match list
        case None => GroupOf(live, release) == {}
        case Some(found) =>
          && found != [] && |found| == |GroupOf(live, release)|
          && forall m :: m in found <==> m in GroupOf(live, release)
    {
      if Valid() {
        BucketIsGroup(manifests, live, release);
      }
      if release !in manifests {
        return None;
      }
      return Some(manifests[release]);
    }
  }

  /** One step of the loop: the manifest at `i` is not the one. */
  lemma RemoveLater(list: seq<Manifest>, i: nat, name: string)
    requires i < |list| && list[i].name != name
    ensures list[..i] + RemoveFirst(list[i..], name) == list[..i + 1] + RemoveFirst(list[i + 1..], name)
  {
    var later := RemoveFirst(list[i + 1..], name);
    assert list[i..][1..] == list[i + 1..];
    assert list[..i] + ([list[i]] + later) == (list[..i] + [list[i]]) + later;
    assert list[..i] + [list[i]] == list[..i + 1];
  }

  method RemoveManifest(list: seq<Manifest>, name: string) returns (r: seq<Manifest>)
    ensures r == RemoveFirst(list, name)
  {
    r := list;
    for i := 0 to |list|
      invariant r == list
      invariant RemoveFirst(list, name) == list[..i] + RemoveFirst(list[i..], name)
    {
      if list[i].name == name {
        assert list[i..][1..] == list[i + 1..];
        r := list[..i] + list[i + 1..];
        return;
      }
      RemoveLater(list, i, name);
    }
  }

  // Agreement with the live manifests.

  /** The live manifests after some events, by name. */
  function LiveAfter(live: map<string, Manifest>, e: Event): map<string, Manifest> {
    match e
    case Add(m) => live[m.name := m]
    case Update(m, m') => live[m'.name := m']
    case Delete(m) => live - {m.name}
  }

  /** Events are about real manifests: additions are new, and updates and deletions carry the
      manifest as it was. */
  predicate Fits(live: map<string, Manifest>, e: Event) {
    match e
    case Add(m) => m.name !in live
    case Update(m, m') => m.name in live && live[m.name] == m && m'.name == m.name
    case Delete(m) => m.name in live && live[m.name] == m
  }

  predicate AllFit(live: map<string, Manifest>, events: seq<Event>)
    decreases |events|
  {
    events != [] ==> Fits(live, events[0]) && AllFit(LiveAfter(live, events[0]), events[1..])
  }

  function Replay(index: Index, events: seq<Event>): Index
    decreases |events|
  {
    if events == [] then index else Replay(Applied(index, events[0]), events[1..])
  }

  function Live(live: map<string, Manifest>, events: seq<Event>): map<string, Manifest>
    decreases |events|
  {
    if events == [] then live else Live(LiveAfter(live, events[0]), events[1..])
  }

  /** Plain grouping: the live manifests of a release. */
  function GroupOf(live: map<string, Manifest>, release: string): set<Manifest> {
    set n | n in live && live[n].release == Some(release) :: live[n]
  }

  ghost predicate Distinct(list: seq<Manifest>) {
    forall i, j | 0 <= i < j < |list| :: list[i].name != list[j].name
  }

  ghost predicate BucketAgrees(live: map<string, Manifest>, release: string, list: seq<Manifest>) {
    && Distinct(list)
    && forall m :: m in list <==> m in GroupOf(live, release)
  }

  /** Every bucket holds the live manifests of its release, each once, and there is a bucket exactly
      for the releases that have one. */
  ghost predicate Agrees(index: Index, live: map<string, Manifest>) {
    && (forall n | n in live :: live[n].name == n)
    && (forall release :: BucketAgrees(live, release, Bucket(index, release)))
    && (forall release | release in index :: index[release] != [])
  }

  lemma {:induction false} RemoveFirstIs(list: seq<Manifest>, name: string, m: Manifest)
    requires Distinct(list)
    ensures Distinct(RemoveFirst(list, name))
    ensures m in RemoveFirst(list, name) <==> m in list && m.name != name
  {
    if list != [] {
      var rest := list[1..];
      assert list == [list[0]] + rest;
      RemoveFirstIs(rest, name, m);
      if list[0].name == name {
        forall x | x in rest
          ensures x.name != name
        {
          var i :| 0 <= i < |rest| && rest[i] == x;
          assert list[0].name != list[i + 1].name;
        }
      } else {
        RemovedAreLeft(rest, name);
        var r := RemoveFirst(rest, name);
        forall j | 0 <= j < |r|
          ensures r[j].name != list[0].name
        {
          assert r[j] in rest;
          var i :| 0 <= i < |rest| && rest[i] == r[j];
          assert list[0].name != list[i + 1].name;
        }
      }
    }
  }

  lemma {:induction false} RemovedAreLeft(list: seq<Manifest>, name: string)
    ensures forall x | x in RemoveFirst(list, name) :: x in list
  {
    if list != [] && list[0].name != name {
      RemovedAreLeft(list[1..], name);
    }
  }

  lemma AddAgrees(index: Index, live: map<string, Manifest>, m: Manifest)
    requires Agrees(index, live) && m.name !in live
    ensures Agrees(Added(index, m), live[m.name := m])
  {
    var index', live' := Added(index, m), live[m.name := m];
    forall release
      ensures BucketAgrees(live', release, Bucket(index', release))
    {
      var list := Bucket(index, release);
      assert BucketAgrees(live, release, list);
      assert GroupOf(live', release) == GroupOf(live, release) + if m.release == Some(release) then {m} else {} by {
        assert live'[m.name] == m;
        forall n | n in live
          ensures live'[n] == live[n]
        {
        }
      }
      forall i | 0 <= i < |list|
        ensures list[i].name != m.name
      {
        assert list[i] in GroupOf(live, release);
      }
    }
  }

  lemma GroupIs(live: map<string, Manifest>, release: string, x: Manifest)
    requires forall n | n in live :: live[n].name == n
    ensures x in GroupOf(live, release) <==> x.name in live && live[x.name] == x && x.release == Some(release)
  {
  }

  lemma DeleteAgrees(index: Index, live: map<string, Manifest>, m: Manifest)
    requires Agrees(index, live) && m.name in live && live[m.name] == m
    ensures Agrees(Deleted(index, m), live - {m.name})
  {
    var index', live' := Deleted(index, m), live - {m.name};
    forall release
      ensures BucketAgrees(live', release, Bucket(index', release))
    {
      var list := Bucket(index, release);
      assert BucketAgrees(live, release, list);
      forall x
        ensures x in GroupOf(live', release) <==> x in GroupOf(live, release) && x != m
      {
        GroupIs(live, release, x);
        GroupIs(live', release, x);
      }
      if m.release == Some(release) {
        assert m in GroupOf(live, release);
        assert m in list;
        forall x
          ensures Distinct(RemoveFirst(list, m.name))
          ensures x in RemoveFirst(list, m.name) <==> x in list && x.name != m.name
        {
          RemoveFirstIs(list, m.name, x);
        }
        assert forall x | x in list && x.name == m.name :: x == m by {
          assert forall x | x in list :: x in GroupOf(live, release);
        }
      } else {
        assert Bucket(index', release) == list;
      }
    }
  }

  lemma EventAgrees(index: Index, live: map<string, Manifest>, e: Event)
    requires Agrees(index, live) && Fits(live, e)
    ensures Agrees(Applied(index, e), LiveAfter(live, e))
  {
    match e {
      case Add(m) => AddAgrees(index, live, m);
      case Update(m, m') =>
        if m != m' {
          DeleteAgrees(index, live, m);
          AddAgrees(Deleted(index, m), live - {m.name}, m');
          assert (live - {m.name})[m'.name := m'] == live[m'.name := m'];
        } else {
          assert live[m.name := m] == live;
        }
      case Delete(m) => DeleteAgrees(index, live, m);
    }
  }

  /** After any fitting sequence of events the index is the grouping of the live manifests. */
  lemma {:induction false} ReplayAgrees(index: Index, live: map<string, Manifest>, events: seq<Event>)
    requires Agrees(index, live) && AllFit(live, events)
    ensures Agrees(Replay(index, events), Live(live, events))
    decreases |events|
  {
    if events != [] {
      EventAgrees(index, live, events[0]);
      ReplayAgrees(Applied(index, events[0]), LiveAfter(live, events[0]), events[1..]);
    }
  }

  lemma BucketIsGroup(index: Index, live: map<string, Manifest>, release: string)
    requires Agrees(index, live)
    ensures release in index <==> GroupOf(live, release) != {}
    ensures forall m :: m in Bucket(index, release) <==> m in GroupOf(live, release)
    ensures |Bucket(index, release)| == |GroupOf(live, release)|
  {
    var list := Bucket(index, release);
    assert BucketAgrees(live, release, list);
    DistinctCount(list);
    assert GroupOf(live, release) == set m | m in list;
    if release in index {
      assert list[0] in GroupOf(live, release);
    }
  }

  /** From the empty index on: a lookup finds a release exactly if some live manifest has it, and
      then gives exactly those manifests, each once. An unlabelled manifest is in no bucket. */
  lemma LookUpIsGroupBy(events: seq<Event>, release: string)
    requires AllFit(map[], events)
    ensures var index, live := Replay(map[], events), Live(map[], events);
      && (release in index <==> GroupOf(live, release) != {})
      && (forall m :: m in Bucket(index, release) <==> m in GroupOf(live, release))
      && |Bucket(index, release)| == |GroupOf(live, release)|
      && (forall n | n in live && live[n].release.None? :: live[n] !in Bucket(index, release))
  {
    ReplayAgrees(map[], map[], events);
    BucketIsGroup(Replay(map[], events), Live(map[], events), release);
  }

  lemma {:induction false} DistinctCount(list: seq<Manifest>)
    requires Distinct(list)
    ensures |set m | m in list| == |list|
  {
    if list != [] {
      var rest := list[1..];
      DistinctCount(rest);
      var all, others := set m | m in list, set m | m in rest;
      assert list == [list[0]] + rest;
      assert all == others + {list[0]};
      forall i | 0 <= i < |rest|
        ensures rest[i] != list[0]
      {
        assert list[0].name != list[i + 1].name;
      }
    }
  }
}
