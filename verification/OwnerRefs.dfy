/** Owner references of the objects that an operation or a cluster refers to (pkg/util/cluster.go). */
module OwnerRefs {
  import opened Objects

  /** The objects after owner `u` is added to those of `keys` that are there and lack it. */
  function Owned(objs: map<Key, Obj>, keys: set<Key>, u: nat): map<Key, Obj> {
    map k | k in objs ::
      if k in keys && u !in objs[k].owners then objs[k].(owners := objs[k].owners + [u]) else objs[k]
  }

  /** The keys behind references that are not empty. */
  function Keys(kind: Kind, refs: seq<Ref>): set<Key> {
    set r | r in refs && !r.IsEmpty() :: Key(kind, r.Ns(), r.Name())
  }

  lemma KeysAre(kind: Kind, refs: seq<Ref>, ns: string, name: string)
    ensures Key(kind, ns, name) in Keys(kind, refs) <==> name != "" && Ref(ns, name) in refs
  {
    assert forall r | r in refs && !r.IsEmpty() && r.Ns() == ns && r.Name() == name :: r == Ref(ns, name);
    if name != "" && Ref(ns, name) in refs {
      assert !Ref(ns, name).IsEmpty();
    }
  }

  function Hits(owners: seq<nat>, u: nat): nat {
    multiset(owners)[u]
  }

  /** Every referenced object that exists is owned, nothing else changes, data and earlier owners
      stay, and at most one reference to the owner is added. */
  lemma OwnedMeans(objs: map<Key, Obj>, keys: set<Key>, u: nat, k: Key)
    requires k in objs
    ensures Owned(objs, keys, u).Keys == objs.Keys
    ensures var obj, obj' := objs[k], Owned(objs, keys, u)[k];
      && (k in keys ==> u in obj'.owners)
      && (k !in keys ==> obj' == obj)
      && obj'.data == obj.data && obj.owners <= obj'.owners
      && Hits(obj'.owners, u) == (if k in keys && Hits(obj.owners, u) == 0 then 1 else Hits(obj.owners, u))
  {
  }

  /** A rerun after a call that stopped anywhere leads to the same objects as one call that did
      not, and after a complete call there is nothing left to do. */
  lemma RerunReachesTheSame(objs: map<Key, Obj>, done: set<Key>, keys: set<Key>, u: nat)
    requires done <= keys
    ensures Owned(Owned(objs, done, u), keys, u) == Owned(objs, keys, u)
    ensures Owned(objs, {}, u) == objs
    ensures Owned(Owned(objs, keys, u), keys, u) == Owned(objs, keys, u)
  {
    OwnTwice(objs, done, keys, u);
    OwnTwice(objs, keys, keys, u);
    assert done + keys == keys && keys + keys == keys;
    assert forall k | k in objs :: Owned(objs, {}, u)[k] == objs[k];
  }

  /** Where everything is owned, so is every part. */
  lemma OwnPart(objs: map<Key, Obj>, part: set<Key>, keys: set<Key>, u: nat)
    requires part <= keys && Owned(objs, keys, u) == objs
    ensures Owned(objs, part, u) == objs
  {
    assert forall k | k in objs :: Owned(objs, keys, u)[k] == objs[k];
    forall k | k in objs
      ensures Owned(objs, part, u)[k] == objs[k]
    {
      assert |objs[k].owners + [u]| != |objs[k].owners|;
    }
  }

  lemma OwnTwice(objs: map<Key, Obj>, first: set<Key>, second: set<Key>, u: nat)
    ensures Owned(Owned(objs, first, u), second, u) == Owned(objs, first + second, u)
  {
    var twice, once := Owned(Owned(objs, first, u), second, u), Owned(objs, first + second, u);
    forall k | k in objs
      ensures twice[k] == once[k]
    {
    }
  }

  lemma OwnOneMore(objs: map<Key, Obj>, keys: set<Key>, key: Key, u: nat)
    ensures var some := Owned(objs, keys, u);
      Owned(objs, keys + {key}, u)
        == if key in some && u !in some[key].owners
           then some[key := some[key].(owners := some[key].owners + [u])]
           else some
  {
  }

  lemma KeysAppend(kind: Kind, a: seq<Ref>, b: seq<Ref>)
    ensures Keys(kind, a + b) == Keys(kind, a) + Keys(kind, b)
  {
    forall k | k in Keys(kind, a) + Keys(kind, b)
      ensures k in Keys(kind, a + b)
    {
      var r :| r in a + b && !r.IsEmpty() && k == Key(kind, r.Ns(), r.Name());
    }
  }
}
