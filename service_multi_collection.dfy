/**
 * A multi-collection: an insertion-ordered set of registration stores,
 * resolved against as one chain in that order.
 */
module MultiCollections {

  import opened Wrappers
  import opened Sequences
  import opened Services
  import opened Errors
  import opened Metadata
  import opened Resolver
  import opened ServiceCollections
  import opened ResolutionProperties

  /** An insertion-ordered set: adding a present element changes nothing. */
  function Insert<T(==)>(s: seq<T>, x: T): seq<T> {
    if x in s then s else s + [x]
  }

  /**
   * Adding `xs` one after another, as a loop of `Set.add` does: what was
   * there keeps its place, and the result holds exactly the old and new elements.
   */
  function AddAll<T(==)>(s: seq<T>, xs: seq<T>): (r: seq<T>)
    ensures s <= r
    ensures forall i :: 0 <= i < |xs| ==> xs[i] in r
    ensures forall i :: 0 <= i < |r| ==> r[i] in s || r[i] in xs
    decreases |xs|
  {
    if xs == [] then s
    else
      var r' := AddAll(s, xs[..|xs| - 1]);
      assert xs == xs[..|xs| - 1] + [xs[|xs| - 1]];
      Insert(r', xs[|xs| - 1])
  }

  /** Reference definition of removal: the elements of `s` not in `xs`, in their order. */
  function Keep<T(==)>(s: seq<T>, xs: seq<T>): (r: seq<T>)
    ensures forall i :: 0 <= i < |s| && s[i] !in xs ==> s[i] in r
    ensures forall i :: 0 <= i < |r| ==> r[i] in s && r[i] !in xs
    decreases |s|
  {
    if s == [] then []
    else
      assert s == s[..|s| - 1] + [s[|s| - 1]];
      Keep(s[..|s| - 1], xs) + (if s[|s| - 1] in xs then [] else [s[|s| - 1]])
  }

  /** Removing `xs` one after another, as a loop of `Set.delete` does. */
  function RemoveAll<T(==)>(s: seq<T>, xs: seq<T>): seq<T>
    decreases |xs|
  {
    if xs == [] then s else Keep(RemoveAll(s, xs[..|xs| - 1]), [xs[|xs| - 1]])
  }

  /** Adding keeps an insertion-ordered set free of duplicates. */
  lemma {:induction false} AddAllNoDup<T>(s: seq<T>, xs: seq<T>)
    requires NoDup(s)
    ensures NoDup(AddAll(s, xs))
    decreases |xs|
  {
    if xs != [] {
      var r' := AddAll(s, xs[..|xs| - 1]);
      AddAllNoDup(s, xs[..|xs| - 1]);
      if xs[|xs| - 1] !in r' {
        AppendNoDup(r', xs[|xs| - 1]);
      }
    }
  }

  /**
   * Priority is insertion time: whichever of `a` and `b` was first added
   * (first occurs earlier in `s + xs`) comes first afterwards.
   */
  lemma {:induction false} AddAllOrder<T>(s: seq<T>, xs: seq<T>, a: T, b: T)
    requires a in s + xs && b in s + xs
    requires IndexOf(s + xs, a) < IndexOf(s + xs, b)
    ensures a in AddAll(s, xs) && b in AddAll(s, xs)
    ensures IndexOf(AddAll(s, xs), a) < IndexOf(AddAll(s, xs), b)
    decreases |xs|
  {
    if xs == [] {
      assert s + xs == s;
    } else {
      var front := xs[..|xs| - 1];
      var last := xs[|xs| - 1];
      var t := s + front;
      assert s + xs == t + [last];
      var r' := AddAll(s, front);
      assert forall i :: 0 <= i < |t| ==> t[i] in r';
      assert forall i :: 0 <= i < |r'| ==> r'[i] in t;
      IndexOfAppend(t, last, a);
      IndexOfAppend(t, last, b);
      assert a in t;
      if b in t {
        AddAllOrder(s, front, a, b);
        if last !in r' {
          IndexOfAppend(r', last, a);
          IndexOfAppend(r', last, b);
        }
      } else {
        assert b == last && b !in r';
        IndexOfAppend(r', last, a);
        IndexOfAppend(r', last, b);
      }
    }
  }

  /** Removal keeps an insertion-ordered set free of duplicates. */
  lemma {:induction false} KeepNoDup<T>(s: seq<T>, xs: seq<T>)
    requires NoDup(s)
    ensures NoDup(Keep(s, xs))
    decreases |s|
  {
    if s != [] {
      var front := s[..|s| - 1];
      var last := s[|s| - 1];
      assert s == front + [last];
      KeepNoDup(front, xs);
      if last !in xs {
        assert last !in front;
        AppendNoDup(Keep(front, xs), last);
      }
    }
  }

  /** Helper: `Keep` of a sequence extended by one element. */
  lemma AddKeep<T>(front: seq<T>, xs: seq<T>, last: T)
    ensures Keep(front + [last], xs) == Keep(front, xs) + (if last in xs then [] else [last])
  {
    assert (front + [last])[..|front + [last]| - 1] == front;
  }

  /** `Keep` preserves the relative order of what it keeps. */
  lemma {:induction false} KeepOrder<T>(s: seq<T>, xs: seq<T>, a: T, b: T)
    requires a in Keep(s, xs) && b in Keep(s, xs)
    requires IndexOf(s, a) < IndexOf(s, b)
    ensures IndexOf(Keep(s, xs), a) < IndexOf(Keep(s, xs), b)
    decreases |s|
  {
    assert a in s && a !in xs && b !in xs;
    var front := s[..|s| - 1];
    var last := s[|s| - 1];
    assert s == front + [last];
    AddKeep(front, xs, last);
    var k' := Keep(front, xs);
    IndexOfAppend(front, last, a);
    IndexOfAppend(front, last, b);
    assert a in front;
    assert a in k';
    if b in front {
      assert b in k';
      KeepOrder(front, xs, a, b);
      if last !in xs {
        assert Keep(s, xs) == k' + [last];
        IndexOfAppend(k', last, a);
        IndexOfAppend(k', last, b);
      } else {
        assert Keep(s, xs) == k';
      }
    } else {
      assert b !in k';
      IndexOfAppend(k', last, a);
      IndexOfAppend(k', last, b);
    }
  }

  /** Removing twice in a row is removing the union. */
  lemma {:induction false} KeepKeep<T>(s: seq<T>, xs: seq<T>, y: T)
    ensures Keep(Keep(s, xs), [y]) == Keep(s, xs + [y])
    decreases |s|
  {
    if s != [] {
      var front := s[..|s| - 1];
      var last := s[|s| - 1];
      assert s == front + [last];
      KeepKeep(front, xs, y);
      AddKeep(front, xs, last);
      AddKeep(front, xs + [y], last);
      assert last in xs + [y] <==> last in xs || last == y;
      if last !in xs {
        assert Keep(s, xs) == Keep(front, xs) + [last];
        AddKeep(Keep(front, xs), [y], last);
        assert Keep(Keep(s, xs), [y]) == Keep(Keep(front, xs), [y]) + (if last == y then [] else [last]);
        assert Keep(s, xs + [y]) == Keep(front, xs + [y]) + (if last == y then [] else [last]);
      } else {
        assert Keep(s, xs) == Keep(front, xs);
        assert Keep(s, xs + [y]) == Keep(front, xs + [y]);
      }
    }
  }

  /** Helper: keeping against an empty list keeps everything. */
  lemma {:induction false} KeepNothing<T>(s: seq<T>)
    ensures Keep(s, []) == s
    decreases |s|
  {
    if s != [] {
      KeepNothing(s[..|s| - 1]);
    }
  }

  /** One removal after another removes exactly the listed elements, keeping the rest in order. */
  lemma {:induction false} RemoveAllIsKeep<T>(s: seq<T>, xs: seq<T>)
    ensures RemoveAll(s, xs) == Keep(s, xs)
    decreases |xs|
  {
    if xs == [] {
      KeepNothing(s);
    } else {
      var front := xs[..|xs| - 1];
      RemoveAllIsKeep(s, front);
      KeepKeep(s, front, xs[|xs| - 1]);
      assert front + [xs[|xs| - 1]] == xs;
    }
  }

  /** The stores of the held collections, in their order. */
  function StoresOf(cs: seq<ServiceCollection>): (r: seq<ServiceStore>)
    reads cs
    ensures |r| == |cs|
    ensures forall i :: 0 <= i < |cs| ==> r[i] == cs[i].services
    decreases |cs|
  {
    if cs == [] then [] else StoresOf(cs[..|cs| - 1]) + [cs[|cs| - 1].services]
  }

  /**
   * Priority: when several held collections register `ident`, resolution
   * takes the descriptor of the one that comes first.
   */
  lemma EarlierCollectionWins(ident: Ident, cs: seq<ServiceCollection>, i: nat)
    requires i < |cs| && ident in cs[i].services
    requires forall j :: 0 <= j < i ==> ident !in cs[j].services
    ensures Lookup(ident, StoresOf(cs)) == Some(cs[i].services[ident])
  {
    LookupFirstStore(ident, StoresOf(cs), i);
  }

  /** With no collections held, every resolution fails as not found and changes nothing. */
  lemma EmptyResolvesNothing(ident: Ident, di: map<FnRef, DiParamTypes>, design: map<FnRef, seq<Value>>,
                             cells: map<CacheCell, Value>, objects: seq<Allocation>)
    ensures TopResolution(ident, StoresOf([]), di, design, cells, objects) == (Failure(ServiceNotFound(ident)), cells, objects)
  {
    MissingServiceFails(ident, [], di, design, cells, objects);
  }

  class ServiceMultiCollection {
    var collections: seq<ServiceCollection>

    /** The held collections form a set. */
    ghost predicate Valid()
      reads this
    {
      NoDup(collections)
    }

    /** `new ServiceMultiCollection(...cs)`: the distinct collections of `cs`, in first-occurrence order. */
    constructor (cs: seq<ServiceCollection>)
      ensures Valid() && collections == AddAll([], cs)
    {
      collections := [];
      new;
      AddCollections(cs);
    }

    /** `get`: resolve `ident` against the held collections' stores, earliest added first. */
    method Get(ident: Ident, refl: Reflection, heap: Heap) returns (r: Result<Value, Error>)
      modifies CellsOf(StoresOf(collections)), heap
      ensures (r, Cells(StoresOf(collections)), heap.objects)
           == TopResolution(ident, StoresOf(collections), refl.di, refl.design,
                            old(Cells(StoresOf(collections))), old(heap.objects))
    {
      var stores := StoresOf(collections);
      r := Resolve(ident, stores, refl, heap);
    }

    /** `addCollections`: `Set.add` each collection in turn. */
    method AddCollections(cs: seq<ServiceCollection>)
      requires Valid()
      modifies this
      ensures Valid() && collections == AddAll(old(collections), cs)
    {
      for i := 0 to |cs|
        invariant collections == AddAll(old(collections), cs[..i])
      {
        assert cs[..i + 1][..i] == cs[..i];
        if cs[i] !in collections {
          collections := collections + [cs[i]];
        }
      }
      assert cs[..|cs|] == cs;
      AddAllNoDup(old(collections), cs);
    }

    /** `removeCollections`: `Set.delete` each collection in turn. */
    method RemoveCollections(cs: seq<ServiceCollection>)
      requires Valid()
      modifies this
      ensures Valid() && collections == Keep(old(collections), cs)
    {
      for i := 0 to |cs|
        invariant collections == RemoveAll(old(collections), cs[..i])
      {
        assert cs[..i + 1][..i] == cs[..i];
        var c := cs[i];
        var kept: seq<ServiceCollection> := [];
        for j := 0 to |collections|
          invariant kept == Keep(collections[..j], [c])
        {
          assert collections[..j + 1][..j] == collections[..j];
          if collections[j] != c {
            kept := kept + [collections[j]];
          }
        }
        assert collections[..|collections|] == collections;
        collections := kept;
      }
      assert cs[..|cs|] == cs;
      RemoveAllIsKeep(old(collections), cs);
      KeepNoDup(old(collections), cs);
    }

    /** `clearCollections`: drop every collection. */
    method ClearCollections()
      modifies this
      ensures Valid() && collections == []
    {
      collections := [];
    }
  }
}
