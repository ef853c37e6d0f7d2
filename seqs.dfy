/**
 * Sequences used as JavaScript arrays and insertion-ordered `Set`s:
 * `Set.add`, `[...new Set(xs)]`, `slice(0, n)` and flattening.
 */
module Seqs {

  predicate NoDup<T(==)>(s: seq<T>) {
    forall i, j :: 0 <= i < j < |s| ==> s[i] != s[j]
  }

  /** `set.add(x)` on an insertion-ordered set kept as a duplicate-free sequence. */
  function Insert<T(==)>(acc: seq<T>, x: T): seq<T> {
    if x in acc then acc else acc + [x]
  }

  /** `xs.forEach(x => set.add(x))`, starting from the set `acc`. */
  function AddAll<T(==)>(acc: seq<T>, xs: seq<T>): seq<T>
    decreases |xs|
  {
    if xs == [] then acc else Insert(AddAll(acc, xs[..|xs| - 1]), xs[|xs| - 1])
  }

  /** `[...new Set(xs)]`: first occurrences, in order. */
  function Dedup<T(==)>(xs: seq<T>): seq<T> {
    AddAll([], xs)
  }

  /** `s.slice(0, n)`. */
  function Take<T>(s: seq<T>, n: nat): (r: seq<T>)
    ensures |r| == if n < |s| then n else |s|
    ensures r <= s
  {
    if n < |s| then s[..n] else s
  }

  lemma {:induction false} AddAllMembers<T>(acc: seq<T>, xs: seq<T>)
    ensures forall x :: x in AddAll(acc, xs) <==> x in acc || x in xs
    decreases |xs|
  {
    if xs != [] {
      var init := xs[..|xs| - 1];
      AddAllMembers(acc, init);
      assert xs == init + [xs[|xs| - 1]];
    }
  }

  lemma {:induction false} AddAllNoDup<T>(acc: seq<T>, xs: seq<T>)
    requires NoDup(acc)
    ensures NoDup(AddAll(acc, xs))
    decreases |xs|
  {
    if xs != [] {
      AddAllNoDup(acc, xs[..|xs| - 1]);
    }
  }

  lemma {:induction false} AddAllExtends<T>(acc: seq<T>, xs: seq<T>)
    ensures acc <= AddAll(acc, xs)
    decreases |xs|
  {
    if xs != [] {
      AddAllExtends(acc, xs[..|xs| - 1]);
    }
  }

  lemma {:induction false} AddAllAppend<T>(acc: seq<T>, a: seq<T>, b: seq<T>)
    ensures AddAll(acc, a + b) == AddAll(AddAll(acc, a), b)
    decreases |b|
  {
    if b == [] {
      assert a + b == a;
    } else {
      assert (a + b)[..|a + b| - 1] == a + b[..|b| - 1];
      AddAllAppend(acc, a, b[..|b| - 1]);
    }
  }

  /** Inserting one element at a time is `AddAll` over the prefix read so far. */
  lemma AddAllSnoc<T>(acc: seq<T>, xs: seq<T>, i: nat)
    requires i < |xs|
    ensures AddAll(acc, xs[..i + 1]) == Insert(AddAll(acc, xs[..i]), xs[i])
  {
    assert xs[..i + 1][..i] == xs[..i];
  }

  /** A duplicate-free sequence has as many elements as its set. */
  lemma {:induction false} NoDupCard<T>(s: seq<T>)
    requires NoDup(s)
    ensures |set x | x in s| == |s|
    decreases |s|
  {
    if s != [] {
      var init := s[..|s| - 1];
      var last := s[|s| - 1];
      NoDupCard(init);
      assert last !in init by {
        forall k | 0 <= k < |init| ensures init[k] != last {
          assert s[k] == init[k];
        }
      }
      assert (set x | x in s) == (set x | x in init) + {last} by {
        assert s == init + [last];
      }
    }
  }

  lemma SameMembersSameSet<T>(a: seq<T>, b: seq<T>)
    requires forall x :: x in a <==> x in b
    ensures (set x | x in a) == (set x | x in b)
  {
  }

  /** Distinct-count of `xs`: the size of `new Set(xs)`. */
  lemma DedupCard<T>(xs: seq<T>)
    ensures NoDup(Dedup(xs))
    ensures |Dedup(xs)| == |set x | x in xs|
  {
    AddAllNoDup([], xs);
    AddAllMembers([], xs);
    NoDupCard(Dedup(xs));
    SameMembersSameSet(Dedup(xs), xs);
  }

  /** `[...new Set(xs)]` holds each member of `xs` once, and is empty only when `xs` is. */
  lemma DedupMembers<T>(xs: seq<T>)
    ensures NoDup(Dedup(xs))
    ensures forall x :: x in Dedup(xs) <==> x in xs
    ensures xs != [] ==> Dedup(xs) != []
  {
    AddAllNoDup([], xs);
    AddAllMembers([], xs);
    if xs != [] {
      assert xs[0] in Dedup(xs);
    }
  }

  /** A prefix of a duplicate-free sequence is duplicate-free and holds only its members. */
  lemma TakeNoDup<T>(s: seq<T>, n: nat)
    requires NoDup(s)
    ensures NoDup(Take(s, n))
    ensures forall x :: x in Take(s, n) ==> x in s
  {
  }

  /** Concatenation is associative. */
  lemma SeqAssoc<T>(a: seq<T>, b: seq<T>, c: seq<T>)
    ensures a + b + c == a + (b + c)
  {
  }

  /** The concatenation of a sequence of arrays (`push(...xs)` repeated). */
  function Flatten<T>(ss: seq<seq<T>>): seq<T>
    decreases |ss|
  {
    if ss == [] then [] else Flatten(ss[..|ss| - 1]) + ss[|ss| - 1]
  }

  lemma {:induction false} FlattenAppend<T>(a: seq<seq<T>>, b: seq<seq<T>>)
    ensures Flatten(a + b) == Flatten(a) + Flatten(b)
    decreases |b|
  {
    if b == [] {
      assert a + b == a;
    } else {
      var init := b[..|b| - 1];
      assert (a + b)[..|a + b| - 1] == a + init;
      assert (a + b)[|a + b| - 1] == b[|b| - 1];
      FlattenAppend(a, init);
      assert Flatten(b) == Flatten(init) + b[|b| - 1];
    }
  }
}
