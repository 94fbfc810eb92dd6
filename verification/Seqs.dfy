/** Facts about finite sequences that several models share: filtering by a set,
    absence of duplicates, flattening and truncation. */
module Seqs {

  datatype Option<+T> = None | Some(value: T)

  function Min(a: int, b: int): int {
    if a <= b then a else b
  }

  function SetOf<T>(s: seq<T>): set<T> {
    set x | x in s
  }

  ghost predicate NoDup<T>(s: seq<T>) {
    forall i, j :: 0 <= i < j < |s| ==> s[i] != s[j]
  }

  /** The entries of `s` that belong to `keep`, in their order in `s`. */
  function Filter<T>(s: seq<T>, keep: set<T>): seq<T> {
    if s == [] then []
    else
      var rest := Filter(s[..|s| - 1], keep);
      if s[|s| - 1] in keep then rest + [s[|s| - 1]] else rest
  }

  lemma {:induction false} FilterConcat<T>(a: seq<T>, b: seq<T>, keep: set<T>)
    ensures Filter(a + b, keep) == Filter(a, keep) + Filter(b, keep)
    decreases |b|
  {
    if b == [] {
      assert a + b == a;
    } else {
      var n := |b| - 1;
      assert (a + b)[..|a + b| - 1] == a + b[..n];
      FilterConcat(a, b[..n], keep);
    }
  }

  lemma {:induction false} FilterMember<T>(s: seq<T>, keep: set<T>, x: T)
    ensures x in Filter(s, keep) <==> x in s && x in keep
  {
    if s != [] {
      var n := |s| - 1;
      assert s == s[..n] + [s[n]];
      FilterMember(s[..n], keep, x);
    }
  }

  lemma FilterSet<T>(s: seq<T>, keep: set<T>)
    ensures SetOf(Filter(s, keep)) == SetOf(s) * keep
  {
    forall x ensures x in Filter(s, keep) <==> x in s && x in keep {
      FilterMember(s, keep, x);
    }
    assert SetOf(Filter(s, keep)) == SetOf(s) * keep;
  }

  lemma {:induction false} FilterNoDup<T>(s: seq<T>, keep: set<T>)
    requires NoDup(s)
    ensures NoDup(Filter(s, keep))
  {
    if s != [] {
      var n := |s| - 1;
      FilterNoDup(s[..n], keep);
      FilterMember(s[..n], keep, s[n]);
    }
  }

  lemma {:induction false} FilterAll<T>(s: seq<T>, keep: set<T>)
    requires forall x :: x in s ==> x in keep
    ensures Filter(s, keep) == s
  {
    if s != [] {
      var n := |s| - 1;
      assert s == s[..n] + [s[n]];
      FilterAll(s[..n], keep);
    }
  }

  lemma {:induction false} FilterFilter<T>(s: seq<T>, first: set<T>, second: set<T>)
    ensures Filter(Filter(s, first), second) == Filter(s, first * second)
  {
    if s != [] {
      var n := |s| - 1;
      FilterFilter(s[..n], first, second);
    }
  }

  lemma {:induction false} FilterLength<T>(s: seq<T>, keep: set<T>, i: nat)
    requires i < |s|
    ensures |Filter(s[..i], keep)| + (if s[i] in keep then 1 else 0) <= |Filter(s, keep)|
    ensures s[i] in keep ==> Filter(s, keep)[|Filter(s[..i], keep)|] == s[i]
  {
    assert s == s[..i + 1] + s[i + 1..];
    FilterConcat(s[..i + 1], s[i + 1..], keep);
    assert s[..i + 1][..i] == s[..i];
  }

  /** The kept entries keep their order. */
  lemma {:induction false} FilterOrder<T>(s: seq<T>, keep: set<T>, i: nat, j: nat) returns (p: nat, q: nat)
    requires i < j < |Filter(s, keep)|
    ensures p < q < |s| && s[p] == Filter(s, keep)[i] && s[q] == Filter(s, keep)[j]
  {
    var n := |s| - 1;
    var rest := Filter(s[..n], keep);
    if j < |rest| {
      p, q := FilterOrder(s[..n], keep, i, j);
    } else {
      FilterMember(s[..n], keep, rest[i]);
      p :| 0 <= p < n && s[..n][p] == rest[i];
      q := n;
    }
  }

  /** The pigeonhole step: a list is duplicate-free exactly when it has as many
      distinct members as entries. */
  lemma {:induction false} NoDupCardinality<T>(s: seq<T>)
    ensures |SetOf(s)| <= |s|
    ensures NoDup(s) <==> |SetOf(s)| == |s|
  {
    if s == [] {
      assert SetOf(s) == {};
    } else {
      var n := |s| - 1;
      NoDupCardinality(s[..n]);
      assert s == s[..n] + [s[n]];
      assert SetOf(s) == SetOf(s[..n]) + {s[n]};
    }
  }

  lemma MultisetOfNoDup<T>(a: seq<T>, b: seq<T>)
    requires NoDup(a) && NoDup(b) && SetOf(a) == SetOf(b)
    ensures multiset(a) == multiset(b)
  {
    forall x ensures multiset(a)[x] == multiset(b)[x] {
      NoDupCount(a, x);
      NoDupCount(b, x);
      assert x in a <==> x in SetOf(a);
      assert x in b <==> x in SetOf(b);
    }
  }

  lemma {:induction false} NoDupCount<T>(s: seq<T>, x: T)
    requires NoDup(s)
    ensures multiset(s)[x] == if x in s then 1 else 0
  {
    if s != [] {
      var n := |s| - 1;
      assert s == s[..n] + [s[n]];
      NoDupCount(s[..n], x);
    }
  }

  lemma NoDupFromMultiset<T>(a: seq<T>, b: seq<T>)
    requires NoDup(a) && multiset(a) == multiset(b)
    ensures NoDup(b) && SetOf(a) == SetOf(b)
  {
    forall x ensures x in a <==> x in b {
      assert x in a <==> x in multiset(a);
      assert x in b <==> x in multiset(b);
    }
    assert |a| == |multiset(a)| == |multiset(b)| == |b|;
    assert SetOf(a) == SetOf(b);
    NoDupCardinality(a);
    NoDupCardinality(b);
  }

  lemma SetOfConcat<T>(a: seq<T>, b: seq<T>)
    ensures SetOf(a + b) == SetOf(a) + SetOf(b)
  {
    assert forall x :: x in a + b <==> x in a || x in b;
  }

  /** Inserting a new element keeps a list duplicate-free and the rest in order. */
  lemma NoDupInsert<T>(s: seq<T>, p: nat, x: T)
    requires NoDup(s) && x !in s && p <= |s|
    ensures NoDup(s[..p] + [x] + s[p..])
  {
    var t := s[..p] + [x] + s[p..];
    forall i, j | 0 <= i < j < |t| ensures t[i] != t[j] {
      var i' := if i < p then i else i - 1;
      var j' := if j < p then j else j - 1;
      assert i != p ==> t[i] == s[i'];
      assert j != p ==> t[j] == s[j'];
    }
  }

  lemma InsertFilter<T>(s: seq<T>, p: nat, x: T)
    requires x !in s && p <= |s|
    ensures Filter(s[..p] + [x] + s[p..], SetOf(s)) == s
    ensures SetOf(s[..p] + [x] + s[p..]) == SetOf(s) + {x}
  {
    var a, b := s[..p], s[p..];
    assert s == a + b;
    FilterConcat(a + [x], b, SetOf(s));
    FilterConcat(a, [x], SetOf(s));
    FilterConcat(a, b, SetOf(s));
    FilterAll(s, SetOf(s));
    assert Filter([x], SetOf(s)) == [];
    SetOfConcat(a + [x], b);
    SetOfConcat(a, [x]);
    SetOfConcat(a, b);
    assert SetOf([x]) == {x};
  }

  /** Overwriting `old` by `new` from the left, one entry at a time. */
  lemma Splice<T>(new_: seq<T>, old_: seq<T>, i: nat)
    requires |new_| == |old_| && i < |old_|
    ensures (new_[..i] + old_[i..])[i] == old_[i]
    ensures (new_[..i] + old_[i..])[i := new_[i]] == new_[..i + 1] + old_[i + 1..]
    ensures new_[i] == old_[i] ==> new_[..i] + old_[i..] == new_[..i + 1] + old_[i + 1..]
  {
  }

  lemma FilterStep<T>(s: seq<T>, keep: set<T>, i: nat)
    requires i < |s|
    ensures Filter(s[..i + 1], keep) ==
            if s[i] in keep then Filter(s[..i], keep) + [s[i]] else Filter(s[..i], keep)
  {
    assert s[..i + 1][..i] == s[..i];
  }

  /** A piece of a piece. */
  lemma Piece<T>(s: seq<T>, off: nat, b: seq<T>, x: nat, n: nat)
    requires off + |b| <= |s| && s[off..off + |b|] == b && x + n <= |b|
    ensures s[off + x..off + x + n] == b[x..x + n]
  {
    var p, q := s[off + x..off + x + n], b[x..x + n];
    forall i | 0 <= i < n ensures p[i] == q[i] {
      assert s[off..off + |b|][x + i] == s[off + x + i];
    }
  }

  lemma TwoPieces<T>(s: seq<T>, off: nat, a: seq<T>, b: seq<T>)
    requires off + |a| + |b| <= |s| && s[off..off + |a| + |b|] == a + b
    ensures s[off..off + |a|] == a
    ensures s[off + |a|..off + |a| + |b|] == b
  {
    Piece(s, off, a + b, 0, |a|);
    Piece(s, off, a + b, |a|, |b|);
  }

  /** Equal lists as multisets stay equal without an equal last entry. */
  lemma MultisetFront<T>(a: seq<T>, b: seq<T>)
    requires a != [] && |a| == |b| && a[|a| - 1] == b[|b| - 1] && multiset(a) == multiset(b)
    ensures multiset(a[..|a| - 1]) == multiset(b[..|b| - 1])
  {
    var n := |a| - 1;
    assert a == a[..n] + [a[n]] && b == b[..n] + [b[n]];
    assert multiset(a[..n]) == multiset(a) - multiset{a[n]};
    assert multiset(b[..n]) == multiset(b) - multiset{b[n]};
  }

  /** All the parts, joined end to end. */
  function Flatten<T>(parts: seq<seq<T>>): seq<T> {
    if parts == [] then [] else Flatten(parts[..|parts| - 1]) + parts[|parts| - 1]
  }

  lemma FlattenSnoc<T>(parts: seq<seq<T>>, p: seq<T>)
    ensures Flatten(parts + [p]) == Flatten(parts) + p
  {
    assert (parts + [p])[..|parts + [p]| - 1] == parts;
  }

  /** The last `n` entries of `s`, or all of it when it is shorter. */
  function LastN<T>(s: seq<T>, n: nat): seq<T> {
    if |s| <= n then s else s[|s| - n..]
  }
}
