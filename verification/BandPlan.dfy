/** Band plans as values: the region ancestry, the overlay of segment layers, and what
    the operator's requests do to the stored overrides and the cached plan. */
module BandPlan {
  import opened Seqs

  type Id = string

  datatype Region = Region(id: Id, parent: Option<Id>)

  /** Frequencies in hertz; `details` stands for allocation, mode restriction, power
      limit and notes. */
  datatype Segment = Segment(low: int, high: int, title: string, details: string)

  // ---- The ancestry walk ---------------------------------------------------

  /** The first region with this id. */
  function Find(regions: seq<Region>, id: Id): (r: Option<Region>)
    ensures r.Some? ==> r.value in regions && r.value.id == id
  {
    if regions == [] then None
    else if regions[0].id == id then Some(regions[0])
    else Find(regions[1..], id)
  }

  function ParentOf(regions: seq<Region>, id: Id): Option<Id> {
    var r := Find(regions, id);
    if r.None? then None else r.value.parent
  }

  function Parents(regions: seq<Region>): (ps: set<Id>)
    ensures forall id :: ParentOf(regions, id).Some? ==> ParentOf(regions, id).value in ps
  {
    if regions == [] then {}
    else
      assert forall id :: regions[0].id != id ==> ParentOf(regions, id) == ParentOf(regions[1..], id);
      Parents(regions[1..]) + if regions[0].parent.Some? then {regions[0].parent.value} else {}
  }

  /** The regions still to visit. */
  function Ahead(regions: seq<Region>, current: Option<Id>, visited: set<Id>): set<Id> {
    (if current.None? then {} else Parents(regions) + {current.value}) - visited
  }

  lemma AheadShrinks(regions: seq<Region>, id: Id, visited: set<Id>)
    requires id !in visited
    ensures Ahead(regions, ParentOf(regions, id), visited + {id}) < Ahead(regions, Some(id), visited)
  {
    assert id in Ahead(regions, Some(id), visited);
    assert id !in Ahead(regions, ParentOf(regions, id), visited + {id});
  }

  /** From `current` through its ancestors, stopping at the root or before a region seen
      already, so a cycle of parent links ends the walk. */
  function Walk(regions: seq<Region>, current: Option<Id>, visited: set<Id>): seq<Id>
    decreases Ahead(regions, current, visited)
  {
    if current.None? || current.value in visited then []
    else
      AheadShrinks(regions, current.value, visited);
      [current.value] + Walk(regions, ParentOf(regions, current.value), visited + {current.value})
  }

  /** A region and its ancestors, youngest first. */
  function Chain(regions: seq<Region>, id: Id): seq<Id> {
    Walk(regions, Some(id), {})
  }

  lemma {:induction false} WalkNoDup(regions: seq<Region>, current: Option<Id>, visited: set<Id>)
    ensures NoDup(Walk(regions, current, visited))
    ensures forall id :: id in Walk(regions, current, visited) ==> id !in visited
    decreases Ahead(regions, current, visited)
  {
    if current.Some? && current.value !in visited {
      AheadShrinks(regions, current.value, visited);
      WalkNoDup(regions, ParentOf(regions, current.value), visited + {current.value});
    }
  }

  /** Following parent links `n` times. */
  function Ancestor(regions: seq<Region>, id: Id, n: nat): Option<Id> {
    if n == 0 then Some(id)
    else
      var a := Ancestor(regions, id, n - 1);
      if a.None? then None else ParentOf(regions, a.value)
  }

  lemma {:induction false} AncestorShift(regions: seq<Region>, id: Id, n: nat)
    requires ParentOf(regions, id).Some?
    ensures Ancestor(regions, id, n + 1) == Ancestor(regions, ParentOf(regions, id).value, n)
  {
    if n > 0 {
      AncestorShift(regions, id, n - 1);
    }
  }

  /** The walk reaches every ancestor it is not stopped from by a region seen before. */
  lemma {:induction false} WalkReaches(regions: seq<Region>, id: Id, visited: set<Id>, n: nat)
    requires forall k :: 0 <= k <= n ==> Ancestor(regions, id, k).Some? && Ancestor(regions, id, k).value !in visited
    ensures Ancestor(regions, id, n).value in Walk(regions, Some(id), visited)
    decreases Ahead(regions, Some(id), visited)
  {
    assert Ancestor(regions, id, 0).value !in visited;
    if n > 0 && Ancestor(regions, id, n).value != id {
      assert Ancestor(regions, id, 1).Some?;
      var parent := ParentOf(regions, id).value;
      AheadShrinks(regions, id, visited);
      // The last place where the chain of ancestors passes through `id`.
      var m := LastVisit(regions, id, n);
      forall k | 0 <= k <= n - m - 1
        ensures Ancestor(regions, parent, k).Some? && Ancestor(regions, parent, k).value !in visited + {id}
      {
        AncestorShift(regions, id, k);
        SameFrom(regions, id, m, k + 1);
        assert Ancestor(regions, id, m + k + 1).Some?;
      }
      AncestorShift(regions, id, n - m - 1);
      SameFrom(regions, id, m, n - m);
      WalkReaches(regions, parent, visited + {id}, n - m - 1);
    }
  }

  lemma LastVisit(regions: seq<Region>, id: Id, n: nat) returns (m: nat)
    requires forall k :: 0 <= k <= n ==> Ancestor(regions, id, k).Some?
    requires Ancestor(regions, id, n).value != id
    ensures m < n && Ancestor(regions, id, m) == Some(id)
    ensures forall k :: m < k <= n ==> Ancestor(regions, id, k) != Some(id)
  {
    m := n;
    while Ancestor(regions, id, m) != Some(id)
      invariant 0 <= m <= n
      invariant forall k :: m < k <= n ==> Ancestor(regions, id, k) != Some(id)
      decreases m
    {
      assert m == 0 ==> Ancestor(regions, id, m) == Some(id);
      m := m - 1;
    }
  }

  lemma {:induction false} SameFrom(regions: seq<Region>, id: Id, m: nat, k: nat)
    requires Ancestor(regions, id, m) == Some(id)
    ensures Ancestor(regions, id, m + k) == Ancestor(regions, id, k)
  {
    if k > 0 {
      SameFrom(regions, id, m, k - 1);
      assert Ancestor(regions, id, m + k) ==
             if Ancestor(regions, id, m + k - 1).None? then None else ParentOf(regions, Ancestor(regions, id, m + k - 1).value);
    }
  }

  /** A region is on the chain exactly when some number of parent links leads to it,
      with or without cycles in between. */
  lemma ChainIsAncestry(regions: seq<Region>, target: Id, id: Id)
    ensures target in Chain(regions, id) <==> exists n: nat :: Ancestor(regions, id, n) == Some(target)
  {
    if n: nat :| Ancestor(regions, id, n) == Some(target) {
      AllBefore(regions, id, n);
      WalkReaches(regions, id, {}, n);
    }
    if target in Chain(regions, id) {
      var n := WalkFollows(regions, id, {}, target);
    }
  }

  lemma {:induction false} AllBefore(regions: seq<Region>, id: Id, n: nat)
    requires Ancestor(regions, id, n).Some?
    ensures forall k :: 0 <= k <= n ==> Ancestor(regions, id, k).Some?
  {
    if n > 0 {
      AllBefore(regions, id, n - 1);
    }
  }

  lemma {:induction false} WalkFollows(regions: seq<Region>, id: Id, visited: set<Id>, target: Id) returns (n: nat)
    requires target in Walk(regions, Some(id), visited)
    ensures Ancestor(regions, id, n) == Some(target)
    decreases Ahead(regions, Some(id), visited)
  {
    if target == id {
      n := 0;
    } else {
      AheadShrinks(regions, id, visited);
      var rest := Walk(regions, ParentOf(regions, id), visited + {id});
      assert target in rest;
      var m := WalkFollows(regions, ParentOf(regions, id).value, visited + {id}, target);
      AncestorShift(regions, id, m);
      n := m + 1;
    }
  }

  /** Place `j` holds the first region with this id. */
  predicate FirstWith(regions: seq<Region>, j: nat, id: Id) {
    j < |regions| && regions[j].id == id && forall k :: 0 <= k < j ==> regions[k].id != id
  }

  /** The lookup finds every id that is there, at its first place. */
  lemma {:induction false} FindMeaning(regions: seq<Region>, id: Id)
    ensures Find(regions, id).None? <==> forall j :: 0 <= j < |regions| ==> regions[j].id != id
    ensures forall j: nat :: FirstWith(regions, j, id) ==> Find(regions, id) == Some(regions[j])
    ensures Find(regions, id).Some? ==> exists j: nat :: FirstWith(regions, j, id)
  {
    if regions == [] {
    } else if regions[0].id == id {
      assert FirstWith(regions, 0, id);
    } else {
      FindMeaning(regions[1..], id);
      forall j: nat | FirstWith(regions, j, id) ensures Find(regions, id) == Some(regions[j]) {
        assert FirstWith(regions[1..], j - 1, id);
      }
      if Find(regions, id).Some? {
        var j: nat :| FirstWith(regions[1..], j, id);
        assert FirstWith(regions, j + 1, id);
      } else {
        assert forall j :: 0 < j < |regions| ==> regions[j].id == regions[1..][j - 1].id;
      }
    }
  }

  /** The first region with id `child` names `parent` as its parent. */
  ghost predicate Links(regions: seq<Region>, child: Id, parent: Id) {
    exists j: nat :: FirstWith(regions, j, child) && regions[j].parent == Some(parent)
  }

  lemma ParentLinks(regions: seq<Region>, id: Id, parent: Id)
    ensures ParentOf(regions, id) == Some(parent) <==> Links(regions, id, parent)
  {
    FindMeaning(regions, id);
  }

  /** A chain starts at its region, each entry is linked to the next, and the last has no
      parent or one the chain has visited already. */
  lemma ChainLinks(regions: seq<Region>, id: Id)
    ensures var c := Chain(regions, id);
            && c != [] && c[0] == id && NoDup(c)
            && (forall k :: 0 <= k < |c| - 1 ==> Links(regions, c[k], c[k + 1]))
            && (forall parent :: Links(regions, c[|c| - 1], parent) ==> parent in c)
  {
    WalkNoDup(regions, Some(id), {});
    WalkLinks(regions, id, {});
  }

  lemma {:induction false} WalkLinks(regions: seq<Region>, id: Id, visited: set<Id>)
    requires id !in visited
    ensures var c := Walk(regions, Some(id), visited);
            && c != [] && c[0] == id
            && (forall k :: 0 <= k < |c| - 1 ==> Links(regions, c[k], c[k + 1]))
            && (forall parent :: Links(regions, c[|c| - 1], parent) ==> parent in c || parent in visited)
    decreases Ahead(regions, Some(id), visited)
  {
    AheadShrinks(regions, id, visited);
    var c, parent := Walk(regions, Some(id), visited), ParentOf(regions, id);
    var rest := Walk(regions, parent, visited + {id});
    assert c == [id] + rest;
    if rest == [] {
      forall p | Links(regions, id, p) ensures p in c || p in visited {
        ParentLinks(regions, id, p);
      }
    } else {
      ParentLinks(regions, id, parent.value);
      WalkLinks(regions, parent.value, visited + {id});
      forall k | 0 <= k < |c| - 1 ensures Links(regions, c[k], c[k + 1]) {
        assert k > 0 ==> c[k] == rest[k - 1];
        assert c[k + 1] == rest[k];
      }
    }
  }

  // ---- Overlaying the layers -----------------------------------------------

  predicate Overlaps(e: Segment, s: Segment) {
    e.low < s.high && e.high > s.low
  }

  /** What a new segment leaves of the list: `RemoveAll` of everything it overlaps. */
  function Keep(acc: seq<Segment>, s: Segment): seq<Segment> {
    if acc == [] then []
    else
      var rest := Keep(acc[..|acc| - 1], s);
      if Overlaps(acc[|acc| - 1], s) then rest else rest + [acc[|acc| - 1]]
  }

  function Overlay(stream: seq<Segment>): seq<Segment> {
    if stream == [] then []
    else Keep(Overlay(stream[..|stream| - 1]), stream[|stream| - 1]) + [stream[|stream| - 1]]
  }

  predicate Survives(stream: seq<Segment>, i: nat)
    requires i < |stream|
  {
    forall j :: i < j < |stream| ==> !Overlaps(stream[i], stream[j])
  }

  /** The occurrences from place `i` on that nothing later overlaps. */
  function Survivors(stream: seq<Segment>, i: nat): seq<Segment>
    requires i <= |stream|
    decreases |stream| - i
  {
    if i == |stream| then []
    else if Survives(stream, i) then [stream[i]] + Survivors(stream, i + 1)
    else Survivors(stream, i + 1)
  }

  lemma {:induction false} KeepConcat(a: seq<Segment>, b: seq<Segment>, s: Segment)
    ensures Keep(a + b, s) == Keep(a, s) + Keep(b, s)
    decreases |b|
  {
    if b == [] {
      assert a + b == a;
    } else {
      assert (a + b)[..|a + b| - 1] == a + b[..|b| - 1];
      KeepConcat(a, b[..|b| - 1], s);
    }
  }

  lemma {:induction false} SurvivorsSnoc(stream: seq<Segment>, s: Segment, i: nat)
    requires i <= |stream|
    ensures Survivors(stream + [s], i) == Keep(Survivors(stream, i), s) + [s]
    decreases |stream| - i
  {
    var longer := stream + [s];
    if i == |stream| {
      assert Survivors(longer, i + 1) == [];
    } else {
      SurvivorsSnoc(stream, s, i + 1);
      assert longer[i] == stream[i] && longer[|stream|] == s;
      assert Survives(longer, i) <==> Survives(stream, i) && !Overlaps(stream[i], s) by {
        assert forall j :: i < j < |stream| ==> longer[j] == stream[j];
      }
      if Survives(stream, i) {
        KeepConcat([stream[i]], Survivors(stream, i + 1), s);
        assert Keep([stream[i]], s) == if Overlaps(stream[i], s) then [] else [stream[i]];
      }
    }
  }

  /** An occurrence survives the overlay exactly when no later occurrence overlaps it;
      survivors keep their order. */
  lemma {:induction false} OverlayIsSurvivors(stream: seq<Segment>)
    ensures Overlay(stream) == Survivors(stream, 0)
  {
    if stream != [] {
      var front := stream[..|stream| - 1];
      OverlayIsSurvivors(front);
      SurvivorsSnoc(front, stream[|stream| - 1], 0);
      FrontLast(stream);
    }
  }

  lemma FrontLast(stream: seq<Segment>)
    requires stream != []
    ensures stream[..|stream| - 1] + [stream[|stream| - 1]] == stream
  {
  }

  lemma {:induction false} SurvivorMember(stream: seq<Segment>, i: nat, s: Segment)
    requires i <= |stream|
    ensures s in Survivors(stream, i) <==> exists k :: i <= k < |stream| && stream[k] == s && Survives(stream, k)
    decreases |stream| - i
  {
    if i < |stream| {
      SurvivorMember(stream, i + 1, s);
    }
  }

  ghost predicate Disjoint(acc: seq<Segment>) {
    forall i, j :: 0 <= i < j < |acc| ==> !Overlaps(acc[i], acc[j])
  }

  lemma {:induction false} KeepMember(acc: seq<Segment>, s: Segment, x: Segment)
    ensures x in Keep(acc, s) <==> x in acc && !Overlaps(x, s)
  {
    if acc != [] {
      KeepMember(acc[..|acc| - 1], s, x);
      assert acc == acc[..|acc| - 1] + [acc[|acc| - 1]];
    }
  }

  lemma {:induction false} KeepDisjoint(acc: seq<Segment>, s: Segment)
    requires Disjoint(acc)
    ensures Disjoint(Keep(acc, s))
  {
    if acc != [] {
      var front, last := acc[..|acc| - 1], acc[|acc| - 1];
      KeepDisjoint(front, s);
      forall k | 0 <= k < |Keep(front, s)| ensures !Overlaps(Keep(front, s)[k], last) {
        KeepMember(front, s, Keep(front, s)[k]);
      }
    }
  }

  lemma {:induction false} OverlayDisjoint(stream: seq<Segment>)
    ensures Disjoint(Overlay(stream))
  {
    if stream != [] {
      var front, last := stream[..|stream| - 1], stream[|stream| - 1];
      OverlayDisjoint(front);
      KeepDisjoint(Overlay(front), last);
      var kept := Keep(Overlay(front), last);
      forall k | 0 <= k < |kept| ensures !Overlaps(kept[k], last) {
        KeepMember(Overlay(front), last, kept[k]);
      }
    }
  }

  // ---- Sorting -------------------------------------------------------------

  function Insert(sorted: seq<Segment>, s: Segment): seq<Segment> {
    if sorted == [] || sorted[|sorted| - 1].low <= s.low then sorted + [s]
    else Insert(sorted[..|sorted| - 1], s) + [sorted[|sorted| - 1]]
  }

  function SortByLow(acc: seq<Segment>): seq<Segment> {
    if acc == [] then [] else Insert(SortByLow(acc[..|acc| - 1]), acc[|acc| - 1])
  }

  ghost predicate SortedByLow(acc: seq<Segment>) {
    forall i, j :: 0 <= i < j < |acc| ==> acc[i].low <= acc[j].low
  }

  lemma {:induction false} InsertMember(sorted: seq<Segment>, s: Segment, x: Segment)
    ensures multiset(Insert(sorted, s))[x] == multiset(sorted)[x] + if x == s then 1 else 0
  {
    if sorted != [] && sorted[|sorted| - 1].low > s.low {
      InsertMember(sorted[..|sorted| - 1], s, x);
      assert sorted == sorted[..|sorted| - 1] + [sorted[|sorted| - 1]];
    }
  }

  lemma InsertEntries(sorted: seq<Segment>, s: Segment)
    ensures multiset(Insert(sorted, s)) == multiset(sorted) + multiset{s}
    ensures forall x :: x in Insert(sorted, s) ==> x in sorted || x == s
  {
    forall x ensures multiset(Insert(sorted, s))[x] == (multiset(sorted) + multiset{s})[x] {
      InsertMember(sorted, s, x);
    }
    forall x | x in Insert(sorted, s) ensures x in sorted || x == s {
      assert x in multiset(Insert(sorted, s));
      InsertMember(sorted, s, x);
    }
  }

  lemma {:induction false} InsertSorted(sorted: seq<Segment>, s: Segment)
    requires SortedByLow(sorted)
    ensures SortedByLow(Insert(sorted, s))
  {
    if sorted != [] && sorted[|sorted| - 1].low > s.low {
      var front, last := sorted[..|sorted| - 1], sorted[|sorted| - 1];
      InsertSorted(front, s);
      InsertEntries(front, s);
      forall k | 0 <= k < |Insert(front, s)| ensures Insert(front, s)[k].low <= last.low {
        assert Insert(front, s)[k] in Insert(front, s);
      }
    }
  }

  lemma {:induction false} InsertDisjoint(sorted: seq<Segment>, s: Segment)
    requires Disjoint(sorted) && forall x :: x in sorted ==> !Overlaps(x, s)
    ensures Disjoint(Insert(sorted, s))
  {
    if sorted != [] && sorted[|sorted| - 1].low > s.low {
      var front, last := sorted[..|sorted| - 1], sorted[|sorted| - 1];
      assert last in sorted && forall x :: x in front ==> x in sorted;
      InsertDisjoint(front, s);
      InsertEntries(front, s);
      forall k | 0 <= k < |Insert(front, s)| ensures !Overlaps(Insert(front, s)[k], last) {
        assert Insert(front, s)[k] in Insert(front, s);
      }
    }
  }

  lemma {:induction false} SortMeaning(acc: seq<Segment>)
    ensures SortedByLow(SortByLow(acc))
    ensures multiset(SortByLow(acc)) == multiset(acc)
    ensures Disjoint(acc) ==> Disjoint(SortByLow(acc))
  {
    if acc != [] {
      var front, last := acc[..|acc| - 1], acc[|acc| - 1];
      assert acc == front + [last];
      SortMeaning(front);
      InsertSorted(SortByLow(front), last);
      InsertEntries(SortByLow(front), last);
      if Disjoint(acc) {
        DisjointFromLast(front, last, SortByLow(front));
        InsertDisjoint(SortByLow(front), last);
      }
    }
  }

  lemma DisjointFromLast(front: seq<Segment>, last: Segment, sorted: seq<Segment>)
    requires Disjoint(front + [last]) && multiset(sorted) == multiset(front)
    ensures forall x :: x in sorted ==> !Overlaps(x, last)
  {
    var acc := front + [last];
    forall x | x in sorted ensures !Overlaps(x, last) {
      assert x in multiset(sorted);
      var k :| 0 <= k < |front| && front[k] == x;
      assert acc[k] == x && acc[|acc| - 1] == last;
    }
  }

  ghost predicate Proper(acc: seq<Segment>) {
    forall s :: s in acc ==> s.low < s.high
  }

  /** Sorted and closed under "ends before the next begins". */
  ghost predicate Ordered(plan: seq<Segment>) {
    Proper(plan) && forall i, j :: 0 <= i < j < |plan| ==> plan[i].high <= plan[j].low
  }

  lemma SortedDisjointOrdered(plan: seq<Segment>)
    requires Proper(plan) && SortedByLow(plan) && Disjoint(plan)
    ensures Ordered(plan)
  {
    forall i, j | 0 <= i < j < |plan| ensures plan[i].high <= plan[j].low {
      assert plan[j] in plan;
      assert !Overlaps(plan[i], plan[j]);
    }
  }

  /** The order of equal keys never matters here: an ordered plan is the only sorted
      arrangement of its segments, so any sorting method gives the same plan. */
  lemma {:induction false} OrderedIsUnique(a: seq<Segment>, b: seq<Segment>)
    requires Ordered(a) && SortedByLow(b) && multiset(a) == multiset(b)
    ensures a == b
  {
    assert |a| == |multiset(a)| == |multiset(b)| == |b|;
    if a != [] {
      var n := |a| - 1;
      LastIsHighest(a, b);
      MultisetFront(a, b);
      OrderedFront(a);
      OrderedIsUnique(a[..n], b[..n]);
      assert a == a[..n] + [a[n]] && b == b[..n] + [b[n]];
    }
  }

  lemma OrderedFront(a: seq<Segment>)
    requires Ordered(a) && a != []
    ensures Ordered(a[..|a| - 1])
  {
    assert forall s :: s in a[..|a| - 1] ==> s in a;
  }

  lemma LastIsHighest(a: seq<Segment>, b: seq<Segment>)
    requires a != [] && |b| == |a|
    requires Ordered(a) && SortedByLow(b) && multiset(a) == multiset(b)
    ensures a[|a| - 1] == b[|b| - 1]
  {
    var n := |a| - 1;
    assert b[n] in multiset(a) && a[n] in multiset(b);
    var i :| 0 <= i < |a| && a[i] == b[n];
    var j :| 0 <= j < |b| && b[j] == a[n];
    assert a[i] in a;
    assert a[n].low == b[j].low <= b[n].low;
  }

  // ---- The store and the resolved plan -------------------------------------

  /** A stored override: a list of segments, the JSON null, or unreadable text. */
  datatype Doc = Saved(segments: seq<Segment>) | NullDoc | Unreadable

  datatype Store = Store(regions: seq<Region>, shipped: map<Id, seq<Segment>>, overrides: map<Id, Doc>)

  function Shipped(st: Store, id: Id): seq<Segment> {
    if id in st.shipped then st.shipped[id] else []
  }

  /** An override shadows the shipped segments of its region. */
  function SegmentsOf(st: Store, id: Id): seq<Segment> {
    if id in st.overrides then
      match st.overrides[id]
      case Saved(segments) => segments
      case NullDoc => []
      case Unreadable => Shipped(st, id)
    else Shipped(st, id)
  }

  /** The segments of a chain, oldest layer first. */
  function Stream(st: Store, chain: seq<Id>): seq<Segment> {
    if chain == [] then [] else Stream(st, chain[1..]) + SegmentsOf(st, chain[0])
  }

  function Resolve(st: Store, id: Id): seq<Segment> {
    SortByLow(Overlay(Stream(st, Chain(st.regions, id))))
  }

  ghost predicate StoreProper(st: Store) {
    forall id :: Proper(SegmentsOf(st, id))
  }

  lemma {:induction false} StreamProper(st: Store, chain: seq<Id>)
    requires StoreProper(st)
    ensures Proper(Stream(st, chain))
  {
    if chain != [] {
      StreamProper(st, chain[1..]);
      assert Proper(SegmentsOf(st, chain[0]));
    }
  }

  /** Some occurrence of `s` in the stream is overlapped by nothing later. */
  ghost predicate HasSurvivor(stream: seq<Segment>, s: Segment) {
    exists k :: 0 <= k < |stream| && stream[k] == s && Survives(stream, k)
  }

  lemma PlanMember(st: Store, id: Id, s: Segment)
    ensures s in Resolve(st, id) <==> HasSurvivor(Stream(st, Chain(st.regions, id)), s)
  {
    var stream := Stream(st, Chain(st.regions, id));
    SameMembers(Overlay(stream), s);
    OverlayIsSurvivors(stream);
    SurvivorMember(stream, 0, s);
  }

  /** The segment has an occurrence in the layers such that every later one ends at or below
      its lower edge or begins at or above its upper edge. */
  ghost predicate Uncovered(layers: seq<Segment>, s: Segment) {
    exists k :: 0 <= k < |layers| && layers[k] == s
                && forall j :: k < j < |layers| ==> layers[j].high <= s.low || s.high <= layers[j].low
  }

  /** Which segments a plan holds, in frequencies. */
  lemma PlanFrequencies(st: Store, id: Id, s: Segment)
    ensures s in Resolve(st, id) <==> Uncovered(Stream(st, Chain(st.regions, id)), s)
  {
    PlanMember(st, id, s);
    var layers := Stream(st, Chain(st.regions, id));
    forall k | 0 <= k < |layers| && layers[k] == s
      ensures Survives(layers, k) <==>
              forall j :: k < j < |layers| ==> layers[j].high <= s.low || s.high <= layers[j].low
    {
    }
  }

  /** The layers of a chain from place `p` on, then those of the younger regions. */
  lemma {:induction false} StreamSplit(st: Store, chain: seq<Id>, p: nat)
    requires p <= |chain|
    ensures Stream(st, chain) == Stream(st, chain[p..]) + Stream(st, chain[..p])
  {
    if p == 0 {
      assert chain[p..] == chain && chain[..p] == [];
    } else {
      StreamSplit(st, chain[1..], p - 1);
      assert chain[1..][p - 1..] == chain[p..] && chain[1..][..p - 1] == chain[..p][1..];
    }
  }

  lemma {:induction false} StreamMember(st: Store, chain: seq<Id>, t: Segment)
    requires t in Stream(st, chain)
    ensures exists q :: 0 <= q < |chain| && t in SegmentsOf(st, chain[q])
  {
    if t in SegmentsOf(st, chain[0]) {
    } else {
      StreamMember(st, chain[1..], t);
      var q :| 0 <= q < |chain[1..]| && t in SegmentsOf(st, chain[1..][q]);
      assert t in SegmentsOf(st, chain[q + 1]);
    }
  }

  /** An ancestor's validated segment that touches no segment of any younger region in
      frequency stays in the plan. */
  lemma ParentStays(st: Store, id: Id, p: nat, i: nat)
    requires p < |Chain(st.regions, id)| && Validated(SegmentsOf(st, Chain(st.regions, id)[p]))
    requires i < |SegmentsOf(st, Chain(st.regions, id)[p])|
    requires var chain := Chain(st.regions, id);
             var s := SegmentsOf(st, chain[p])[i];
             forall q, t :: 0 <= q < p && t in SegmentsOf(st, chain[q]) ==> t.high <= s.low || s.high <= t.low
    ensures SegmentsOf(st, Chain(st.regions, id)[p])[i] in Resolve(st, id)
  {
    var chain := Chain(st.regions, id);
    var own := SegmentsOf(st, chain[p]);
    var s, layers, young := own[i], Stream(st, chain), Stream(st, chain[..p]);
    StreamSplit(st, chain, p);
    var older := Stream(st, chain[p + 1..]);
    assert chain[p..][1..] == chain[p + 1..];
    assert layers == older + own + young;
    var k := |older| + i;
    assert layers[k] == s;
    forall j | k < j < |layers| ensures layers[j].high <= s.low || s.high <= layers[j].low {
      if j < |older| + |own| {
        ValidatedPairs(own, i, j - |older|);
        assert layers[j] == own[j - |older|];
      } else {
        var t := young[j - |older| - |own|];
        assert layers[j] == t && t in young;
        StreamMember(st, chain[..p], t);
        var q :| 0 <= q < |chain[..p]| && t in SegmentsOf(st, chain[..p][q]);
        assert chain[..p][q] == chain[q];
      }
    }
    PlanFrequencies(st, id, s);
  }

  /** An override's segments answer for its region; an unreadable override is as good as
      none, and a null one as good as saving nothing. */
  lemma OverrideShadows(st: Store, id: Id, segments: seq<Segment>)
    ensures SegmentsOf(st.(overrides := st.overrides[id := Doc.Saved(segments)]), id) == segments
    ensures SegmentsOf(st.(overrides := st.overrides[id := Unreadable]), id)
            == SegmentsOf(st.(overrides := st.overrides - {id}), id)
    ensures SegmentsOf(st.(overrides := st.overrides[id := NullDoc]), id)
            == SegmentsOf(st.(overrides := st.overrides[id := Doc.Saved([])]), id)
    ensures SegmentsOf(st.(overrides := st.overrides - {id}, shipped := st.shipped[id := segments]), id) == segments
    ensures SegmentsOf(st.(overrides := st.overrides - {id}, shipped := st.shipped - {id}), id) == []
  {
  }

  lemma SameMembers(acc: seq<Segment>, s: Segment)
    ensures s in SortByLow(acc) <==> s in acc
  {
    SortMeaning(acc);
    assert s in SortByLow(acc) <==> s in multiset(SortByLow(acc));
  }

  /** The resolved plan is sorted, its segments do not overlap, and it is a permutation
      of the occurrences that nothing later in the layers overlaps; with proper
      segments each ends before the next begins. */
  lemma ResolvedPlan(st: Store, id: Id)
    ensures SortedByLow(Resolve(st, id)) && Disjoint(Resolve(st, id))
    ensures multiset(Resolve(st, id)) == multiset(Survivors(Stream(st, Chain(st.regions, id)), 0))
    ensures StoreProper(st) ==> Ordered(Resolve(st, id))
  {
    var stream := Stream(st, Chain(st.regions, id));
    OverlayDisjoint(stream);
    OverlayIsSurvivors(stream);
    SortMeaning(Overlay(stream));
    if StoreProper(st) {
      StreamProper(st, Chain(st.regions, id));
      forall s | s in Resolve(st, id) ensures s.low < s.high {
        PlanMember(st, id, s);
        var k :| 0 <= k < |stream| && stream[k] == s;
        assert stream[k] in stream;
      }
      SortedDisjointOrdered(Resolve(st, id));
    }
  }

  /** Whatever sorting method is used, the plan is the same. */
  lemma AnySortResolves(st: Store, id: Id, other: seq<Segment>)
    requires StoreProper(st) && SortedByLow(other)
    requires multiset(other) == multiset(Overlay(Stream(st, Chain(st.regions, id))))
    ensures other == Resolve(st, id)
  {
    ResolvedPlan(st, id);
    SortMeaning(Overlay(Stream(st, Chain(st.regions, id))));
    OrderedIsUnique(Resolve(st, id), other);
  }

  // ---- Validation ----------------------------------------------------------

  predicate White(c: char) {
    '\U{0009}' <= c <= '\U{000D}' || c == ' ' || c == '\U{0085}' || c == '\U{00A0}' || c == '\U{1680}'
    || '\U{2000}' <= c <= '\U{200A}' || c == '\U{2028}' || c == '\U{2029}' || c == '\U{202F}'
    || c == '\U{205F}' || c == '\U{3000}'
  }

  predicate Blank(text: string) {
    forall i :: 0 <= i < |text| ==> White(text[i])
  }

  datatype SaveError = NegativeFrequency | EmptyRange | EmptyTitle | OverlapsPrevious

  /** What is wrong with one segment, given the one before it, in the order checked. */
  function Problem(segments: seq<Segment>, i: nat): Option<SaveError>
    requires i < |segments|
  {
    var s := segments[i];
    if s.low < 0 || s.high < 0 then Some(NegativeFrequency)
    else if s.low >= s.high then Some(EmptyRange)
    else if Blank(s.title) then Some(EmptyTitle)
    else if i > 0 && s.low < segments[i - 1].high then Some(OverlapsPrevious)
    else None
  }

  /** The first thing wrong, from place `i` on. */
  function FirstProblem(segments: seq<Segment>, i: nat): (e: Option<SaveError>)
    requires i <= |segments|
    ensures e.None? <==> forall k :: i <= k < |segments| ==> Problem(segments, k).None?
    decreases |segments| - i
  {
    if i == |segments| then None
    else if Problem(segments, i).Some? then Problem(segments, i)
    else FirstProblem(segments, i + 1)
  }

  ghost predicate Validated(segments: seq<Segment>) {
    forall i :: 0 <= i < |segments| ==> Problem(segments, i).None?
  }

  /** The white characters of ASCII are tab, line feed, vertical tab, form feed, carriage
      return and space. */
  lemma WhiteAscii(c: char)
    requires c < '\U{0080}'
    ensures White(c) <==> c in "\t\n\U{000B}\U{000C}\r "
  {
    assert "\t\n\U{000B}\U{000C}\r " == ['\U{0009}', '\U{000A}', '\U{000B}', '\U{000C}', '\U{000D}', ' '];
  }

  /** A refusal names something that is wrong, with everything before it in order. */
  lemma {:induction false} RefusalMeaning(segments: seq<Segment>, from: nat) returns (i: nat)
    requires from <= |segments| && FirstProblem(segments, from).Some?
    ensures from <= i < |segments| && FirstProblem(segments[..i], from).None?
    ensures var s := segments[i];
            match FirstProblem(segments, from).value
            case NegativeFrequency => s.low < 0 || s.high < 0
            case EmptyRange => 0 <= s.high <= s.low
            case EmptyTitle => 0 <= s.low < s.high && forall k :: 0 <= k < |s.title| ==> White(s.title[k])
            case OverlapsPrevious => 0 <= s.low < s.high && i > 0 && s.low < segments[i - 1].high
    decreases |segments| - from
  {
    if Problem(segments, from).None? {
      i := RefusalMeaning(segments, from + 1);
      assert Problem(segments[..i], from) == Problem(segments, from);
    } else {
      i := from;
    }
  }

  /** Something in the text is not white space. */
  ghost predicate Titled(text: string) {
    exists k :: 0 <= k < |text| && !White(text[k])
  }

  /** The segment begins at zero or above, has positive width and a title, and begins
      where the one before it ends or later. */
  ghost predicate Fits(segments: seq<Segment>, i: nat)
    requires i < |segments|
  {
    var s := segments[i];
    0 <= s.low < s.high && Titled(s.title) && (i > 0 ==> segments[i - 1].high <= s.low)
  }

  /** Exactly the lists in which every segment does are accepted. */
  lemma AcceptedIff(segments: seq<Segment>)
    ensures FirstProblem(segments, 0).None? <==> forall i :: 0 <= i < |segments| ==> Fits(segments, i)
  {
    if FirstProblem(segments, 0).None? {
      forall i | 0 <= i < |segments| ensures Fits(segments, i) {
        assert Problem(segments, i).None?;
        NotBlank(segments[i].title);
      }
    } else {
      var i := RefusalMeaning(segments, 0);
      NotBlank(segments[i].title);
      assert !Fits(segments, i);
    }
  }

  lemma NotBlank(text: string)
    ensures Blank(text) <==> !Titled(text)
  {
  }

  /** Checking neighbours is enough: every earlier segment ends before every later one
      begins. */
  lemma {:induction false} ValidatedPairs(segments: seq<Segment>, i: nat, j: nat)
    requires Validated(segments) && i < j < |segments|
    ensures segments[i].high <= segments[j].low
    decreases j - i
  {
    assert Problem(segments, j).None? && Problem(segments, j - 1).None?;
    if i < j - 1 {
      ValidatedPairs(segments, i, j - 1);
    }
  }

  lemma ValidatedOrdered(segments: seq<Segment>)
    requires Validated(segments)
    ensures Ordered(segments)
  {
    forall i, j | 0 <= i < j < |segments| ensures segments[i].high <= segments[j].low {
      ValidatedPairs(segments, i, j);
    }
    forall s | s in segments ensures s.low < s.high {
      var i :| 0 <= i < |segments| && segments[i] == s;
      assert Problem(segments, i).None?;
    }
  }

  /** Every segment of the region itself that passed validation is in its plan. */
  lemma LeafSurvives(st: Store, id: Id, i: nat)
    requires Validated(SegmentsOf(st, id)) && i < |SegmentsOf(st, id)|
    ensures SegmentsOf(st, id)[i] in Resolve(st, id)
  {
    var leaf, chain := SegmentsOf(st, id), Chain(st.regions, id);
    var stream := Stream(st, chain);
    assert chain[0] == id;
    var k := |stream| - |leaf| + i;
    assert stream[k] == leaf[i];
    forall j | k < j < |stream| ensures !Overlaps(stream[k], stream[j]) {
      ValidatedPairs(leaf, i, j - k + i);
      assert stream[j] == leaf[j - k + i];
    }
    assert Survives(stream, k);
    PlanMember(st, id, leaf[i]);
  }

  /** Inside a segment of a plan, that segment and no other answers. */
  lemma MemberAnswers(st: Store, id: Id, s: Segment, freq: int, answer: Segment)
    requires StoreProper(st) && s in Resolve(st, id) && s.low < freq < s.high
    requires answer in Resolve(st, id) && answer.low <= freq <= answer.high
    ensures answer == s
  {
    ResolvedPlan(st, id);
    var plan := Resolve(st, id);
    var p :| 0 <= p < |plan| && plan[p] == answer;
    var q :| 0 <= q < |plan| && plan[q] == s;
  }

  /** Inside a validated segment of the active region itself, that segment and no other
      answers, whatever the parents say. */
  lemma LeafAnswers(st: Store, id: Id, i: nat, freq: int, answer: Segment)
    requires StoreProper(st) && Validated(SegmentsOf(st, id)) && i < |SegmentsOf(st, id)|
    requires SegmentsOf(st, id)[i].low < freq < SegmentsOf(st, id)[i].high
    requires answer in Resolve(st, id) && answer.low <= freq <= answer.high
    ensures answer == SegmentsOf(st, id)[i]
  {
    LeafSurvives(st, id, i);
    MemberAnswers(st, id, SegmentsOf(st, id)[i], freq, answer);
  }
}
