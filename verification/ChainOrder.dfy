/** The Audio Suite chain order as values: the canonical list of every plugin ever
    seen, the runtime view of it, and what each request does to them. */
module ChainOrder {
  import opened Seqs

  type Id = string

  const SAMPLES: string := "com.openhpsdr.zeus.samples."

  const DEFAULT_ORDER: seq<Id> := [
    SAMPLES + "gate", SAMPLES + "downexp", SAMPLES + "tube", SAMPLES + "eq",
    SAMPLES + "compressor", SAMPLES + "exciter", SAMPLES + "bass", SAMPLES + "reverb"
  ]

  lemma DefaultOrderNoDup()
    ensures NoDup(DEFAULT_ORDER)
  {
    var tails := ["gate", "downexp", "tube", "eq", "compressor", "exciter", "bass", "reverb"];
    assert |DEFAULT_ORDER| == |tails|;
    forall i, j | 0 <= i < j < |DEFAULT_ORDER| ensures DEFAULT_ORDER[i] != DEFAULT_ORDER[j] {
      assert DEFAULT_ORDER[i][|SAMPLES|..] == tails[i];
      assert DEFAULT_ORDER[j][|SAMPLES|..] == tails[j];
    }
  }

  /** Position in a list, or -1. */
  function IndexIn(list: seq<Id>, id: Id, from: nat := 0): (r: int)
    requires from <= |list|
    ensures r == -1 || from <= r < |list|
    ensures r != -1 ==> list[r] == id && id !in list[from..r]
    ensures r == -1 <==> id !in list[from..]
    decreases |list| - from
  {
    if from == |list| then -1
    else if list[from] == id then from
    else
      assert list[from..] == [list[from]] + list[from + 1..];
      var r := IndexIn(list, id, from + 1);
      assert r != -1 ==> list[from..r] == [list[from]] + list[from + 1..r];
      r
  }

  function DefaultIndex(id: Id): int {
    IndexIn(DEFAULT_ORDER, id)
  }

  /** A default plugin with index `d` goes in front of this entry. */
  predicate Stops(entry: Id, d: int) {
    DefaultIndex(entry) < 0 || DefaultIndex(entry) > d
  }

  function FirstStop(canonical: seq<Id>, d: int, from: nat): (i: nat)
    requires from <= |canonical|
    ensures from <= i <= |canonical|
    ensures forall k :: from <= k < i ==> !Stops(canonical[k], d)
    ensures i < |canonical| ==> Stops(canonical[i], d)
    decreases |canonical| - from
  {
    if from == |canonical| || Stops(canonical[from], d) then from
    else FirstStop(canonical, d, from + 1)
  }

  function InsertPosition(canonical: seq<Id>, id: Id): (i: nat)
    ensures i <= |canonical|
  {
    if DefaultIndex(id) < 0 then |canonical| else FirstStop(canonical, DefaultIndex(id), 0)
  }

  function InsertByDefault(canonical: seq<Id>, id: Id): seq<Id> {
    var i := InsertPosition(canonical, id);
    canonical[..i] + [id] + canonical[i..]
  }

  /** Each entry of `canonical` that is attached becomes the next entry of `order`;
      the others stay where they are. */
  function Merge(canonical: seq<Id>, attached: set<Id>, order: seq<Id>): seq<Id>
    requires |order| == |Filter(canonical, attached)|
  {
    if canonical == [] then []
    else
      var n := |canonical| - 1;
      if canonical[n] in attached
      then Merge(canonical[..n], attached, order[..|order| - 1]) + [order[|order| - 1]]
      else Merge(canonical[..n], attached, order) + [canonical[n]]
  }

  datatype Chain = Chain(canonical: seq<Id>, attached: set<Id>) {
    function Runtime(): seq<Id> {
      Filter(canonical, attached)
    }

    ghost predicate Valid() {
      NoDup(canonical) && attached <= SetOf(canonical)
    }
  }

  /** What the operator's clients and the audio bridge are told. */
  datatype Notice = OrderChanged(order: seq<Id>) | Broadcast(order: seq<Id>)

  datatype PutError = WrongCount | WrongSet

  /** The service together with the row its store holds. */
  datatype System = System(row: Option<seq<Id>>, chain: Chain, notices: seq<Notice>)

  /** The list a service starts from: the stored row, or the default order when
      there is no row or the row is empty. */
  function Loaded(row: Option<seq<Id>>): seq<Id> {
    if row.None? || row.value == [] then DEFAULT_ORDER else row.value
  }

  function Started(row: Option<seq<Id>>): System {
    System(row, Chain(Loaded(row), {}), [])
  }

  function Attach(s: System, id: Id): System {
    var known := id in s.chain.canonical;
    var canonical := if known then s.chain.canonical else InsertByDefault(s.chain.canonical, id);
    var chain := Chain(canonical, s.chain.attached + {id});
    System(if known then s.row else Some(canonical),
           chain,
           if known && id in s.chain.attached then s.notices
           else s.notices + [Broadcast(chain.Runtime())])
  }

  function Detach(s: System, id: Id): System {
    if id !in s.chain.attached then s
    else
      var chain := Chain(s.chain.canonical, s.chain.attached - {id});
      System(s.row, chain, s.notices + [Broadcast(chain.Runtime())])
  }

  function PutCheck(attached: set<Id>, order: seq<Id>): Option<PutError> {
    if |order| != |attached| then Some(WrongCount)
    else if attached != SetOf(order) then Some(WrongSet)
    else None
  }

  /** The chain after a PUT of `order`; a refused PUT changes nothing. */
  function Put(s: System, order: seq<Id>): System
    requires s.chain.Valid()
  {
    if PutCheck(s.chain.attached, order).Some? then s
    else
      AcceptedOrderFits(s.chain, order);
      var chain := Chain(Merge(s.chain.canonical, s.chain.attached, order), s.chain.attached);
      System(Some(chain.canonical), chain,
             s.notices + [OrderChanged(chain.Runtime()), Broadcast(chain.Runtime())])
  }

  // ---- What the parts mean -------------------------------------------------

  /** Attaching shows the plugin and leaves those already shown in place. */
  lemma AttachShows(s: System, id: Id)
    requires s.chain.Valid()
    ensures var before, after := s.chain.Runtime(), Attach(s, id).chain.Runtime();
            SetOf(after) == SetOf(before) + {id} && Filter(after, SetOf(before)) == before
  {
    var c, c' := s.chain, Attach(s, id).chain;
    AttachRemembers(s, id);
    ShownSet(c);
    ShownSet(c');
    FilterFilter(c'.canonical, SetOf(c.canonical), c.attached);
    FilterFilter(c'.canonical, c'.attached, c.attached);
    assert c'.attached * c.attached == SetOf(c.canonical) * c.attached == c.attached;
  }

  lemma AttachRemembers(s: System, id: Id)
    requires s.chain.Valid()
    ensures var c, c' := s.chain, Attach(s, id).chain;
            c'.Valid() && c'.attached == c.attached + {id} && Filter(c'.canonical, SetOf(c.canonical)) == c.canonical
  {
    if id in s.chain.canonical {
      FilterAll(s.chain.canonical, SetOf(s.chain.canonical));
    } else {
      InsertIsInsertion(s.chain.canonical, id);
    }
  }

  lemma ShownSet(c: Chain)
    requires c.Valid()
    ensures SetOf(c.Runtime()) == c.attached
  {
    FilterSet(c.canonical, c.attached);
    assert SetOf(c.canonical) * c.attached == c.attached;
  }

  /** Detaching takes the plugin out and leaves the others in place. */
  lemma DetachHides(s: System, id: Id)
    requires s.chain.Valid()
    ensures var before, after := s.chain.Runtime(), Detach(s, id).chain.Runtime();
            after == Filter(before, SetOf(before) - {id})
  {
    var c := s.chain;
    ShownSet(c);
    FilterFilter(c.canonical, c.attached, c.attached - {id});
    assert c.attached * (c.attached - {id}) == c.attached - {id};
    if id !in c.attached {
      assert c.attached - {id} == c.attached;
    }
  }

  /** Where a new id goes: one that is not a default plugin's goes last; the default plugin
      of place `d` goes before the first entry that is no default plugin or has a later
      place, so everything before it is a default plugin of place at most `d`. */
  lemma InsertPlace(canonical: seq<Id>, id: Id, d: nat)
    ensures id !in DEFAULT_ORDER ==> InsertByDefault(canonical, id) == canonical + [id]
    ensures d < |DEFAULT_ORDER| && id == DEFAULT_ORDER[d] ==>
              var p := InsertPosition(canonical, id);
              && InsertByDefault(canonical, id) == canonical[..p] + [id] + canonical[p..]
              && (forall k :: 0 <= k < p ==> canonical[k] in DEFAULT_ORDER[..d + 1])
              && (p < |canonical| ==> canonical[p] !in DEFAULT_ORDER[..d + 1])
  {
    if d < |DEFAULT_ORDER| && id == DEFAULT_ORDER[d] {
      DefaultOrderNoDup();
      var p := InsertPosition(canonical, id);
      forall k | 0 <= k < |canonical| ensures Stops(canonical[k], d) <==> canonical[k] !in DEFAULT_ORDER[..d + 1] {
        EarlierDefault(canonical[k], d);
      }
      assert forall k :: 0 <= k < p ==> !Stops(canonical[k], d);
    }
  }

  lemma EarlierDefault(id: Id, d: nat)
    requires d < |DEFAULT_ORDER| && NoDup(DEFAULT_ORDER)
    ensures id in DEFAULT_ORDER[..d + 1] <==> 0 <= DefaultIndex(id) <= d
  {
    if id in DEFAULT_ORDER[..d + 1] {
      var k :| 0 <= k <= d && DEFAULT_ORDER[..d + 1][k] == id;
      assert DEFAULT_ORDER[k] == id && id in DEFAULT_ORDER[0..];
    }
    if 0 <= DefaultIndex(id) <= d {
      assert DEFAULT_ORDER[..d + 1][DefaultIndex(id)] == id;
    }
  }

  /** The count test and the set test together leave no room for a duplicate, and
      there is exactly one new entry for every attached place in the list. */
  lemma AcceptedOrderFits(c: Chain, order: seq<Id>)
    requires c.Valid() && PutCheck(c.attached, order).None?
    ensures NoDup(order)
    ensures |order| == |c.Runtime()|
    ensures multiset(order) == multiset(c.Runtime())
  {
    NoDupCardinality(order);
    FilterNoDup(c.canonical, c.attached);
    FilterSet(c.canonical, c.attached);
    assert SetOf(c.canonical) * c.attached == c.attached;
    NoDupCardinality(c.Runtime());
    MultisetOfNoDup(order, c.Runtime());
  }

  /** The merged list, place by place. */
  lemma {:induction false} MergeAt(canonical: seq<Id>, attached: set<Id>, order: seq<Id>, i: nat)
    requires |order| == |Filter(canonical, attached)|
    requires i < |canonical|
    ensures |Merge(canonical, attached, order)| == |canonical|
    ensures canonical[i] in attached ==> |Filter(canonical[..i], attached)| < |order|
    ensures Merge(canonical, attached, order)[i] ==
            if canonical[i] in attached then order[|Filter(canonical[..i], attached)|] else canonical[i]
  {
    var n := |canonical| - 1;
    var last := canonical[n] in attached;
    var order' := if last then order[..|order| - 1] else order;
    if n == 0 {
      assert Merge(canonical[..n], attached, order') == [];
      assert canonical[..i] == [];
    } else {
      MergeAt(canonical[..n], attached, order', if i < n then i else 0);
      if i < n {
        assert canonical[..n][..i] == canonical[..i];
      }
    }
  }

  /** How many attached entries stand before place `i`. */
  function Before(canonical: seq<Id>, attached: set<Id>, i: nat): nat
    requires i <= |canonical|
  {
    |Filter(canonical[..i], attached)|
  }

  /** One step of merging in place: what place `i` holds, and what it becomes. */
  lemma MergeStep(canonical: seq<Id>, attached: set<Id>, order: seq<Id>, i: nat, now: seq<Id>)
    requires |order| == |Filter(canonical, attached)| && i < |canonical|
    requires |Merge(canonical, attached, order)| == |canonical|
    requires now == Merge(canonical, attached, order)[..i] + canonical[i..]
    ensures now[i] == canonical[i]
    ensures var m, j := Merge(canonical, attached, order), Before(canonical, attached, i);
            if canonical[i] in attached then
              && j < |order| && Before(canonical, attached, i + 1) == j + 1
              && now[i := order[j]] == m[..i + 1] + canonical[i + 1..]
            else
              && Before(canonical, attached, i + 1) == j
              && now == m[..i + 1] + canonical[i + 1..]
  {
    MergeAt(canonical, attached, order, i);
    FilterStep(canonical, attached, i);
    Splice(Merge(canonical, attached, order), canonical, i);
  }

  /** Seen through the attached set, the merged list is the requested order. */
  lemma {:induction false} MergeRuntime(canonical: seq<Id>, attached: set<Id>, order: seq<Id>)
    requires |order| == |Filter(canonical, attached)|
    requires forall x :: x in order ==> x in attached
    ensures Filter(Merge(canonical, attached, order), attached) == order
  {
    if canonical != [] {
      var n := |canonical| - 1;
      if canonical[n] in attached {
        var order' := order[..|order| - 1];
        MergeRuntime(canonical[..n], attached, order');
        assert order == order' + [order[|order| - 1]];
        assert Merge(canonical, attached, order)[..n] == Merge(canonical[..n], attached, order')
        by { MergeLength(canonical[..n], attached, order'); }
        MergeLength(canonical, attached, order);
      } else {
        MergeRuntime(canonical[..n], attached, order);
        MergeLength(canonical, attached, order);
        MergeLength(canonical[..n], attached, order);
        assert Merge(canonical, attached, order)[..n] == Merge(canonical[..n], attached, order);
      }
    }
  }

  lemma {:induction false} MergeLength(canonical: seq<Id>, attached: set<Id>, order: seq<Id>)
    requires |order| == |Filter(canonical, attached)|
    ensures |Merge(canonical, attached, order)| == |canonical|
  {
    if canonical != [] {
      MergeAt(canonical, attached, order, 0);
    }
  }

  /** Merging trades the old attached entries for the new ones. */
  lemma {:induction false} MergeEntries(canonical: seq<Id>, attached: set<Id>, order: seq<Id>, x: Id)
    requires |order| == |Filter(canonical, attached)|
    ensures multiset(Merge(canonical, attached, order))[x] + multiset(Filter(canonical, attached))[x]
            == multiset(canonical)[x] + multiset(order)[x]
  {
    if canonical != [] {
      var n := |canonical| - 1;
      var rest := canonical[..n];
      assert canonical == rest + [canonical[n]];
      if canonical[n] in attached {
        var order' := order[..|order| - 1];
        assert order == order' + [order[|order| - 1]];
        MergeEntries(rest, attached, order', x);
      } else {
        MergeEntries(rest, attached, order, x);
        assert Filter(canonical, attached) == Filter(rest, attached);
      }
    }
  }

  /** A successful PUT makes the runtime order exactly the given list, keeps every
      unattached id at its index and permutes the canonical list; a list with those
      properties is unique. A refused PUT changes nothing. */
  lemma PutMeaning(s: System, order: seq<Id>)
    requires s.chain.Valid()
    ensures PutCheck(s.chain.attached, order).None? <==>
            multiset(order) == multiset(s.chain.Runtime())
    ensures PutCheck(s.chain.attached, order).Some? ==> Put(s, order) == s
    ensures PutCheck(s.chain.attached, order).None? ==> Reordered(s.chain, Put(s, order).chain, order)
  {
    var c := s.chain;
    if PutCheck(c.attached, order).None? {
      AcceptedOrderFits(c, order);
      MergeReorders(c, order);
    } else if multiset(order) == multiset(c.Runtime()) {
      FilterNoDup(c.canonical, c.attached);
      FilterSet(c.canonical, c.attached);
      assert SetOf(c.canonical) * c.attached == c.attached;
      NoDupFromMultiset(c.Runtime(), order);
      NoDupCardinality(order);
      assert false;
    }
  }

  /** `after` shows `order`, and differs from `before` only where attached ids stood. */
  ghost predicate Reordered(before: Chain, after: Chain, order: seq<Id>) {
    && after.Valid()
    && after.attached == before.attached
    && after.Runtime() == order
    && multiset(after.canonical) == multiset(before.canonical)
    && |after.canonical| == |before.canonical|
    && forall i :: 0 <= i < |before.canonical| && before.canonical[i] !in before.attached ==>
         after.canonical[i] == before.canonical[i]
  }

  lemma MergeReorders(c: Chain, order: seq<Id>)
    requires c.Valid() && PutCheck(c.attached, order).None?
    requires |order| == |c.Runtime()| && multiset(order) == multiset(c.Runtime())
    ensures Reordered(c, Chain(Merge(c.canonical, c.attached, order), c.attached), order)
  {
    var m := Merge(c.canonical, c.attached, order);
    assert Filter(m, c.attached) == order by {
      assert forall x :: x in order ==> x in SetOf(order);
      MergeRuntime(c.canonical, c.attached, order);
    }
    assert multiset(m) == multiset(c.canonical) by {
      forall x ensures multiset(m)[x] == multiset(c.canonical)[x] {
        MergeEntries(c.canonical, c.attached, order, x);
      }
    }
    MergeLength(c.canonical, c.attached, order);
    forall i | 0 <= i < |c.canonical| && c.canonical[i] !in c.attached
      ensures m[i] == c.canonical[i]
    {
      MergeAt(c.canonical, c.attached, order, i);
    }
    NoDupFromMultiset(c.canonical, m);
  }

  /** Nothing else could have been meant by a reordering that leaves the unattached
      ids alone: the two requirements determine the list. */
  lemma {:induction false} MergeUnique(canonical: seq<Id>, attached: set<Id>, order: seq<Id>, other: seq<Id>)
    requires |order| == |Filter(canonical, attached)|
    requires |other| == |canonical|
    requires forall i :: 0 <= i < |canonical| ==>
      if canonical[i] in attached then other[i] in attached else other[i] == canonical[i]
    requires Filter(other, attached) == order
    ensures other == Merge(canonical, attached, order)
  {
    if canonical != [] {
      var n := |canonical| - 1;
      var order' := if canonical[n] in attached then order[..|order| - 1] else order;
      assert Filter(other[..n], attached) == order';
      MergeUnique(canonical[..n], attached, order', other[..n]);
      assert other == other[..n] + [other[n]];
    }
  }

  /** The slot index of an attached plugin, counted as the attached entries before
      it, is its index in the runtime order. */
  lemma SlotIsRuntimeIndex(c: Chain, i: nat)
    requires i < |c.canonical| && c.canonical[i] in c.attached
    ensures var slot := |Filter(c.canonical[..i], c.attached)|;
            slot < |c.Runtime()| && c.Runtime()[slot] == c.canonical[i]
  {
    FilterLength(c.canonical, c.attached, i);
  }

  // ---- Inserting a new id --------------------------------------------------

  /** Default ids in ascending default position, then only third-party ids. */
  ghost predicate Shaped(canonical: seq<Id>) {
    Ascending(Ranks(canonical))
  }

  lemma InsertKeepsShape(canonical: seq<Id>, id: Id)
    requires Shaped(canonical) && id !in canonical
    ensures Shaped(InsertByDefault(canonical, id))
  {
    var p, d := InsertPosition(canonical, id), DefaultIndex(id);
    var r := Ranks(canonical);
    forall k | 0 <= k < p && 0 <= d ensures 0 <= r[k] < d {
      assert !Stops(canonical[k], d);
      DefaultIndexInjective(canonical[k], id);
    }
    InsertKeepsAscending(r, d, p);
    RanksOfInsertion(canonical, id);
  }

  /** Hiding the unattached ids keeps the shape: the attached default plugins are shown in
      the default order, before the third-party ones. */
  lemma RuntimeShaped(c: Chain)
    requires Shaped(c.canonical)
    ensures Shaped(c.Runtime())
  {
    var shown, r := c.Runtime(), Ranks(c.Runtime());
    forall i, j | 0 <= i < j < |r| ensures r[j] < 0 || 0 <= r[i] < r[j] {
      var p, q := FilterOrder(c.canonical, c.attached, i, j);
      assert Ranks(c.canonical)[p] == DefaultIndex(shown[i]) && Ranks(c.canonical)[q] == DefaultIndex(shown[j]);
    }
  }

  function Ranks(canonical: seq<Id>): (r: seq<int>)
    ensures |r| == |canonical|
    ensures forall i :: 0 <= i < |r| ==> r[i] == DefaultIndex(canonical[i])
  {
    seq(|canonical|, i requires 0 <= i < |canonical| => DefaultIndex(canonical[i]))
  }

  lemma RanksOfInsertion(canonical: seq<Id>, id: Id)
    ensures var p, r := InsertPosition(canonical, id), Ranks(canonical);
            Ranks(InsertByDefault(canonical, id)) == r[..p] + [DefaultIndex(id)] + r[p..]
  {
    RanksAround(canonical[..InsertPosition(canonical, id)], id, canonical[InsertPosition(canonical, id)..]);
    assert canonical == canonical[..InsertPosition(canonical, id)] + canonical[InsertPosition(canonical, id)..];
    RanksJoin(canonical[..InsertPosition(canonical, id)], canonical[InsertPosition(canonical, id)..]);
  }

  lemma RanksJoin(a: seq<Id>, b: seq<Id>)
    ensures Ranks(a + b) == Ranks(a) + Ranks(b)
  {
  }

  lemma RanksAround(a: seq<Id>, id: Id, b: seq<Id>)
    ensures Ranks(a + [id] + b) == Ranks(a) + [DefaultIndex(id)] + Ranks(b)
  {
    RanksJoin(a + [id], b);
    RanksJoin(a, [id]);
  }

  ghost predicate Ascending(r: seq<int>) {
    forall i, j :: 0 <= i < j < |r| ==> r[j] < 0 || 0 <= r[i] < r[j]
  }

  lemma InsertKeepsAscending(r: seq<int>, d: int, p: nat)
    requires Ascending(r) && p <= |r|
    requires d < 0 ==> p == |r|
    requires 0 <= d ==> forall k :: 0 <= k < p ==> 0 <= r[k] < d
    requires p < |r| ==> r[p] < 0 || d < r[p]
    ensures Ascending(r[..p] + [d] + r[p..])
  {
  }

  lemma DefaultIndexInjective(a: Id, b: Id)
    ensures DefaultIndex(a) == DefaultIndex(b) >= 0 ==> a == b
  {
  }

  /** The seeded list has the shape, so it holds until the operator reorders. */
  lemma DefaultOrderShaped()
    ensures Shaped(DEFAULT_ORDER)
  {
    DefaultOrderNoDup();
    forall i | 0 <= i < |DEFAULT_ORDER| ensures DefaultIndex(DEFAULT_ORDER[i]) == i {
      var r := DefaultIndex(DEFAULT_ORDER[i]);
      assert DEFAULT_ORDER[i] in DEFAULT_ORDER[0..];
      assert DEFAULT_ORDER[r] == DEFAULT_ORDER[i];
    }
  }

  lemma InsertIsInsertion(canonical: seq<Id>, id: Id)
    requires NoDup(canonical) && id !in canonical
    ensures NoDup(InsertByDefault(canonical, id))
    ensures SetOf(InsertByDefault(canonical, id)) == SetOf(canonical) + {id}
    ensures Filter(InsertByDefault(canonical, id), SetOf(canonical)) == canonical
  {
    NoDupInsert(canonical, InsertPosition(canonical, id), id);
    InsertFilter(canonical, InsertPosition(canonical, id), id);
  }
}
