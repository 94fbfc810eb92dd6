/** Whole runs of the chain-order service: any sequence of attaches, detaches, PUTs
    and restarts from the stored row. */
module ChainOrderRuns {
  import opened Seqs
  import opened ChainOrder

  datatype Op = DoAttach(id: Id) | DoDetach(id: Id) | DoPut(order: seq<Id>) | Restart

  /** The order the clients were last sent; before the first broadcast they have
      the empty order. */
  function LastBroadcast(notices: seq<Notice>): seq<Id> {
    if notices == [] then []
    else if notices[|notices| - 1].Broadcast? then notices[|notices| - 1].order
    else LastBroadcast(notices[..|notices| - 1])
  }

  /** No id twice, every attached id remembered, the store always holding what a
      restart would need, and the clients always shown the current runtime order. */
  ghost predicate Inv(s: System) {
    && s.chain.Valid()
    && Loaded(s.row) == s.chain.canonical
    && LastBroadcast(s.notices) == s.chain.Runtime()
  }

  function Next(s: System, op: Op): System
    requires s.chain.Valid()
  {
    match op
    case DoAttach(id) => Attach(s, id)
    case DoDetach(id) => Detach(s, id)
    case DoPut(order) => Put(s, order)
    case Restart => Started(s.row)
  }

  lemma StartInv(row: Option<seq<Id>>)
    requires NoDup(Loaded(row))
    ensures Inv(Started(row))
  {
    NothingAttached(Loaded(row));
  }

  lemma {:induction false} NothingAttached(s: seq<Id>)
    ensures Filter(s, {}) == []
  {
    if s != [] {
      NothingAttached(s[..|s| - 1]);
    }
  }

  lemma BroadcastLast(notices: seq<Notice>, n: Notice, order: seq<Id>)
    ensures LastBroadcast(notices + [Broadcast(order)]) == order
    ensures LastBroadcast(notices + [n, Broadcast(order)]) == order
  {
  }

  lemma AttachInv(s: System, id: Id)
    requires Inv(s)
    ensures Inv(Attach(s, id))
  {
    var s' := Attach(s, id);
    BroadcastLast(s.notices, Broadcast([]), s'.chain.Runtime());
    if id !in s.chain.canonical {
      InsertIsInsertion(s.chain.canonical, id);
      assert s'.chain.canonical != [];
    } else if id in s.chain.attached {
      assert s.chain.attached + {id} == s.chain.attached;
    }
  }

  lemma DetachInv(s: System, id: Id)
    requires Inv(s)
    ensures Inv(Detach(s, id))
  {
    BroadcastLast(s.notices, Broadcast([]), Detach(s, id).chain.Runtime());
  }

  lemma PutInv(s: System, order: seq<Id>)
    requires Inv(s)
    ensures Inv(Put(s, order))
  {
    PutMeaning(s, order);
    var s' := Put(s, order);
    BroadcastLast(s.notices, OrderChanged(s'.chain.Runtime()), s'.chain.Runtime());
    assert |s.chain.canonical| == 0 ==> Loaded(s.row) != [];
  }

  lemma NextInv(s: System, op: Op)
    requires Inv(s)
    ensures Inv(Next(s, op))
  {
    match op
    case DoAttach(id) => AttachInv(s, id);
    case DoDetach(id) => DetachInv(s, id);
    case DoPut(order) => PutInv(s, order);
    case Restart => StartInv(s.row);
  }

  function Run(s: System, ops: seq<Op>): (r: System)
    requires Inv(s)
    ensures Inv(r)
    decreases |ops|
  {
    if ops == [] then s
    else
      NextInv(s, ops[0]);
      Run(Next(s, ops[0]), ops[1..])
  }

  /** From any row without duplicates, every run keeps the invariant, and shows exactly the
      plugins whose last attachment stands. */
  lemma EveryRun(row: Option<seq<Id>>, ops: seq<Op>)
    requires NoDup(Loaded(row))
    ensures Inv(Started(row))
    ensures var s := Run(Started(row), ops);
            && NoDup(s.chain.canonical)
            && s.chain.attached <= SetOf(s.chain.canonical)
            && Started(s.row).chain.canonical == s.chain.canonical
            && LastBroadcast(s.notices) == s.chain.Runtime()
            && forall id :: id in s.chain.Runtime() <==> EndsAttached(ops, id)
  {
    StartInv(row);
    forall id ensures id in Run(Started(row), ops).chain.Runtime() <==> EndsAttached(ops, id) {
      ShownIffAttached(row, ops, id);
    }
  }

  /** From place `from` on, nothing takes the plugin out: neither its detachment nor a
      restart. */
  ghost predicate Kept(ops: seq<Op>, id: Id, from: nat) {
    forall j :: from <= j < |ops| ==> ops[j] != DoDetach(id) && ops[j] != Restart
  }

  /** Some attachment of the plugin is not undone later. */
  ghost predicate EndsAttached(ops: seq<Op>, id: Id) {
    exists k :: 0 <= k < |ops| && ops[k] == DoAttach(id) && Kept(ops, id, k + 1)
  }

  lemma EndsAttachedTail(ops: seq<Op>, id: Id)
    requires ops != []
    ensures Kept(ops, id, 1) <==> Kept(ops[1..], id, 0)
    ensures EndsAttached(ops, id) <==> EndsAttached(ops[1..], id) || (ops[0] == DoAttach(id) && Kept(ops[1..], id, 0))
  {
    var rest := ops[1..];
    assert forall j :: 1 <= j < |ops| ==> ops[j] == rest[j - 1];
    if EndsAttached(ops, id) {
      var k :| 0 <= k < |ops| && ops[k] == DoAttach(id) && Kept(ops, id, k + 1);
      if k > 0 {
        assert rest[k - 1] == DoAttach(id) && Kept(rest, id, k);
      }
    }
    if EndsAttached(rest, id) {
      var k :| 0 <= k < |rest| && rest[k] == DoAttach(id) && Kept(rest, id, k + 1);
      assert ops[k + 1] == DoAttach(id) && Kept(ops, id, k + 2);
    }
  }

  lemma {:induction false} RunAttached(s: System, ops: seq<Op>, id: Id)
    requires Inv(s)
    ensures id in Run(s, ops).chain.attached <==> EndsAttached(ops, id) || (id in s.chain.attached && Kept(ops, id, 0))
    decreases |ops|
  {
    if ops != [] {
      NextInv(s, ops[0]);
      RunAttached(Next(s, ops[0]), ops[1..], id);
      EndsAttachedTail(ops, id);
      assert Kept(ops, id, 0) <==> Kept(ops, id, 1) && ops[0] != DoDetach(id) && ops[0] != Restart;
    }
  }

  /** Which plugins a run leaves shown, from the requests alone: exactly those with an
      attachment that no later detachment of theirs and no restart undoes. */
  lemma ShownIffAttached(row: Option<seq<Id>>, ops: seq<Op>, id: Id)
    requires NoDup(Loaded(row))
    ensures Inv(Started(row))
    ensures id in Run(Started(row), ops).chain.Runtime() <==> EndsAttached(ops, id)
  {
    StartInv(row);
    RunAttached(Started(row), ops, id);
    var c := Run(Started(row), ops).chain;
    FilterMember(c.canonical, c.attached, id);
    assert id in c.attached ==> id in SetOf(c.canonical);
  }

  // ---- Two requests at once ------------------------------------------------

  /** The request changes what clients are shown, or at least tells them again: a new
      attachment, the detachment of an attached plugin, an accepted order. */
  predicate Announces(s: System, op: Op) {
    match op
    case DoAttach(id) => id !in s.chain.attached
    case DoDetach(id) => id in s.chain.attached
    case DoPut(order) => PutCheck(s.chain.attached, order).None?
    case Restart => false
  }

  /** What the request raised and broadcast. */
  function News(s: System, op: Op): seq<Notice>
    requires s.chain.Valid() && !op.Restart?
  {
    if |s.notices| <= |Next(s, op).notices| then Next(s, op).notices[|s.notices|..] else []
  }

  lemma NewsMeaning(s: System, op: Op)
    requires Inv(s) && !op.Restart?
    ensures Inv(Next(s, op)) && Next(s, op).notices == s.notices + News(s, op)
    ensures News(s, op) == (if !Announces(s, op) then []
                            else if op.DoPut? then [OrderChanged(Next(s, op).chain.Runtime()), Broadcast(Next(s, op).chain.Runtime())]
                            else [Broadcast(Next(s, op).chain.Runtime())])
    ensures !Announces(s, op) ==> Next(s, op).chain.Runtime() == s.chain.Runtime()
  {
    NextInv(s, op);
    if op.DoAttach? && !Announces(s, op) {
      assert op.id in SetOf(s.chain.canonical);
      assert s.chain.attached + {op.id} == s.chain.attached;
    }
  }

  /** Orders leave after the lock is released: two requests that changed the chain one
      after the other, with what the second sent overtaking what the first sent. */
  function Crossed(s: System, first: Op, second: Op): System
    requires s.chain.Valid() && Next(s, first).chain.Valid() && !first.Restart? && !second.Restart?
  {
    Next(Next(s, first), second).(notices := s.notices + News(Next(s, first), second) + News(s, first))
  }

  /** Whether an announced request shows something else than before: always, except for
      a PUT of the order already shown. */
  lemma AnnouncedChanges(s: System, op: Op)
    requires Inv(s) && Announces(s, op)
    ensures Inv(Next(s, op))
    ensures Next(s, op).chain.Runtime() != s.chain.Runtime() <==> !(op.DoPut? && op.order == s.chain.Runtime())
  {
    NextInv(s, op);
    var c, c' := s.chain, Next(s, op).chain;
    match op
    case DoPut(order) => PutMeaning(s, order);
    case DoAttach(id) =>
      FilterMember(c.canonical, c.attached, id);
      FilterMember(c'.canonical, c'.attached, id);
      assert id in SetOf(c'.canonical);
    case DoDetach(id) =>
      FilterMember(c.canonical, c.attached, id);
      FilterMember(c'.canonical, c'.attached, id);
      assert id in SetOf(c.canonical);
  }

  lemma LastOfNews(notices: seq<Notice>, order: seq<Id>)
    ensures LastBroadcast(notices + [Broadcast(order)]) == order
    ensures LastBroadcast(notices + [OrderChanged(order), Broadcast(order)]) == order
  {
  }

  /** Clients are then left with an order that is not the current one exactly when both
      requests announced something and the second was not a PUT of the order the first
      had left: the first a detachment of an attached plugin and the second a new
      attachment, say, or an accepted PUT and then a detachment of an attached plugin. */
  lemma CrossedBroadcasts(s: System, first: Op, second: Op)
    requires Inv(s) && !first.Restart? && !second.Restart?
    ensures Inv(Next(s, first))
    ensures var z, middle := Crossed(s, first, second), Next(s, first);
            LastBroadcast(z.notices) != z.chain.Runtime() <==>
              && Announces(s, first) && Announces(middle, second)
              && !(second.DoPut? && second.order == middle.chain.Runtime())
  {
    var middle := Next(s, first);
    NewsMeaning(s, first);
    NewsMeaning(middle, second);
    var last := Next(middle, second).chain.Runtime();
    LastOfNews(s.notices, last);
    LastOfNews(s.notices + News(middle, second), middle.chain.Runtime());
    assert s.notices + [] == s.notices && s.notices + News(middle, second) + [] == s.notices + News(middle, second);
    if Announces(middle, second) {
      AnnouncedChanges(middle, second);
    }
  }

  /** The bridge attaches under its own lock but detaches after releasing it, so an
      attached plugin leaving while another arrives can leave the new one invisible. */
  lemma CrossedDetach(s: System, leaving: Id, arriving: Id)
    requires Inv(s) && leaving in s.chain.attached && arriving !in s.chain.attached
    ensures Inv(Detach(s, leaving))
    ensures var z := Crossed(s, DoDetach(leaving), DoAttach(arriving));
            arriving in z.chain.Runtime() && arriving !in LastBroadcast(z.notices)
  {
    var a, b := Detach(s, leaving), Attach(Detach(s, leaving), arriving);
    NewsMeaning(s, DoDetach(leaving));
    NewsMeaning(a, DoAttach(arriving));
    LastOfNews(s.notices + News(a, DoAttach(arriving)), a.chain.Runtime());
    FilterMember(a.chain.canonical, a.chain.attached, arriving);
    FilterMember(b.chain.canonical, b.chain.attached, arriving);
    assert arriving in SetOf(b.chain.canonical);
  }

  /** An accepted PUT overtaken by a detachment: exactly when there was something to
      detach. */
  lemma CrossedPutDetach(s: System, order: seq<Id>, leaving: Id)
    requires Inv(s) && PutCheck(s.chain.attached, order).None?
    ensures Inv(Put(s, order))
    ensures var z := Crossed(s, DoPut(order), DoDetach(leaving));
            LastBroadcast(z.notices) != z.chain.Runtime() <==> leaving in s.chain.attached
  {
    CrossedBroadcasts(s, DoPut(order), DoDetach(leaving));
  }

  // ---- Position memory -----------------------------------------------------

  ghost predicate PutFree(ops: seq<Op>) {
    forall i :: 0 <= i < |ops| ==> !ops[i].DoPut?
  }

  /** The old list is still there, in the same relative order. */
  ghost predicate Remembers(before: seq<Id>, after: seq<Id>) {
    SetOf(before) <= SetOf(after) && Filter(after, SetOf(before)) == before
  }

  lemma RemembersTransitive(a: seq<Id>, b: seq<Id>, c: seq<Id>)
    requires Remembers(a, b) && Remembers(b, c)
    ensures Remembers(a, c)
  {
    FilterFilter(c, SetOf(b), SetOf(a));
    assert SetOf(b) * SetOf(a) == SetOf(a);
  }

  lemma NextRemembers(s: System, op: Op)
    requires Inv(s) && !op.DoPut?
    ensures Remembers(s.chain.canonical, Next(s, op).chain.canonical)
  {
    FilterAll(s.chain.canonical, SetOf(s.chain.canonical));
    if op.DoAttach? && op.id !in s.chain.canonical {
      InsertIsInsertion(s.chain.canonical, op.id);
    }
  }

  /** Whatever is attached, detached or restarted in between, ids keep the relative
      order the operator last gave them. */
  lemma {:induction false} RunRemembers(s: System, ops: seq<Op>)
    requires Inv(s) && PutFree(ops)
    ensures Remembers(s.chain.canonical, Run(s, ops).chain.canonical)
    decreases |ops|
  {
    if ops == [] {
      FilterAll(s.chain.canonical, SetOf(s.chain.canonical));
    } else {
      NextInv(s, ops[0]);
      NextRemembers(s, ops[0]);
      RunRemembers(Next(s, ops[0]), ops[1..]);
      RemembersTransitive(s.chain.canonical, Next(s, ops[0]).chain.canonical, Run(s, ops).chain.canonical);
    }
  }

  /** The same plugins attached again give the same runtime order. */
  lemma SamePluginsSameOrder(s: System, ops: seq<Op>)
    requires Inv(s) && PutFree(ops)
    requires Run(s, ops).chain.attached == s.chain.attached
    ensures Run(s, ops).chain.Runtime() == s.chain.Runtime()
  {
    var c, c' := s.chain, Run(s, ops).chain;
    RunRemembers(s, ops);
    FilterFilter(c'.canonical, SetOf(c.canonical), c.attached);
    assert SetOf(c.canonical) * c.attached == c.attached;
  }

  /** An accepted drag-and-drop order comes back whenever exactly those plugins are
      attached again, across any number of restarts. */
  lemma AcceptedOrderComesBack(s: System, order: seq<Id>, ops: seq<Op>)
    requires Inv(s) && PutCheck(s.chain.attached, order).None? && PutFree(ops)
    ensures Inv(Put(s, order))
    ensures var later := Run(Put(s, order), ops).chain;
            later.attached == SetOf(order) ==> later.Runtime() == order
  {
    PutInv(s, order);
    PutMeaning(s, order);
    if Run(Put(s, order), ops).chain.attached == SetOf(order) {
      SamePluginsSameOrder(Put(s, order), ops);
    }
  }

  /** Detaching a plugin and attaching it again restores both lists exactly. */
  lemma DetachThenAttach(s: System, id: Id)
    requires Inv(s) && id in s.chain.attached
    ensures Attach(Detach(s, id), id).chain == s.chain
    ensures Attach(Detach(s, id), id).row == s.row
  {
    assert id in SetOf(s.chain.canonical);
    assert s.chain.attached - {id} + {id} == s.chain.attached;
  }

  lemma NextKeepsShape(s: System, op: Op)
    requires Inv(s) && !op.DoPut? && Shaped(s.chain.canonical)
    ensures Shaped(Next(s, op).chain.canonical)
  {
    if op.DoAttach? && op.id !in s.chain.canonical {
      InsertKeepsShape(s.chain.canonical, op.id);
    }
  }

  /** Until the operator reorders, the list keeps the shape of the default order
      followed by third-party ids. */
  lemma {:induction false} RunKeepsShape(s: System, ops: seq<Op>)
    requires Inv(s) && PutFree(ops) && Shaped(s.chain.canonical)
    ensures Shaped(Run(s, ops).chain.canonical)
    decreases |ops|
  {
    if ops != [] {
      NextInv(s, ops[0]);
      NextKeepsShape(s, ops[0]);
      RunKeepsShape(Next(s, ops[0]), ops[1..]);
    }
  }

  /** Starting from nothing, attaching plugins in any order shows the attached default
      ones in the default order, then the others. */
  lemma FirstRunShape(ops: seq<Op>)
    requires PutFree(ops)
    ensures NoDup(Loaded(None)) && Inv(Started(None))
    ensures Shaped(Run(Started(None), ops).chain.canonical) && Shaped(Run(Started(None), ops).chain.Runtime())
  {
    DefaultOrderNoDup();
    StartInv(None);
    DefaultOrderShaped();
    RunKeepsShape(Started(None), ops);
    RuntimeShaped(Run(Started(None), ops).chain);
  }
}
