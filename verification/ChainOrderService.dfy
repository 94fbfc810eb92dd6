/** The chain-order service and its single-row store, updated in place. */
module ChainOrderServices {
  import opened Seqs
  import opened ChainOrder

  /** The stored collection; only the first row is ever read or updated. */
  class ChainOrderStore {
    var rows: seq<seq<Id>>

    constructor ()
      ensures rows == []
    {
      rows := [];
    }

    function Row(): Option<seq<Id>>
      reads this
    {
      if rows == [] then None else Some(rows[0])
    }

    method GetOrder() returns (order: Option<seq<Id>>)
      ensures order == Row()
    {
      if rows == [] {
        return None;
      }
      order := Some(rows[0]);
    }

    method SetOrder(pluginIds: seq<Id>)
      modifies this
      ensures Row() == Some(pluginIds)
      ensures rows == if old(rows) == [] then [pluginIds] else old(rows)[0 := pluginIds]
    {
      if rows == [] {
        rows := [pluginIds];
      } else {
        rows := rows[0 := pluginIds];
      }
    }
  }

  class ChainOrderService {
    const store: ChainOrderStore
    var canonical: seq<Id>
    var attached: set<Id>
    // What was raised and broadcast, oldest first.
    var notices: seq<Notice>

    /** The state as a value. */
    function Now(): System
      reads this, store
    {
      System(store.Row(), Chain(canonical, attached), notices)
    }

    ghost predicate Valid()
      reads this, store
    {
      Now().chain.Valid()
    }

    constructor (store: ChainOrderStore)
      requires NoDup(Loaded(store.Row()))  // the row is one this service wrote
      ensures this.store == store
      ensures Valid() && Now() == Started(store.Row())
    {
      this.store := store;
      attached := {};
      notices := [];
      new;
      var persisted := store.GetOrder();
      if persisted.None? || |persisted.value| == 0 {
        canonical := DEFAULT_ORDER;
      } else {
        canonical := persisted.value;
      }
    }

    method CurrentOrder() returns (result: seq<Id>)
      ensures result == Now().chain.Runtime()
    {
      result := [];
      for i := 0 to |canonical|
        invariant result == Filter(canonical[..i], attached)
      {
        assert canonical[..i + 1][..i] == canonical[..i];
        if canonical[i] in attached {
          result := result + [canonical[i]];
        }
      }
      assert canonical[..|canonical|] == canonical;
    }

    /** Marks the id attached, remembers a new one at its default place, and returns
        the index it has in the runtime order. */
    method OnPluginAttached(pluginId: Id) returns (slotIndex: nat)
      requires Valid()
      modifies this, store
      ensures Valid() && Now() == Attach(old(Now()), pluginId)
      ensures slotIndex < |Now().chain.Runtime()| && Now().chain.Runtime()[slotIndex] == pluginId
      ensures var before := old(Now().chain.Runtime());
              SetOf(Now().chain.Runtime()) == SetOf(before) + {pluginId} && Filter(Now().chain.Runtime(), SetOf(before)) == before
    {
      AttachShows(Now(), pluginId);
      var changed := pluginId !in attached;
      attached := attached + {pluginId};
      if pluginId !in canonical {
        InsertIsInsertion(canonical, pluginId);
        InsertByDefaultOrder(pluginId);
        store.SetOrder(canonical);
        changed := true;
      }
      if changed {
        var snapshot := CurrentOrder();
        slotIndex := SlotIndex(pluginId);
        notices := notices + [Broadcast(snapshot)];
      } else {
        slotIndex := SlotIndex(pluginId);
      }
    }

    method OnPluginDetached(pluginId: Id)
      requires Valid()
      modifies this
      ensures Valid() && Now() == Detach(old(Now()), pluginId)
    {
      if pluginId in attached {
        attached := attached - {pluginId};
        var snapshot := CurrentOrder();
        notices := notices + [Broadcast(snapshot)];
      }
    }

    /** Accepts a reordering of exactly the attached plugins and merges it back into
        the canonical list, place by place. */
    method TrySetOrder(newRuntimeOrder: seq<Id>) returns (error: Option<PutError>)
      requires Valid()
      modifies this, store
      ensures Valid() && Now() == Put(old(Now()), newRuntimeOrder)
      ensures error == PutCheck(old(attached), newRuntimeOrder)
    {
      if |newRuntimeOrder| != |attached| {
        return Some(WrongCount);
      }
      var proposed := SetOf(newRuntimeOrder);
      if attached != proposed {
        return Some(WrongSet);
      }
      AcceptedOrderFits(Now().chain, newRuntimeOrder);
      MergeReorders(Now().chain, newRuntimeOrder);
      MergeInPlace(newRuntimeOrder);
      store.SetOrder(canonical);
      var snapshot := CurrentOrder();
      notices := notices + [OrderChanged(snapshot), Broadcast(snapshot)];
      error := None;
    }

    method MergeInPlace(newRuntimeOrder: seq<Id>)
      requires |newRuntimeOrder| == |Filter(canonical, attached)|
      modifies this`canonical
      ensures canonical == Merge(old(canonical), attached, newRuntimeOrder)
    {
      ghost var c0, merged := canonical, Merge(canonical, attached, newRuntimeOrder);
      MergeLength(c0, attached, newRuntimeOrder);
      var j := 0;
      for i := 0 to |canonical|
        invariant |canonical| == |c0|
        invariant canonical == merged[..i] + c0[i..]
        invariant j == Before(c0, attached, i)
      {
        MergeStep(c0, attached, newRuntimeOrder, i, canonical);
        if canonical[i] in attached {
          canonical := canonical[i := newRuntimeOrder[j]];
          j := j + 1;
        }
      }
    }

    /** How many attached entries come before the id. */
    method SlotIndex(pluginId: Id) returns (idx: nat)
      ensures pluginId in attached && pluginId in canonical ==>
                idx < |Now().chain.Runtime()| && Now().chain.Runtime()[idx] == pluginId
      ensures pluginId !in canonical ==> idx == |Now().chain.Runtime()|
    {
      idx := 0;
      for i := 0 to |canonical|
        invariant idx == |Filter(canonical[..i], attached)|
        invariant pluginId !in canonical[..i]
      {
        if canonical[i] == pluginId {
          if pluginId in attached {
            SlotIsRuntimeIndex(Now().chain, i);
          }
          return;
        }
        assert canonical[..i + 1][..i] == canonical[..i];
        if canonical[i] in attached {
          idx := idx + 1;
        }
      }
      assert canonical[..|canonical|] == canonical;
    }

    method InsertByDefaultOrder(pluginId: Id)
      modifies this`canonical
      ensures canonical == InsertByDefault(old(canonical), pluginId)
    {
      var defaultIdx := IndexInDefaultOrder(pluginId);
      if defaultIdx < 0 {
        canonical := canonical + [pluginId];
        return;
      }
      for i := 0 to |canonical|
        invariant canonical == old(canonical)
        invariant FirstStop(canonical, defaultIdx, 0) == FirstStop(canonical, defaultIdx, i)
      {
        var existing := IndexInDefaultOrder(canonical[i]);
        if existing < 0 || existing > defaultIdx {
          canonical := canonical[..i] + [pluginId] + canonical[i..];
          return;
        }
      }
      canonical := canonical + [pluginId];
    }

    method IndexInDefaultOrder(pluginId: Id) returns (i: int)
      ensures i == DefaultIndex(pluginId)
    {
      for k := 0 to |DEFAULT_ORDER|
        invariant IndexIn(DEFAULT_ORDER, pluginId, 0) == IndexIn(DEFAULT_ORDER, pluginId, k)
      {
        if DEFAULT_ORDER[k] == pluginId {
          return k;
        }
      }
      i := -1;
    }
  }
}
