/** The audio chain's slots and the bridge that fills them, updated in place. */
module AudioPluginBridges {
  import opened Seqs
  import opened ChainOrder
  import opened ChainOrderServices
  import opened PluginSlots
  import Runs = ChainOrderRuns

  /** Eight slots; setting or clearing one also ends its bypass. */
  class AudioChain {
    const slots: array<Slot>

    ghost predicate Valid() {
      slots.Length == SLOT_COUNT
    }

    constructor ()
      ensures Valid() && fresh(slots) && slots[..] == seq(SLOT_COUNT, i => EMPTY)
    {
      slots := new Slot[SLOT_COUNT](i => EMPTY);
    }

    method SetSlot(index: nat, plugin: Plugin)
      requires index < slots.Length
      modifies slots
      ensures slots[..] == old(slots[..])[index := Slot(Some(plugin), false)]
    {
      slots[index] := Slot(Some(plugin), false);
    }

    method ClearSlot(index: nat)
      requires index < slots.Length
      modifies slots
      ensures slots[..] == old(slots[..])[index := EMPTY]
    {
      slots[index] := EMPTY;
    }

    method SetSlotBypass(index: nat, bypassed: bool)
      requires index < slots.Length
      modifies slots
      ensures slots[..] == old(slots[..])[index := old(slots[index]).(bypassed := bypassed)]
    {
      slots[index] := slots[index].(bypassed := bypassed);
    }

    method FindFreeSlot() returns (slot: int)
      ensures slot == FirstFree(slots[..], 0)
    {
      for i := 0 to slots.Length
        invariant FirstFree(slots[..], 0) == FirstFree(slots[..], i)
      {
        if slots[i].plugin.None? {
          return i;
        }
      }
      slot := -1;
    }

    method ClearAll()
      requires Valid()
      modifies slots
      ensures slots[..] == Laid([], map[])
    {
      for i := 0 to slots.Length
        invariant forall k :: 0 <= k < i ==> slots[k] == EMPTY
      {
        ClearSlot(i);
      }
    }
  }

  /** The activation of a bridge that has no chain-order service. */
  method ActivateUnordered(chain: AudioChain, b: Bridge, id: Id, plugin: Plugin) returns (after: Bridge)
    requires b.slots == chain.slots[..]
    modifies chain.slots
    ensures after == ActivatedUnordered(b, id, plugin) && after.slots == chain.slots[..]
  {
    var slot := chain.FindFreeSlot();
    if slot < 0 {
      return b;
    }
    chain.SetSlot(slot, plugin);
    after := Bridge(chain.slots[..], b.idToSlot[id := slot], b.idToPlugin[id := plugin]);
  }

  lemma LaidSnoc(placed: seq<Id>, id: Id, plugins: map<Id, Plugin>)
    requires |placed| < SLOT_COUNT && id in plugins
    ensures Laid(placed + [id], plugins) == Laid(placed, plugins)[|placed| := Slot(Some(plugins[id]), false)]
  {
  }

  lemma PositionsSnoc(placed: seq<Id>, id: Id)
    ensures Positions(placed + [id]) == Positions(placed)[id := |placed|]
  {
    assert (placed + [id])[..|placed|] == placed;
  }

  /** Once the slots are full, the rest of the order no longer matters. */
  lemma TakeGrown(a: seq<Id>, b: seq<Id>)
    ensures SLOT_COUNT <= |a| ==> Take(a + b, SLOT_COUNT) == Take(a, SLOT_COUNT)
    ensures Take(Take(a, SLOT_COUNT) + b, SLOT_COUNT) == Take(a + b, SLOT_COUNT)
  {
  }

  lemma AppendStep(first: seq<Id>, orphans: seq<Id>, k: nat)
    requires k < |orphans|
    ensures var t, t' := Take(first + orphans[..k], SLOT_COUNT), Take(first + orphans[..k + 1], SLOT_COUNT);
            t' == if |t| < SLOT_COUNT then t + [orphans[k]] else t
  {
    assert first + orphans[..k + 1] == (first + orphans[..k]) + [orphans[k]];
    TakeGrown(first + orphans[..k], [orphans[k]]);
  }

  lemma FilterPrefix(s: seq<Id>, keep: set<Id>, i: nat)
    requires i <= |s| && (i == |s| || SLOT_COUNT <= |Filter(s[..i], keep)|)
    ensures Take(Filter(s, keep), SLOT_COUNT) == Take(Filter(s[..i], keep), SLOT_COUNT)
  {
    assert s == s[..i] + s[i..];
    FilterConcat(s[..i], s[i..], keep);
    TakeGrown(Filter(s[..i], keep), Filter(s[i..], keep));
  }

  /** The least of the ids in ordinal order. */
  method LeastOf(ids: set<Id>) returns (m: Id)
    requires ids != {}
    ensures LeastIn(m, ids)
  {
    m :| m in ids;
    var rest := ids - {m};
    while rest != {}
      invariant rest <= ids && m in ids
      invariant forall x :: x in ids - rest ==> x == m || OrdinalLess(m, x)
      decreases |rest|
    {
      var y :| y in rest;
      OrdinalTotal(y, m);
      if OrdinalLess(y, m) {
        forall x | x in ids - rest && x != m ensures OrdinalLess(y, x) {
          OrdinalTransitive(y, m, x);
        }
        m := y;
      }
      rest := rest - {y};
    }
  }

  method OrderByKey(ids: set<Id>) returns (r: seq<Id>)
    ensures r == Ordinal(ids)
    decreases |ids|
  {
    if ids == {} {
      return [];
    }
    var m := LeastOf(ids);
    var rest := OrderByKey(ids - {m});
    OrdinalHead(m, ids);
    r := [m] + rest;
  }

  lemma OrdinalHead(m: Id, ids: set<Id>)
    requires LeastIn(m, ids)
    ensures Ordinal(ids) == [m] + Ordinal(ids - {m})
  {
    LeastFirst(m, ids, Ordinal(ids - {m}));
    OrderedIsUnique(Ordinal(ids), [m] + Ordinal(ids - {m}));
  }

  class AudioPluginBridge {
    const service: ChainOrderService
    const chain: AudioChain
    var idToSlot: map<Id, nat>
    var idToPlugin: map<Id, Plugin>
    // The order last shown, the ids whose initialisation threw since then, and the calls
    // that are initialising a plugin outside the lock, with what they captured.
    ghost var shown: seq<Id>
    ghost var failed: set<Id>
    ghost var pending: seq<Pending>

    ghost function Tables(): Bridge
      reads this, chain.slots
    {
      Bridge(chain.slots[..], idToSlot, idToPlugin)
    }

    ghost function Now(): Host
      reads this, chain.slots, service, service.store
    {
      Host(service.Now(), Tables(), shown, failed, pending)
    }

    ghost predicate Valid()
      reads this, chain.slots, service, service.store
    {
      chain.Valid() && Inv(Now())
    }

    /** What the methods need and always keep, also after a failure out of place. */
    ghost predicate Ready()
      reads this, chain.slots, service, service.store
    {
      chain.Valid() && Usable(Now()) && forall id :: id in idToSlot ==> idToSlot[id] < SLOT_COUNT
    }

    constructor (service: ChainOrderService)
      requires Runs.Inv(service.Now())
      ensures this.service == service && fresh(chain) && fresh(chain.slots)
      ensures Valid() && Ready() && Now() == PluginSlots.Started(service.Now())
    {
      this.service := service;
      chain := new AudioChain();
      idToSlot, idToPlugin := map[], map[];
      shown, failed, pending := [], {}, [];
      new;
      StartedInv(service.Now());
    }

    /** Wipes every slot and fills them again: plugins in the service's order, then
        orphans by id. */
    method ReapplySlots()
      requires chain.Valid()
      modifies this`idToSlot, this`shown, this`failed, chain.slots
      ensures Now() == Reslotted(old(Now()), idToPlugin)
    {
      var canonical := service.CurrentOrder();
      shown, failed := canonical, {};
      chain.ClearAll();
      idToSlot := map[];
      var slotIndex := SlotInOrder(canonical);
      AppendOrphans(canonical, slotIndex);
    }

    /** `placed` is what the slots hold, from the first one on. */
    ghost predicate Placed(placed: seq<Id>)
      reads this, chain.slots
    {
      && |placed| <= SLOT_COUNT
      && chain.slots[..] == Laid(placed, idToPlugin)
      && idToSlot == Positions(placed)
    }

    method Place(slotIndex: nat, id: Id, ghost placed: seq<Id>)
      requires chain.Valid() && slotIndex < SLOT_COUNT && id in idToPlugin
      requires Placed(placed) && slotIndex == |placed|
      modifies this`idToSlot, chain.slots
      ensures Placed(placed + [id])
    {
      chain.SetSlot(slotIndex, idToPlugin[id]);
      idToSlot := idToSlot[id := slotIndex];
      LaidSnoc(placed, id, idToPlugin);
      PositionsSnoc(placed, id);
    }

    method SlotInOrder(canonical: seq<Id>) returns (slotIndex: nat)
      requires chain.Valid() && chain.slots[..] == Laid([], map[]) && idToSlot == map[]
      modifies this`idToSlot, chain.slots
      ensures Placed(Take(Filter(canonical, idToPlugin.Keys), SLOT_COUNT))
      ensures slotIndex == |Take(Filter(canonical, idToPlugin.Keys), SLOT_COUNT)|
    {
      slotIndex := 0;
      var i := 0;
      while i < |canonical| && slotIndex < SLOT_COUNT
        invariant i <= |canonical| && slotIndex == |Filter(canonical[..i], idToPlugin.Keys)| <= SLOT_COUNT
        invariant Placed(Filter(canonical[..i], idToPlugin.Keys))
      {
        var id := canonical[i];
        FilterStep(canonical, idToPlugin.Keys, i);
        if id in idToPlugin {
          Place(slotIndex, id, Filter(canonical[..i], idToPlugin.Keys));
          slotIndex := slotIndex + 1;
        }
        i := i + 1;
      }
      FilterPrefix(canonical, idToPlugin.Keys, i);
    }

    method AppendOrphans(canonical: seq<Id>, start: nat)
      requires chain.Valid()
      requires Placed(Take(Filter(canonical, idToPlugin.Keys), SLOT_COUNT))
      requires start == |Take(Filter(canonical, idToPlugin.Keys), SLOT_COUNT)|
      modifies this`idToSlot, chain.slots
      ensures Placed(Target(idToPlugin.Keys, canonical))
    {
      ghost var first := Filter(canonical, idToPlugin.Keys);
      ghost var placed := Take(first, SLOT_COUNT);
      var slotIndex := start;
      var orphans := OrderByKey(idToPlugin.Keys - SetOf(canonical));
      assert first + orphans[..0] == first;
      for k := 0 to |orphans|
        invariant placed == Take(first + orphans[..k], SLOT_COUNT)
        invariant Placed(placed) && slotIndex == |placed|
      {
        assert orphans[k] in SetOf(orphans);
        AppendStep(first, orphans, k);
        if slotIndex < SLOT_COUNT {
          Place(slotIndex, orphans[k], placed);
          placed := placed + [orphans[k]];
          slotIndex := slotIndex + 1;
        }
      }
      assert orphans[..|orphans|] == orphans;
    }

    /** Attaches the plugin and re-slots the chain; a plugin that finds no slot is
        forgotten again. The slot of any other is what its initialisation holds on to. */
    method OnPluginActivated(id: Id, plugin: Plugin) returns (slot: Option<nat>)
      requires Ready()
      modifies this, chain.slots, service, service.store
      ensures Ready() && Follows(Now()) && Now() == Activated(old(Now()), id, plugin)
      ensures slot.Some? ==> Now().pending == old(Now()).pending + [Pending(id, slot.value)]
    {
      ActivatedFollows(Now(), id, plugin);
      var _ := service.OnPluginAttached(id);
      slot := SlotIn(id, plugin);
    }

    method SlotIn(id: Id, plugin: Plugin) returns (slot: Option<nat>)
      requires chain.Valid()
      modifies this, chain.slots
      ensures Now() == SlottedIn(old(Now()), id, plugin)
      ensures slot.Some? ==> Now().pending == old(Now()).pending + [Pending(id, slot.value)]
    {
      idToPlugin := idToPlugin[id := plugin];
      ReapplySlots();
      if id !in idToSlot {
        idToPlugin := idToPlugin - {id};
        return None;
      }
      pending := pending + [Pending(id, idToSlot[id])];
      slot := Some(idToSlot[id]);
    }

    /** The initialisation under way at `k` ends. A failure clears the captured slot and
        the id's entry, whatever has happened to either since. */
    method OnInitialised(ghost k: nat, id: Id, slot: nat, initialises: bool)
      requires Ready() && k < |pending| && pending[k] == Pending(id, slot)
      modifies this`idToSlot, this`failed, this`pending, chain.slots
      ensures Ready() && Now() == Ended(old(Now()), k, initialises)
      ensures old(Inv(Now())) ==> (Owned(Tables()) <==> initialises || InPlace(old(Tables()), Pending(id, slot)))
    {
      if Inv(Now()) {
        MatchesIsOwned(Tables(), ShownTarget(Now()), failed);
        FailureKeepsInverseIff(Tables(), pending[k]);
      }
      pending := pending[..k] + pending[k + 1..];
      if !initialises {
        chain.ClearSlot(slot);
        idToSlot := idToSlot - {id};
        failed := failed + {id};
      }
    }

    /** A plugin without a slot is ignored. */
    method OnPluginDeactivated(id: Id)
      requires Ready()
      modifies this, chain.slots, service
      ensures Ready() && Now() == Deactivated(old(Now()), id)
      ensures id in old(idToSlot) ==> Follows(Now())
    {
      if id !in idToSlot {
        return;
      }
      DeactivatedFollows(Now(), id);
      Unslot(id);
      service.OnPluginDetached(id);
    }

    method Unslot(id: Id)
      requires Ready() && id in idToSlot
      modifies this, chain.slots
      ensures Now() == Unslotted(old(Now()), id)
    {
      var slot := idToSlot[id];
      idToSlot := idToSlot - {id};
      idToPlugin := idToPlugin - {id};
      chain.ClearSlot(slot);
      ReapplySlots();
    }

    /** An accepted reordering raises the event that re-slots the chain. */
    method TrySetOrder(order: seq<Id>) returns (error: Option<PutError>)
      requires Ready()
      modifies this, chain.slots, service, service.store
      ensures Ready() && Now() == Rearranged(old(Now()), order)
      ensures error == PutCheck(old(service.attached), order)
      ensures error.None? ==> Follows(Now())
    {
      ghost var h, s := Now(), Put(service.Now(), order);
      RearrangedFollows(h, order);
      error := service.TrySetOrder(order);
      assert Now() == h.(service := s);
      if error.None? {
        ApplyChainOrder();
      }
    }

    method ApplyChainOrder()
      requires chain.Valid()
      modifies this`idToSlot, this`shown, this`failed, chain.slots
      ensures Now() == Reslotted(old(Now()), idToPlugin)
    {
      ReapplySlots();
    }
  }
}
