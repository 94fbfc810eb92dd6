/** The audio plugin bridge as values: eight slots, filled in the order the chain-order
    service dictates, and the bridge's two tables over the same plugins. */
module PluginSlots {
  import opened Seqs
  import opened ChainOrder
  import Runs = ChainOrderRuns

  /** A plugin object, known by its identity. */
  datatype Plugin = Plugin(instance: nat)

  datatype Slot = Slot(plugin: Option<Plugin>, bypassed: bool)

  const EMPTY: Slot := Slot(None, false)
  const SLOT_COUNT: nat := 8

  datatype Bridge = Bridge(slots: seq<Slot>, idToSlot: map<Id, nat>, idToPlugin: map<Id, Plugin>)

  // ---- Ordinal order -------------------------------------------------------

  predicate OrdinalLess(a: Id, b: Id) {
    b != [] && (a == [] || a[0] < b[0] || (a[0] == b[0] && OrdinalLess(a[1..], b[1..])))
  }

  /** `k` is the first place where the two differ, and `a` has the lower character there. */
  predicate LowerAt(a: Id, b: Id, k: nat) {
    k < |a| && k < |b| && a[..k] == b[..k] && a[k] < b[k]
  }

  /** One id is less than another when it is a proper beginning of it, or has the lower
      character at the first place where they differ. */
  lemma {:induction false} OrdinalMeaning(a: Id, b: Id)
    ensures OrdinalLess(a, b) <==> a < b || exists k: nat :: LowerAt(a, b, k)
  {
    if a == [] || b == [] {
    } else if a[0] == b[0] {
      OrdinalMeaning(a[1..], b[1..]);
      SameHead(a, b);
    } else if a[0] < b[0] {
      assert LowerAt(a, b, 0);
    } else {
      forall k: nat ensures !LowerAt(a, b, k) {
        assert 0 < k < |a| && k < |b| ==> a[..k][0] != b[..k][0];
      }
    }
  }

  lemma SameHead(a: Id, b: Id)
    requires a != [] && b != [] && a[0] == b[0]
    ensures a < b <==> a[1..] < b[1..]
    ensures (exists k: nat :: LowerAt(a, b, k)) <==> exists k: nat :: LowerAt(a[1..], b[1..], k)
  {
    assert a == [a[0]] + a[1..] && b == [b[0]] + b[1..];
    if k: nat :| LowerAt(a, b, k) {
      assert k > 0 && a[1..][..k - 1] == a[..k][1..] && b[1..][..k - 1] == b[..k][1..];
      assert LowerAt(a[1..], b[1..], k - 1);
    }
    if k: nat :| LowerAt(a[1..], b[1..], k) {
      assert a[..k + 1] == [a[0]] + a[1..][..k] && b[..k + 1] == [b[0]] + b[1..][..k];
      assert LowerAt(a, b, k + 1);
    }
  }

  lemma {:induction false} OrdinalTotal(a: Id, b: Id)
    ensures a == b || OrdinalLess(a, b) || OrdinalLess(b, a)
    ensures !(OrdinalLess(a, b) && OrdinalLess(b, a)) && (a == b ==> !OrdinalLess(a, b))
  {
    if a != [] && b != [] {
      OrdinalTotal(a[1..], b[1..]);
      assert a == [a[0]] + a[1..] && b == [b[0]] + b[1..];
    }
  }

  lemma {:induction false} OrdinalTransitive(a: Id, b: Id, c: Id)
    requires OrdinalLess(a, b) && OrdinalLess(b, c)
    ensures OrdinalLess(a, c)
  {
    if a != [] && a[0] == b[0] == c[0] {
      OrdinalTransitive(a[1..], b[1..], c[1..]);
    }
  }

  ghost predicate Ordered(s: seq<Id>) {
    forall i, j :: 0 <= i < j < |s| ==> OrdinalLess(s[i], s[j])
  }

  lemma NonEmptySet<T>(s: seq<T>)
    requires s != []
    ensures SetOf(s) != {}
  {
    assert s[0] in SetOf(s);
  }

  /** There is only one way to list a set in ordinal order. */
  lemma {:induction false} OrderedIsUnique(a: seq<Id>, b: seq<Id>)
    requires Ordered(a) && Ordered(b) && SetOf(a) == SetOf(b)
    ensures a == b
  {
    if a == [] {
      if b != [] {
        NonEmptySet(b);
      }
    } else {
      NonEmptySet(a);
      assert b != [];
      assert a[0] in SetOf(b) && b[0] in SetOf(a);
      OrdinalTotal(a[0], b[0]);
      assert a[0] == b[0];
      TailSet(a);
      TailSet(b);
      OrderedIsUnique(a[1..], b[1..]);
    }
  }

  lemma TailSet(a: seq<Id>)
    requires Ordered(a) && a != []
    ensures SetOf(a[1..]) == SetOf(a) - {a[0]}
  {
    assert a == [a[0]] + a[1..];
    SetOfConcat([a[0]], a[1..]);
    if a[0] in a[1..] {
      var i :| 0 <= i < |a[1..]| && a[1..][i] == a[0];
      assert OrdinalLess(a[0], a[i + 1]);
      OrdinalTotal(a[0], a[0]);
    }
  }

  /** `m` comes before every other member. */
  ghost predicate LeastIn(m: Id, s: set<Id>) {
    m in s && forall x :: x in s ==> x == m || OrdinalLess(m, x)
  }

  lemma {:induction false} LeastExists(s: set<Id>)
    requires s != {}
    ensures exists m :: LeastIn(m, s)
  {
    var x :| x in s;
    if s == {x} {
      assert LeastIn(x, s);
    } else {
      var rest := s - {x};
      assert rest != {};
      LeastExists(rest);
      var m :| LeastIn(m, rest);
      OrdinalTotal(m, x);
      if OrdinalLess(x, m) {
        forall y | y in s ensures y == x || OrdinalLess(x, y) {
          if y != x && y != m {
            OrdinalTransitive(x, m, y);
          }
        }
        assert LeastIn(x, s);
      } else {
        assert LeastIn(m, s);
      }
    }
  }

  /** The members in ordinal order. */
  ghost function Ordinal(s: set<Id>): (r: seq<Id>)
    ensures Ordered(r) && SetOf(r) == s && NoDup(r)
    decreases |s|
  {
    if s == {} then []
    else
      LeastExists(s);
      var m :| LeastIn(m, s);
      var rest := Ordinal(s - {m});
      LeastFirst(m, s, rest);
      [m] + rest
  }

  lemma LeastFirst(m: Id, s: set<Id>, rest: seq<Id>)
    requires LeastIn(m, s) && Ordered(rest) && NoDup(rest) && SetOf(rest) == s - {m}
    ensures Ordered([m] + rest) && NoDup([m] + rest) && SetOf([m] + rest) == s
  {
    var t := [m] + rest;
    forall i, j | 0 <= i < j < |t| ensures OrdinalLess(t[i], t[j]) && t[i] != t[j] {
      assert t[j] == rest[j - 1] && rest[j - 1] in SetOf(rest);
      assert i > 0 ==> t[i] == rest[i - 1];
    }
    SetOfConcat([m], rest);
    assert SetOf([m]) == {m};
  }

  // ---- Slotting ------------------------------------------------------------

  function Take<T>(s: seq<T>, n: nat): seq<T> {
    if |s| <= n then s else s[..n]
  }

  /** Every held plugin: those in the runtime order as it says, then the orphans. */
  ghost function Wanted(held: set<Id>, runtime: seq<Id>): seq<Id> {
    Filter(runtime, held) + Ordinal(held - SetOf(runtime))
  }

  ghost function Target(held: set<Id>, runtime: seq<Id>): seq<Id> {
    Take(Wanted(held, runtime), SLOT_COUNT)
  }

  lemma WantedIsHeld(held: set<Id>, runtime: seq<Id>)
    requires NoDup(runtime)
    ensures NoDup(Wanted(held, runtime)) && SetOf(Wanted(held, runtime)) == held
  {
    var a, b := Filter(runtime, held), Ordinal(held - SetOf(runtime));
    FilterNoDup(runtime, held);
    FilterSet(runtime, held);
    SetOfConcat(a, b);
    assert SetOf(runtime) * held + (held - SetOf(runtime)) == held;
    forall i, j | 0 <= i < |a| && 0 <= j < |b| ensures a[i] != b[j] {
      assert a[i] in SetOf(a) && b[j] in SetOf(b);
    }
  }

  function SlotOf(id: Id, plugins: map<Id, Plugin>): Slot {
    Slot(if id in plugins then Some(plugins[id]) else None, false)
  }

  function Laid(ids: seq<Id>, plugins: map<Id, Plugin>): (slots: seq<Slot>)
    requires |ids| <= SLOT_COUNT
    ensures |slots| == SLOT_COUNT
    ensures forall i :: 0 <= i < SLOT_COUNT ==> slots[i] == if i < |ids| then SlotOf(ids[i], plugins) else EMPTY
  {
    seq(SLOT_COUNT, i requires 0 <= i < SLOT_COUNT => if i < |ids| then SlotOf(ids[i], plugins) else EMPTY)
  }

  function Positions(ids: seq<Id>): (m: map<Id, nat>)
    ensures m.Keys == SetOf(ids)
    ensures forall id :: id in m ==> m[id] < |ids| && ids[m[id]] == id
  {
    if ids == [] then map[]
    else
      var n := |ids| - 1;
      assert ids == ids[..n] + [ids[n]];
      Positions(ids[..n])[ids[n] := n]
  }

  /** Wipe all slots and fill them again from the runtime order. */
  ghost function Reapplied(b: Bridge, runtime: seq<Id>): Bridge {
    var t := Target(b.idToPlugin.Keys, runtime);
    Bridge(Laid(t, b.idToPlugin), Positions(t), b.idToPlugin)
  }

  // ---- Steps ---------------------------------------------------------------

  /** An initialisation under way outside the lock: the id, and the slot it was given. */
  datatype Pending = Pending(id: Id, slot: nat)

  /** The bridge beside the service it follows. `shown` is the runtime order of the last
      re-slotting; `failed` holds the ids whose initialisation threw since then. */
  datatype Host = Host(service: System, bridge: Bridge, shown: seq<Id>, failed: set<Id>, pending: seq<Pending>)

  /** Each step is one lock scope, of the service or of the bridge; they interleave
      freely. `Initialised(k, ok)` is the outcome of the `k`-th initialisation under way. */
  datatype Step =
    | Service(op: Runs.Op)
    | SlotIn(id: Id, plugin: Plugin)
    | Initialised(k: nat, ok: bool)
    | Unslot(id: Id)
    | Reapply
    | Bypass(slot: nat, on: bool)

  /** Re-slotting reads the service's order of that moment. */
  ghost function Reslotted(h: Host, plugins: map<Id, Plugin>): Host {
    var runtime := h.service.chain.Runtime();
    h.(bridge := Reapplied(h.bridge.(idToPlugin := plugins), runtime), shown := runtime, failed := {})
  }

  /** Re-slots with the new plugin; one that finds no slot is forgotten again. */
  ghost function SlottedIn(h: Host, id: Id, plugin: Plugin): Host {
    var s := Reslotted(h, h.bridge.idToPlugin[id := plugin]);
    if id !in s.bridge.idToSlot then s.(bridge := s.bridge.(idToPlugin := s.bridge.idToPlugin - {id}))
    else s.(pending := s.pending + [Pending(id, s.bridge.idToSlot[id])])
  }

  /** A failed initialisation clears the slot that was captured when it began. */
  function Cleared(b: Bridge, p: Pending): Bridge {
    if p.slot < |b.slots| then b.(slots := b.slots[p.slot := EMPTY], idToSlot := b.idToSlot - {p.id}) else b
  }

  function Ended(h: Host, k: nat, ok: bool): Host {
    if k >= |h.pending| then h
    else
      var p := h.pending[k];
      var rest := h.(pending := h.pending[..k] + h.pending[k + 1..]);
      if ok then rest else rest.(bridge := Cleared(h.bridge, p), failed := h.failed + {p.id})
  }

  ghost function Unslotted(h: Host, id: Id): Host {
    if id !in h.bridge.idToSlot then h else Reslotted(h, h.bridge.idToPlugin - {id})
  }

  function Bypassed(h: Host, slot: nat, on: bool): Host {
    if slot < |h.bridge.slots|
    then h.(bridge := h.bridge.(slots := h.bridge.slots[slot := h.bridge.slots[slot].(bypassed := on)]))
    else h
  }

  ghost function Next(h: Host, q: Step): Host
    requires h.service.chain.Valid()
  {
    match q
    case Service(op) => h.(service := Runs.Next(h.service, op))
    case SlotIn(id, plugin) => SlottedIn(h, id, plugin)
    case Initialised(k, ok) => Ended(h, k, ok)
    case Unslot(id) => Unslotted(h, id)
    case Reapply => Reslotted(h, h.bridge.idToPlugin)
    case Bypass(slot, on) => Bypassed(h, slot, on)
  }

  // ---- The invariant -------------------------------------------------------

  ghost function ShownTarget(h: Host): seq<Id> {
    Target(h.bridge.idToPlugin.Keys, h.shown)
  }

  /** What slot `i` should hold. */
  function Occupant(t: seq<Id>, plugins: map<Id, Plugin>, failed: set<Id>, i: nat): Option<Plugin> {
    if i < |t| && t[i] !in failed then SlotOf(t[i], plugins).plugin else None
  }

  ghost predicate Matches(b: Bridge, t: seq<Id>, failed: set<Id>) {
    && |b.slots| == SLOT_COUNT && |t| <= SLOT_COUNT && NoDup(t) && SetOf(t) <= b.idToPlugin.Keys
    && b.idToSlot == Positions(t) - failed
    && forall i :: 0 <= i < SLOT_COUNT ==> b.slots[i].plugin == Occupant(t, b.idToPlugin, failed, i)
  }

  ghost predicate PendingInRange(pending: seq<Pending>) {
    forall k :: 0 <= k < |pending| ==> pending[k].slot < SLOT_COUNT
  }

  /** The slots are the list wanted at the last re-slotting cut at eight, up to failed
      plugins, and the id table is their exact inverse. */
  ghost predicate Inv(h: Host) {
    && Runs.Inv(h.service) && NoDup(h.shown) && PendingInRange(h.pending)
    && Matches(h.bridge, ShownTarget(h), h.failed)
  }

  /** The captured slot is still the one the id has, or the id has none and the slot is
      empty. */
  predicate InPlace(b: Bridge, p: Pending) {
    if p.id in b.idToSlot then b.idToSlot[p.id] == p.slot
    else p.slot < |b.slots| && b.slots[p.slot].plugin.None?
  }

  predicate StepInPlace(h: Host, q: Step) {
    q.Initialised? && !q.ok && q.k < |h.pending| ==> InPlace(h.bridge, h.pending[q.k])
  }

  lemma TargetFacts(held: set<Id>, runtime: seq<Id>)
    requires NoDup(runtime)
    ensures var t := Target(held, runtime); |t| <= SLOT_COUNT && NoDup(t) && SetOf(t) <= held
  {
    WantedIsHeld(held, runtime);
    var t := Target(held, runtime);
    assert forall x :: x in t ==> x in SetOf(Wanted(held, runtime));
  }

  lemma ReappliedMatches(b: Bridge, runtime: seq<Id>)
    requires NoDup(runtime)
    ensures Matches(Reapplied(b, runtime), Target(b.idToPlugin.Keys, runtime), {})
  {
    TargetFacts(b.idToPlugin.Keys, runtime);
  }

  /** Dropping ids that are not among the first `n` entries leaves those alone. */
  lemma TakeUnaffected(s: seq<Id>, n: nat, keep: set<Id>)
    requires forall x :: x in Take(s, n) ==> x in keep
    ensures Take(Filter(s, keep), n) == Take(s, n)
  {
    var front := Take(s, n);
    FilterAll(front, keep);
    if |s| > n {
      assert s == s[..n] + s[n..];
      FilterConcat(s[..n], s[n..], keep);
      assert (s[..n] + Filter(s[n..], keep))[..n] == s[..n];
    }
  }

  lemma FilterOrdered(s: seq<Id>, keep: set<Id>)
    requires Ordered(s)
    ensures Ordered(Filter(s, keep))
  {
    var f := Filter(s, keep);
    forall i, j | 0 <= i < j < |f| ensures OrdinalLess(f[i], f[j]) {
      var p, q := FilterOrder(s, keep, i, j);
    }
  }

  /** Holding one plugin less only takes it out of the wanted list. */
  lemma WantedWithout(held: set<Id>, runtime: seq<Id>, id: Id)
    ensures Wanted(held - {id}, runtime) == Filter(Wanted(held, runtime), held - {id})
  {
    var keep, orphans := held - {id}, Ordinal(held - SetOf(runtime));
    FilterConcat(Filter(runtime, held), orphans, keep);
    FilterFilter(runtime, held, keep);
    assert held * keep == keep;
    FilterOrdered(orphans, keep);
    FilterSet(orphans, keep);
    assert SetOf(Filter(orphans, keep)) == keep - SetOf(runtime);
    OrderedIsUnique(Filter(orphans, keep), Ordinal(keep - SetOf(runtime)));
  }

  /** A plugin that found no slot can be forgotten without moving any other. */
  lemma UnslottedForgotten(held: set<Id>, runtime: seq<Id>, id: Id)
    requires NoDup(runtime) && id !in Target(held, runtime)
    ensures Target(held - {id}, runtime) == Target(held, runtime)
  {
    var w := Wanted(held, runtime);
    WantedIsHeld(held, runtime);
    WantedWithout(held, runtime, id);
    forall x | x in Take(w, SLOT_COUNT) ensures x in held - {id} {
      assert x in SetOf(w);
    }
    TakeUnaffected(w, SLOT_COUNT, held - {id});
  }

  /** Re-slotting before the service forgets the id gives the same list as after. */
  lemma DetachCommutes(held: set<Id>, canonical: seq<Id>, attached: set<Id>, id: Id)
    requires id !in held
    ensures Target(held, Filter(canonical, attached)) == Target(held, Filter(canonical, attached - {id}))
  {
    var a, b := Filter(canonical, attached), Filter(canonical, attached - {id});
    FilterFilter(canonical, attached, held);
    FilterFilter(canonical, attached - {id}, held);
    assert attached * held == (attached - {id}) * held;
    FilterSet(canonical, attached);
    FilterSet(canonical, attached - {id});
    assert held - SetOf(a) == held - SetOf(b);
  }

  lemma RuntimeNoDup(s: System)
    requires s.chain.Valid()
    ensures NoDup(s.chain.Runtime()) && SetOf(s.chain.Runtime()) == s.chain.attached
  {
    FilterNoDup(s.chain.canonical, s.chain.attached);
    FilterSet(s.chain.canonical, s.chain.attached);
    assert SetOf(s.chain.canonical) * s.chain.attached == s.chain.attached;
  }

  /** Whatever the slots held before, re-slotting puts them in step with the service. */
  lemma ReslottedInv(h: Host, plugins: map<Id, Plugin>)
    requires Runs.Inv(h.service) && PendingInRange(h.pending)
    ensures var r := Reslotted(h, plugins); Inv(r) && r.shown == r.service.chain.Runtime() && r.failed == {}
  {
    RuntimeNoDup(h.service);
    ReappliedMatches(h.bridge.(idToPlugin := plugins), h.service.chain.Runtime());
  }

  lemma SlottedInInv(h: Host, id: Id, plugin: Plugin)
    requires Runs.Inv(h.service) && PendingInRange(h.pending)
    ensures var r := SlottedIn(h, id, plugin); Inv(r) && r.shown == r.service.chain.Runtime() && r.failed == {}
  {
    var s := Reslotted(h, h.bridge.idToPlugin[id := plugin]);
    ReslottedInv(h, h.bridge.idToPlugin[id := plugin]);
    var t := ShownTarget(s);
    assert s.bridge.idToSlot == Positions(t);
    if id !in s.bridge.idToSlot {
      ForgottenMatches(s.bridge, s.shown, id);
    }
  }

  lemma ForgottenMatches(b: Bridge, shown: seq<Id>, id: Id)
    requires NoDup(shown) && id !in b.idToSlot
    requires Matches(b, Target(b.idToPlugin.Keys, shown), {})
    ensures var b' := b.(idToPlugin := b.idToPlugin - {id}); Matches(b', Target(b'.idToPlugin.Keys, shown), {})
  {
    var held, b' := b.idToPlugin.Keys, b.(idToPlugin := b.idToPlugin - {id});
    var t := Target(held, shown);
    assert id !in SetOf(t);
    UnslottedForgotten(held, shown, id);
    assert b'.idToPlugin.Keys == held - {id};
    forall i | 0 <= i < SLOT_COUNT ensures b'.slots[i].plugin == Occupant(t, b'.idToPlugin, {}, i) {
      assert i < |t| ==> t[i] in SetOf(t);
    }
  }

  lemma ClearedMatches(b: Bridge, t: seq<Id>, failed: set<Id>, p: Pending)
    requires Matches(b, t, failed) && p.slot < SLOT_COUNT && InPlace(b, p)
    ensures Matches(Cleared(b, p), t, failed + {p.id})
  {
    var b' := Cleared(b, p);
    assert b'.idToSlot == Positions(t) - (failed + {p.id});
    forall i | 0 <= i < SLOT_COUNT ensures b'.slots[i].plugin == Occupant(t, b.idToPlugin, failed + {p.id}, i) {
      if i < |t| {
        PositionsAt(t, i);
        assert t[i] in SetOf(t);
      }
    }
  }

  lemma EndedInv(h: Host, k: nat, ok: bool)
    requires Inv(h) && (k < |h.pending| && !ok ==> InPlace(h.bridge, h.pending[k]))
    ensures Inv(Ended(h, k, ok))
  {
    if k < |h.pending| && !ok {
      ClearedMatches(h.bridge, ShownTarget(h), h.failed, h.pending[k]);
    }
  }

  lemma NextInv(h: Host, q: Step)
    requires Inv(h) && StepInPlace(h, q)
    ensures Inv(Next(h, q))
  {
    match q
    case Service(op) => Runs.NextInv(h.service, op);
    case SlotIn(id, plugin) => SlottedInInv(h, id, plugin);
    case Initialised(k, ok) => EndedInv(h, k, ok);
    case Unslot(id) =>
      if id in h.bridge.idToSlot {
        ReslottedInv(h, h.bridge.idToPlugin - {id});
      }
    case Reapply => ReslottedInv(h, h.bridge.idToPlugin);
    case Bypass(slot, on) =>
  }

  /** A new bridge holds nothing, whatever the service remembers. */
  function Started(service: System): Host {
    Host(service, Bridge(seq(SLOT_COUNT, i => EMPTY), map[], map[]), [], {}, [])
  }

  lemma StartedInv(service: System)
    requires Runs.Inv(service)
    ensures Inv(Started(service))
  {
    var t := ShownTarget(Started(service));
    TargetFacts({}, []);
    assert Started(service).bridge.idToPlugin.Keys == {};
    if t != [] {
      NonEmptySet(t);
    }
  }

  /** Every failure so far landed in place. */
  ghost predicate AllInPlace(h: Host, steps: seq<Step>)
    requires Inv(h)
    decreases |steps|
  {
    steps == []
    || (StepInPlace(h, steps[0]) && (NextInv(h, steps[0]); AllInPlace(Next(h, steps[0]), steps[1..])))
  }

  ghost function Run(h: Host, steps: seq<Step>): (r: Host)
    requires Inv(h) && AllInPlace(h, steps)
    ensures Inv(r)
    decreases |steps|
  {
    if steps == [] then h
    else
      NextInv(h, steps[0]);
      Run(Next(h, steps[0]), steps[1..])
  }

  // ---- What the slots mean -------------------------------------------------

  /** The id table and the slots say the same thing. */
  ghost predicate ExactInverse(b: Bridge, t: seq<Id>) {
    && (forall id :: id in b.idToSlot ==>
          b.idToSlot[id] < |b.slots| && id in b.idToPlugin
          && b.slots[b.idToSlot[id]].plugin == Some(b.idToPlugin[id]))
    && (forall i :: 0 <= i < |b.slots| && b.slots[i].plugin.Some? ==>
          i < |t| && t[i] in b.idToSlot && b.idToSlot[t[i]] == i)
  }

  lemma MatchesIsInverse(b: Bridge, t: seq<Id>, failed: set<Id>)
    requires Matches(b, t, failed)
    ensures ExactInverse(b, t)
  {
    forall id | id in b.idToSlot
      ensures b.idToSlot[id] < |b.slots| && id in b.idToPlugin
              && b.slots[b.idToSlot[id]].plugin == Some(b.idToPlugin[id])
    {
      assert id in SetOf(t) && t[Positions(t)[id]] == id;
    }
    forall i | 0 <= i < |b.slots| && b.slots[i].plugin.Some?
      ensures i < |t| && t[i] in b.idToSlot && b.idToSlot[t[i]] == i
    {
      PositionsAt(t, i);
    }
  }

  lemma PositionsAt(t: seq<Id>, i: nat)
    requires NoDup(t) && i < |t|
    ensures t[i] in Positions(t) && Positions(t)[t[i]] == i
  {
    assert t[i] in SetOf(t);
  }

  /** From any stored row without duplicates and over any interleaving of the service's
      and the bridge's lock scopes in which failures land in place: slot `i` is filled
      exactly when the list wanted at the last re-slotting has an `i`-th entry that did
      not fail since, and the id table is the exact inverse of the slots. */
  lemma EveryRun(row: Option<seq<Id>>, steps: seq<Step>)
    requires NoDup(Loaded(row))
    ensures Runs.Inv(ChainOrder.Started(row)) && Inv(Started(ChainOrder.Started(row)))
    ensures AllInPlace(Started(ChainOrder.Started(row)), steps) ==>
              var h := Run(Started(ChainOrder.Started(row)), steps);
              var t := ShownTarget(h);
              && ExactInverse(h.bridge, t)
              && |h.bridge.slots| == SLOT_COUNT
              && forall i :: 0 <= i < SLOT_COUNT ==>
                   (h.bridge.slots[i].plugin.Some? <==> i < |t| && t[i] !in h.failed)
  {
    Runs.StartInv(row);
    StartedInv(ChainOrder.Started(row));
    if AllInPlace(Started(ChainOrder.Started(row)), steps) {
      var h := Run(Started(ChainOrder.Started(row)), steps);
      var t := ShownTarget(h);
      MatchesIsInverse(h.bridge, t, h.failed);
      forall i | 0 <= i < SLOT_COUNT && i < |t| ensures t[i] in h.bridge.idToPlugin {
        assert t[i] in SetOf(t);
      }
    }
  }

  /** `a` comes before `b` in the runtime order, or is in it while `b` is an orphan,
      or both are orphans and `a` is ordinally less. */
  ghost predicate Precedes(runtime: seq<Id>, a: Id, b: Id) {
    if b in runtime then exists p, q :: 0 <= p < q < |runtime| && runtime[p] == a && runtime[q] == b
    else a in runtime || OrdinalLess(a, b)
  }

  /** The slots list the held plugins, each once, in that order, until they are full. */
  lemma TargetMeaning(held: set<Id>, runtime: seq<Id>)
    requires NoDup(runtime)
    ensures var w := Wanted(held, runtime);
            && NoDup(w) && SetOf(w) == held
            && (forall i, j :: 0 <= i < j < |w| ==> Precedes(runtime, w[i], w[j]))
            && Target(held, runtime) <= w && |Target(held, runtime)| == Min(8, |held|)
  {
    var a, b := Filter(runtime, held), Ordinal(held - SetOf(runtime));
    var w := a + b;
    WantedIsHeld(held, runtime);
    NoDupCardinality(w);
    forall i, j | 0 <= i < j < |w| ensures Precedes(runtime, w[i], w[j]) {
      if j < |a| {
        var p, q := FilterOrder(runtime, held, i, j);
        assert runtime[q] == w[j];
      } else {
        assert b[j - |a|] in SetOf(b);
        if i < |a| {
          FilterMember(runtime, held, a[i]);
        } else {
          assert OrdinalLess(b[i - |a|], b[j - |a|]);
        }
      }
    }
  }

  /** The chain has no gap exactly when no failed plugin stands before a working one. */
  lemma GapFreeIff(h: Host)
    requires Inv(h)
    ensures var t := ShownTarget(h);
            GapFree(h.bridge.slots) <==>
            forall i, j :: 0 <= i < j < |t| && t[i] in h.failed ==> t[j] in h.failed
  {
    var t, slots := ShownTarget(h), h.bridge.slots;
    forall i | 0 <= i < |t| ensures slots[i].plugin.Some? <==> t[i] !in h.failed {
      assert t[i] in SetOf(t);
    }
  }

  ghost predicate GapFree(slots: seq<Slot>) {
    forall i, j :: 0 <= i < j < |slots| && slots[j].plugin.Some? ==> slots[i].plugin.Some?
  }

  // ---- Whole requests ------------------------------------------------------

  /** What the bridge does for an activation, a deactivation and an accepted PUT when
      nothing comes in between. */
  ghost function Activated(h: Host, id: Id, plugin: Plugin): Host {
    SlottedIn(h.(service := Attach(h.service, id)), id, plugin)
  }

  /** The chain is re-slotted before the service hears of the detachment. */
  ghost function Deactivated(h: Host, id: Id): Host {
    if id !in h.bridge.idToSlot then h
    else
      var u := Unslotted(h, id);
      u.(service := Detach(h.service, id))
  }

  ghost function Rearranged(h: Host, order: seq<Id>): Host
    requires h.service.chain.Valid()
  {
    if PutCheck(h.service.chain.attached, order).Some? then h
    else Reslotted(h.(service := Put(h.service, order)), h.bridge.idToPlugin)
  }

  /** The slots follow the order the service has now. */
  ghost predicate Follows(h: Host) {
    Inv(h) && Matches(h.bridge, Target(h.bridge.idToPlugin.Keys, h.service.chain.Runtime()), h.failed)
  }

  /** All that re-slotting needs. */
  ghost predicate Usable(h: Host) {
    Runs.Inv(h.service) && PendingInRange(h.pending)
  }

  /** They do after every activation and every accepted PUT, and after every deactivation
      of a slotted plugin, whatever was the case before: re-slotting also mends what a
      failure out of place broke. */
  lemma ActivatedFollows(h: Host, id: Id, plugin: Plugin)
    requires Usable(h)
    ensures Follows(Activated(h, id, plugin))
  {
    Runs.AttachInv(h.service, id);
    SlottedInInv(h.(service := Attach(h.service, id)), id, plugin);
  }

  lemma RearrangedFollows(h: Host, order: seq<Id>)
    requires Usable(h)
    ensures Usable(Rearranged(h, order))
    ensures PutCheck(h.service.chain.attached, order).None? ==> Follows(Rearranged(h, order))
  {
    if PutCheck(h.service.chain.attached, order).None? {
      Runs.PutInv(h.service, order);
      ReslottedInv(h.(service := Put(h.service, order)), h.bridge.idToPlugin);
    }
  }

  lemma DeactivatedFollows(h: Host, id: Id)
    requires Usable(h) && id in h.bridge.idToSlot
    ensures Follows(Deactivated(h, id))
  {
    var plugins := h.bridge.idToPlugin - {id};
    ReslottedInv(h, plugins);
    Runs.DetachInv(h.service, id);
    DetachCommutes(plugins.Keys, h.service.chain.canonical, h.service.chain.attached, id);
    assert id !in h.service.chain.attached ==> h.service.chain.attached - {id} == h.service.chain.attached;
  }

  // ---- Held plugins and bypasses -------------------------------------------

  /** The plugin a step is about. */
  function Subject(q: Step): Option<Id> {
    match q case SlotIn(id, _) => Some(id) case Unslot(id) => Some(id) case _ => None
  }

  /** A step leaves every other plugin held as it was, as the same object. The plugin slotted
      in is held exactly when it found a slot, and that slot holds the new object; one
      taken out of its slot is no longer held. */
  lemma HeldAfter(h: Host, q: Step, other: Id)
    requires Usable(h)
    ensures var b, b' := h.bridge, Next(h, q).bridge;
            && (Subject(q) != Some(other) ==>
                  (other in b'.idToPlugin <==> other in b.idToPlugin)
                  && (other in b.idToPlugin ==> b'.idToPlugin[other] == b.idToPlugin[other]))
            && (q.SlotIn? ==>
                  (q.id in b'.idToPlugin <==> q.id in b'.idToSlot)
                  && (q.id in b'.idToSlot ==>
                        b'.idToSlot[q.id] < |b'.slots| && b'.slots[b'.idToSlot[q.id]].plugin == Some(q.plugin)))
            && (q.Unslot? && q.id in b.idToSlot ==> q.id !in b'.idToPlugin)
  {
    if q.SlotIn? {
      SlottedObject(h, q.id, q.plugin);
    }
  }

  lemma SlottedObject(h: Host, id: Id, plugin: Plugin)
    requires Usable(h)
    ensures var b' := SlottedIn(h, id, plugin).bridge;
            id in b'.idToSlot ==>
              && b'.idToPlugin == h.bridge.idToPlugin[id := plugin]
              && b'.idToSlot[id] < |b'.slots| && b'.slots[b'.idToSlot[id]].plugin == Some(plugin)
  {
    var plugins := h.bridge.idToPlugin[id := plugin];
    var s := Reslotted(h, plugins);
    var t := Target(plugins.Keys, h.service.chain.Runtime());
    FilterNoDup(h.service.chain.canonical, h.service.chain.attached);
    TargetFacts(plugins.Keys, h.service.chain.Runtime());
    assert s.bridge.idToSlot == Positions(t);
  }

  /** Re-slotting ends every bypass, and the bypass switch changes that one flag. */
  lemma BypassesAfter(h: Host, q: Step, i: nat)
    requires Usable(h) && i < |h.bridge.slots| == SLOT_COUNT
    ensures q == Reapply || (q.Unslot? && q.id in h.bridge.idToSlot) || q.SlotIn? ==>
              |Next(h, q).bridge.slots| == SLOT_COUNT && !Next(h, q).bridge.slots[i].bypassed
    ensures q.Bypass? ==>
              Next(h, q).bridge.slots[i]
              == Slot(h.bridge.slots[i].plugin, if q.slot == i then q.on else h.bridge.slots[i].bypassed)
  {
  }

  // ---- Refused plugins -----------------------------------------------------

  /** An activation finds no slot exactly when eight held plugins come before it. */
  lemma RefusedIff(h: Host, id: Id, plugin: Plugin)
    requires Inv(h)
    ensures var r := Activated(h, id, plugin);
            var w := Wanted(h.bridge.idToPlugin.Keys + {id}, r.service.chain.Runtime());
            id in w && (id !in r.bridge.idToSlot <==> SLOT_COUNT <= IndexIn(w, id))
  {
    var a := h.(service := Attach(h.service, id));
    var s := Reslotted(a, h.bridge.idToPlugin[id := plugin]);
    Runs.AttachInv(h.service, id);
    ReslottedInv(a, h.bridge.idToPlugin[id := plugin]);
    assert s.bridge.idToPlugin.Keys == h.bridge.idToPlugin.Keys + {id};
    var w := Wanted(s.bridge.idToPlugin.Keys, s.shown);
    WantedIsHeld(s.bridge.idToPlugin.Keys, s.shown);
    SlotOfId(s.bridge, ShownTarget(s), {}, id);
    InTakeIff(w, id);
  }

  /** A member is among the first eight entries exactly when its first place is. */
  lemma InTakeIff(w: seq<Id>, id: Id)
    requires id in SetOf(w)
    ensures id in w && (id in Take(w, SLOT_COUNT) <==> IndexIn(w, id) < SLOT_COUNT)
  {
    assert w[0..] == w;
    var k := IndexIn(w, id);
    assert w[0..k] == w[..k];
    if k < SLOT_COUNT {
      assert Take(w, SLOT_COUNT)[k] == id;
    } else {
      assert forall x :: x in w[..SLOT_COUNT] ==> x in w[..k];
    }
  }

  /** A plugin without a slot is not detached when it is deactivated: the service goes on
      listing it. A refused activation leaves one behind. */
  lemma RefusedNeverDetached(h: Host, id: Id, plugin: Plugin)
    requires Inv(h)
    ensures var after := Activated(h, id, plugin);
            id !in after.bridge.idToSlot ==>
              Deactivated(after, id) == after && id in after.service.chain.Runtime()
  {
    Runs.AttachInv(h.service, id);
    RuntimeNoDup(Attach(h.service, id));
    assert id in SetOf(Attach(h.service, id).chain.Runtime());
  }

  // ---- Failed plugins ------------------------------------------------------

  /** Where one id stands. */
  lemma SlotOfId(b: Bridge, t: seq<Id>, failed: set<Id>, id: Id)
    requires Matches(b, t, failed)
    ensures id in b.idToSlot <==> id in t && id !in failed
    ensures id in b.idToSlot ==>
              (var k := b.idToSlot[id]; k < |t| && t[k] == id && id in b.idToPlugin && b.slots[k].plugin == Some(b.idToPlugin[id]))
  {
    assert id in t <==> id in SetOf(t);
    assert id in b.idToSlot ==> t[Positions(t)[id]] == id;
  }

  lemma MatchesIsOwned(b: Bridge, t: seq<Id>, failed: set<Id>)
    requires Matches(b, t, failed)
    ensures Owned(b)
  {
    MatchesIsInverse(b, t, failed);
    forall x, y | x in b.idToSlot && y in b.idToSlot && b.idToSlot[x] == b.idToSlot[y] ensures x == y {
      SlotOfId(b, t, failed, x);
      SlotOfId(b, t, failed, y);
    }
    forall i | 0 <= i < |b.slots| && b.slots[i].plugin.Some? ensures HasOwner(b, i) {
      assert b.idToSlot[t[i]] == i;
    }
  }

  /** A failed initialisation keeps table and slots inverse exactly when the slot it
      captured is still that id's, or both are gone: after a reordering in between it
      would clear another plugin's slot and leave its own filled. */
  lemma FailureKeepsInverseIff(b: Bridge, p: Pending)
    requires Owned(b) && p.slot < |b.slots|
    ensures Owned(Cleared(b, p)) <==> InPlace(b, p)
  {
    if InPlace(b, p) {
      InPlaceOwned(b, p);
    } else if p.id in b.idToSlot {
      LosesOwnSlot(b, p);
    } else {
      LosesOtherSlot(b, p);
    }
  }

  lemma InPlaceOwned(b: Bridge, p: Pending)
    requires Owned(b) && p.slot < |b.slots| && InPlace(b, p)
    ensures Owned(Cleared(b, p))
  {
    var c := Cleared(b, p);
    forall i | 0 <= i < |c.slots| && c.slots[i].plugin.Some? ensures HasOwner(c, i) {
      assert i != p.slot && HasOwner(b, i);
      var x :| x in b.idToSlot && b.idToSlot[x] == i;
      assert x in c.idToSlot && c.idToSlot[x] == i;
    }
  }

  /** Its own slot stays filled with no owner. */
  lemma LosesOwnSlot(b: Bridge, p: Pending)
    requires Owned(b) && p.slot < |b.slots| && p.id in b.idToSlot && b.idToSlot[p.id] != p.slot
    ensures !Owned(Cleared(b, p))
  {
    var c, i := Cleared(b, p), b.idToSlot[p.id];
    assert c.slots[i].plugin.Some?;
    assert !HasOwner(c, i);
  }

  /** Another id's slot is emptied under it. */
  lemma LosesOtherSlot(b: Bridge, p: Pending)
    requires Owned(b) && p.slot < |b.slots| && p.id !in b.idToSlot && b.slots[p.slot].plugin.Some?
    ensures !Owned(Cleared(b, p))
  {
    var c := Cleared(b, p);
    assert HasOwner(b, p.slot);
    var x :| x in b.idToSlot && b.idToSlot[x] == p.slot;
    assert x in c.idToSlot && c.slots[c.idToSlot[x]].plugin.None?;
  }

  // ---- A failure that lands after a reordering ------------------------------

  predicate NoFailure(steps: seq<Step>) {
    forall k :: 0 <= k < |steps| ==> steps[k].Initialised? ==> steps[k].ok
  }

  lemma {:induction false} NoFailureInPlace(h: Host, steps: seq<Step>)
    requires Inv(h) && NoFailure(steps)
    ensures AllInPlace(h, steps)
    decreases |steps|
  {
    if steps != [] {
      assert steps[0].Initialised? ==> steps[0].ok;
      NextInv(h, steps[0]);
      NoFailureInPlace(Next(h, steps[0]), steps[1..]);
    }
  }

  lemma {:induction false} Then(h: Host, steps: seq<Step>, q: Step)
    requires Inv(h) && NoFailure(steps) && NoFailure([q])
    ensures NoFailure(steps + [q]) && AllInPlace(h, steps) && AllInPlace(h, steps + [q])
    ensures Run(h, steps + [q]) == Next(Run(h, steps), q)
    decreases |steps|
  {
    NoFailureInPlace(h, steps);
    NoFailureInPlace(h, steps + [q]);
    if steps == [] {
      assert [q][1..] == [] && steps + [q] == [q];
    } else {
      NextInv(h, steps[0]);
      Then(Next(h, steps[0]), steps[1..], q);
      assert (steps + [q])[1..] == steps[1..] + [q];
    }
  }

  /** When exactly the attached plugins are held, and they fit, the slots list them all. */
  lemma TargetIsRuntime(held: set<Id>, runtime: seq<Id>)
    requires held == SetOf(runtime) && |runtime| <= SLOT_COUNT
    ensures Target(held, runtime) == runtime
  {
    FilterAll(runtime, held);
    assert held - SetOf(runtime) == {};
  }

  /** Re-slotting exactly the attached plugins lists them in the runtime order. */
  lemma ReslottedTo(h: Host, plugins: map<Id, Plugin>, runtime: seq<Id>)
    requires h.service.chain.Runtime() == runtime && |runtime| <= SLOT_COUNT && plugins.Keys == SetOf(runtime)
    ensures Reslotted(h, plugins).bridge.idToSlot == Positions(runtime)
    ensures Reslotted(h, plugins).bridge.idToPlugin == plugins
  {
    TargetIsRuntime(plugins.Keys, runtime);
  }

  /** A service that remembers two plugins, and a new bridge. */
  function Fresh(a: Id, b: Id): Host {
    Started(ChainOrder.Started(Some([a, b])))
  }

  lemma FreshInv(a: Id, b: Id)
    requires a != b
    ensures Inv(Fresh(a, b))
  {
    Runs.StartInv(Some([a, b]));
    StartedInv(ChainOrder.Started(Some([a, b])));
  }

  lemma RuntimeOfTwo(a: Id, b: Id)
    requires a != b
    ensures Filter([a, b], {a}) == [a] && Filter([a, b], {a, b}) == [a, b]
    ensures SetOf([a]) == {a} && SetOf([a, b]) == {a, b}
  {
    var list := [a, b];
    assert list[..0] == [] && list[..2] == list;
    FilterStep(list, {a}, 0);
    FilterStep(list, {a}, 1);
    FilterStep(list, {a, b}, 0);
    FilterStep(list, {a, b}, 1);
  }

  lemma Attached(s: System, id: Id)
    requires Runs.Inv(s) && id in s.chain.canonical
    ensures Runs.Inv(Runs.Next(s, Runs.DoAttach(id)))
    ensures Runs.Next(s, Runs.DoAttach(id)).chain == Chain(s.chain.canonical, s.chain.attached + {id})
  {
    Runs.NextInv(s, Runs.DoAttach(id));
  }

  /** One attached plugin more is slotted, last in the runtime order. */
  lemma LastSlotted(m: Host, ids: set<Id>, id: Id, plugin: Plugin, runtime: seq<Id>)
    requires Inv(m) && m.service.chain.Runtime() == runtime && runtime != [] && |runtime| <= SLOT_COUNT
    requires m.bridge.idToPlugin.Keys + {id} == ids == SetOf(runtime)
    requires NoDup(runtime) && runtime[|runtime| - 1] == id
    ensures var n := SlottedIn(m, id, plugin);
            && Inv(n) && n.service == m.service && n.bridge.idToPlugin.Keys == ids
            && n.pending == m.pending + [Pending(id, |runtime| - 1)]
  {
    SlottedInInv(m, id, plugin);
    ReslottedTo(m, m.bridge.idToPlugin[id := plugin], runtime);
    PositionsAt(runtime, |runtime| - 1);
  }

  /** Exactly the attached plugins are held, all remembered, and nothing else. */
  ghost predicate HoldsAttached(h: Host, canonical: seq<Id>, ids: set<Id>, pending: seq<Pending>) {
    h.service.chain.canonical == canonical && h.service.chain.attached == h.bridge.idToPlugin.Keys == ids && h.pending == pending
  }

  lemma ThenAttach(h: Host, steps: seq<Step>, canonical: seq<Id>, ids: set<Id>, pending: seq<Pending>, id: Id)
    requires Inv(h) && NoFailure(steps) && AllInPlace(h, steps)
    requires HoldsAttached(Run(h, steps), canonical, ids, pending) && id in canonical
    ensures var all := steps + [Service(Runs.DoAttach(id))];
            && NoFailure(all) && AllInPlace(h, all)
            && var m := Run(h, all);
               m.service.chain == Chain(canonical, ids + {id}) && m.bridge.idToPlugin.Keys == ids && m.pending == pending
  {
    Then(h, steps, Service(Runs.DoAttach(id)));
    Attached(Run(h, steps).service, id);
  }

  lemma ThenSlot(h: Host, steps: seq<Step>, canonical: seq<Id>, ids: set<Id>, pending: seq<Pending>, id: Id, plugin: Plugin, runtime: seq<Id>)
    requires Inv(h) && NoFailure(steps) && AllInPlace(h, steps)
    requires var m := Run(h, steps);
             m.service.chain == Chain(canonical, ids) && m.bridge.idToPlugin.Keys + {id} == ids && m.pending == pending
    requires runtime == Filter(canonical, ids) && runtime != [] && |runtime| <= SLOT_COUNT
    requires SetOf(runtime) == ids && NoDup(runtime) && runtime[|runtime| - 1] == id
    ensures NoFailure(steps + [SlotIn(id, plugin)]) && AllInPlace(h, steps + [SlotIn(id, plugin)])
    ensures HoldsAttached(Run(h, steps + [SlotIn(id, plugin)]), canonical, ids, pending + [Pending(id, |runtime| - 1)])
  {
    Then(h, steps, SlotIn(id, plugin));
    LastSlotted(Run(h, steps), ids, id, plugin, runtime);
  }

  lemma FirstSlotted(a: Id, b: Id, plugin: Plugin) returns (steps: seq<Step>)
    requires a != b
    ensures Inv(Fresh(a, b)) && NoFailure(steps) && AllInPlace(Fresh(a, b), steps)
    ensures HoldsAttached(Run(Fresh(a, b), steps), [a, b], {a}, [Pending(a, 0)])
  {
    FreshInv(a, b);
    RuntimeOfTwo(a, b);
    NoFailureInPlace(Fresh(a, b), []);
    assert HoldsAttached(Run(Fresh(a, b), []), [a, b], {}, []);
    assert {} + {a} == {a};
    ThenAttach(Fresh(a, b), [], [a, b], {}, [], a);
    steps := [] + [Service(Runs.DoAttach(a))];
    ThenSlot(Fresh(a, b), steps, [a, b], {a}, [], a, plugin, [a]);
    steps := steps + [SlotIn(a, plugin)];
  }

  lemma OnlyOneReady(h: Host, steps: seq<Step>, p: Pending)
    requires Inv(h) && NoFailure(steps) && AllInPlace(h, steps) && Run(h, steps).pending == [p]
    ensures NoFailure(steps + [Initialised(0, true)]) && AllInPlace(h, steps + [Initialised(0, true)])
    ensures Run(h, steps + [Initialised(0, true)]) == Run(h, steps).(pending := [])
  {
    Then(h, steps, Initialised(0, true));
  }

  lemma FirstReady(a: Id, b: Id, plugin: Plugin) returns (steps: seq<Step>)
    requires a != b
    ensures Inv(Fresh(a, b)) && NoFailure(steps) && AllInPlace(Fresh(a, b), steps)
    ensures HoldsAttached(Run(Fresh(a, b), steps), [a, b], {a}, [])
  {
    FreshInv(a, b);
    var before := FirstSlotted(a, b, plugin);
    OnlyOneReady(Fresh(a, b), before, Pending(a, 0));
    steps := before + [Initialised(0, true)];
  }

  lemma SecondSlotted(a: Id, b: Id, one: Plugin, two: Plugin) returns (steps: seq<Step>)
    requires a != b
    ensures Inv(Fresh(a, b)) && NoFailure(steps) && AllInPlace(Fresh(a, b), steps)
    ensures HoldsAttached(Run(Fresh(a, b), steps), [a, b], {a, b}, [Pending(b, 1)])
  {
    FreshInv(a, b);
    RuntimeOfTwo(a, b);
    steps := FirstReady(a, b, one);
    assert {a} + {b} == {a, b};
    ThenAttach(Fresh(a, b), steps, [a, b], {a}, [], b);
    steps := steps + [Service(Runs.DoAttach(b))];
    ThenSlot(Fresh(a, b), steps, [a, b], {a, b}, [], b, two, [a, b]);
    steps := steps + [SlotIn(b, two)];
  }

  lemma SwapAccepted(s: System, a: Id, b: Id)
    requires a != b && Runs.Inv(s) && s.chain == Chain([a, b], {a, b})
    ensures var s' := Runs.Next(s, Runs.DoPut([b, a])); Runs.Inv(s') && s'.chain.Runtime() == [b, a]
  {
    assert SetOf([b, a]) == {a, b};
    assert |{a, b}| == 2;
    PutMeaning(s, [b, a]);
    Runs.NextInv(s, Runs.DoPut([b, a]));
  }

  lemma Swapped(m: Host, a: Id, b: Id)
    requires m.bridge.idToPlugin.Keys == {a, b} && m.service.chain.Runtime() == [b, a]
    ensures Reslotted(m, m.bridge.idToPlugin).bridge.idToSlot == Positions([b, a])
  {
    assert SetOf([b, a]) == {a, b};
    ReslottedTo(m, m.bridge.idToPlugin, [b, a]);
  }

  lemma SwapPositions(a: Id, b: Id)
    requires a != b
    ensures var m := Positions([b, a]); b in m && m[b] == 0 && a in m && m[a] == 1
  {
    PositionsAt([b, a], 0);
    PositionsAt([b, a], 1);
  }

  /** The operator's order reaches the service while the second plugin initialises. */
  lemma PutWhileInitialising(a: Id, b: Id, one: Plugin, two: Plugin) returns (steps: seq<Step>)
    requires a != b
    ensures Inv(Fresh(a, b)) && NoFailure(steps) && AllInPlace(Fresh(a, b), steps)
    ensures var m := Run(Fresh(a, b), steps);
            m.bridge.idToPlugin.Keys == {a, b} && m.service.chain.Runtime() == [b, a] && m.pending == [Pending(b, 1)]
  {
    FreshInv(a, b);
    var before := SecondSlotted(a, b, one, two);
    Then(Fresh(a, b), before, Service(Runs.DoPut([b, a])));
    SwapAccepted(Run(Fresh(a, b), before).service, a, b);
    steps := before + [Service(Runs.DoPut([b, a]))];
  }

  lemma ThenReapply(h: Host, steps: seq<Step>)
    requires Inv(h) && NoFailure(steps) && AllInPlace(h, steps)
    ensures NoFailure(steps + [Reapply]) && AllInPlace(h, steps + [Reapply])
    ensures Run(h, steps + [Reapply]) == Reslotted(Run(h, steps), Run(h, steps).bridge.idToPlugin)
  {
    Then(h, steps, Reapply);
  }

  /** And the chain is re-slotted. */
  lemma SwappedWhileInitialising(a: Id, b: Id, one: Plugin, two: Plugin) returns (steps: seq<Step>)
    requires a != b
    ensures Inv(Fresh(a, b)) && NoFailure(steps) && AllInPlace(Fresh(a, b), steps)
    ensures var h := Run(Fresh(a, b), steps);
            h.pending == [Pending(b, 1)] && h.bridge.idToSlot == Positions([b, a])
  {
    FreshInv(a, b);
    var before := PutWhileInitialising(a, b, one, two);
    ThenReapply(Fresh(a, b), before);
    Swapped(Run(Fresh(a, b), before), a, b);
    steps := before + [Reapply];
  }

  /** Then its initialisation fails: the first plugin's slot is emptied under it, and the
      failed plugin goes on running in a slot nobody owns, until the next re-slotting. */
  lemma FailureHitsAnother(a: Id, b: Id, one: Plugin, two: Plugin) returns (steps: seq<Step>)
    requires a != b
    ensures Inv(Fresh(a, b)) && AllInPlace(Fresh(a, b), steps)
    ensures var f := Next(Run(Fresh(a, b), steps), Initialised(0, false)).bridge;
            && !Owned(f)
            && a in f.idToSlot && f.idToSlot[a] < |f.slots| && f.slots[f.idToSlot[a]].plugin.None?
            && b !in f.idToSlot && f.slots[0].plugin.Some?
  {
    FreshInv(a, b);
    steps := SwappedWhileInitialising(a, b, one, two);
    SwapPositions(a, b);
    var h := Run(Fresh(a, b), steps);
    MatchesIsOwned(h.bridge, ShownTarget(h), h.failed);
    FailureKeepsInverseIff(h.bridge, h.pending[0]);
  }

  /** A failed plugin stays among the held ones, so an accepted reordering gives it a
      slot again exactly when it is among the first eight wanted, always when no more
      than eight are held. */
  lemma FailedPluginReturns(h: Host, k: nat, order: seq<Id>, f: Host, n: Host)
    requires Inv(h) && k < |h.pending| && f == Ended(h, k, false) && f.service.chain.Valid()
    requires PutCheck(f.service.chain.attached, order).None? && n == Rearranged(f, order)
    requires h.pending[k].id in h.bridge.idToPlugin
    ensures var id := h.pending[k].id;
            && id in f.bridge.idToPlugin
            && (id in n.bridge.idToSlot <==> id in ShownTarget(n))
            && (|h.bridge.idToPlugin.Keys| <= SLOT_COUNT ==> id in n.bridge.idToSlot)
            && (id in n.bridge.idToSlot ==>
                  n.bridge.idToSlot[id] < |n.bridge.slots|
                  && n.bridge.slots[n.bridge.idToSlot[id]].plugin == Some(h.bridge.idToPlugin[id]))
  {
    var id := h.pending[k].id;
    Runs.PutInv(f.service, order);
    assert f.bridge.idToPlugin == h.bridge.idToPlugin;
    ReslottedInv(f.(service := Put(f.service, order)), f.bridge.idToPlugin);
    SlotOfId(n.bridge, ShownTarget(n), {}, id);
    if |h.bridge.idToPlugin.Keys| <= SLOT_COUNT {
      FewAllWanted(n.bridge.idToPlugin.Keys, n.shown, id);
    }
  }

  lemma FewAllWanted(held: set<Id>, runtime: seq<Id>, id: Id)
    requires NoDup(runtime) && |held| <= SLOT_COUNT && id in held
    ensures id in Target(held, runtime)
  {
    var w := Wanted(held, runtime);
    WantedIsHeld(held, runtime);
    NoDupCardinality(w);
    assert id in SetOf(w);
  }

  // ---- Without a chain-order service ---------------------------------------

  /** The first empty slot from `i` on, or -1. */
  function FirstFree(slots: seq<Slot>, i: nat): (k: int)
    requires i <= |slots|
    ensures k == -1 || i <= k < |slots|
    ensures k == -1 <==> forall j :: i <= j < |slots| ==> slots[j].plugin.Some?
    ensures k != -1 ==> slots[k].plugin.None? && forall j :: i <= j < k ==> slots[j].plugin.Some?
    decreases |slots| - i
  {
    if i == |slots| then -1 else if slots[i].plugin.None? then i else FirstFree(slots, i + 1)
  }

  /** The first free slot is taken; a full chain ignores the plugin. */
  function ActivatedUnordered(b: Bridge, id: Id, plugin: Plugin): Bridge {
    var k := FirstFree(b.slots, 0);
    if k == -1 then b
    else Bridge(b.slots[k := Slot(Some(plugin), false)], b.idToSlot[id := k], b.idToPlugin[id := plugin])
  }

  /** Every occupied slot is some id's, and every slotted id's slot holds its plugin. */
  ghost predicate Owned(b: Bridge) {
    && (forall id :: id in b.idToSlot ==>
          b.idToSlot[id] < |b.slots| && id in b.idToPlugin
          && b.slots[b.idToSlot[id]].plugin == Some(b.idToPlugin[id]))
    && (forall x, y :: x in b.idToSlot && y in b.idToSlot && b.idToSlot[x] == b.idToSlot[y] ==> x == y)
    && (forall i :: 0 <= i < |b.slots| && b.slots[i].plugin.Some? ==> HasOwner(b, i))
  }

  ghost predicate HasOwner(b: Bridge, i: nat) {
    exists id :: id in b.idToSlot && b.idToSlot[id] == i
  }

  lemma NewIdOwned(b: Bridge, id: Id, plugin: Plugin, k: nat)
    requires Owned(b) && k < |b.slots| && b.slots[k].plugin.None? && id !in b.idToSlot
    ensures Owned(Bridge(b.slots[k := Slot(Some(plugin), false)], b.idToSlot[id := k], b.idToPlugin[id := plugin]))
  {
    var after := Bridge(b.slots[k := Slot(Some(plugin), false)], b.idToSlot[id := k], b.idToPlugin[id := plugin]);
    forall i | 0 <= i < |after.slots| && after.slots[i].plugin.Some? ensures HasOwner(after, i) {
      if i == k {
        assert after.idToSlot[id] == i;
      } else {
        assert HasOwner(b, i);
        var x :| x in b.idToSlot && b.idToSlot[x] == i;
        assert after.idToSlot[x] == i;
      }
    }
  }

  lemma OldSlotLost(b: Bridge, id: Id, plugin: Plugin, k: nat)
    requires Owned(b) && k < |b.slots| && b.slots[k].plugin.None? && id in b.idToSlot
    ensures !Owned(Bridge(b.slots[k := Slot(Some(plugin), false)], b.idToSlot[id := k], b.idToPlugin[id := plugin]))
  {
    var after := Bridge(b.slots[k := Slot(Some(plugin), false)], b.idToSlot[id := k], b.idToPlugin[id := plugin]);
    var i := b.idToSlot[id];
    assert after.slots[i].plugin.Some?;
    forall x | x in after.idToSlot ensures after.idToSlot[x] != i {
      assert x != id ==> x in b.idToSlot && after.idToSlot[x] == b.idToSlot[x];
    }
    assert !HasOwner(after, i);
  }

  /** Here the table and the slots stay inverse exactly when the chain is full or the
      id was not slotted already: activating a slotted id again leaves its first slot
      occupied with nobody to clear it. */
  lemma UnorderedInverseIff(b: Bridge, id: Id, plugin: Plugin)
    requires Owned(b)
    ensures Owned(ActivatedUnordered(b, id, plugin)) <==> FirstFree(b.slots, 0) == -1 || id !in b.idToSlot
  {
    var k := FirstFree(b.slots, 0);
    if k != -1 {
      if id in b.idToSlot {
        OldSlotLost(b, id, plugin, k);
      } else {
        NewIdOwned(b, id, plugin, k);
      }
    }
  }
}
