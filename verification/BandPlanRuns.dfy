/** Whole runs of the band-plan service: region changes, saved and reset overrides, and
    restarts. */
module BandPlanRuns {
  import opened Seqs
  import opened BandPlan

  const FALLBACK: Region := Region("IARU_R1", None)

  /** The region a service starts with: the saved one if known, else the first, else a
      built-in one. */
  function StartRegion(regions: seq<Region>, saved: Id): Region {
    var r := Find(regions, saved);
    if r.Some? then r.value else if regions != [] then regions[0] else FALLBACK
  }

  /** `raised` counts the plan-changed notifications. */
  datatype State = State(store: Store, saved: Id, current: Region, plan: seq<Segment>, raised: nat)

  function Started(store: Store, saved: Id): State {
    var region := StartRegion(store.regions, saved);
    State(store, saved, region, Resolve(store, region.id), 0)
  }

  datatype Op = SetRegion(id: Id) | SavePlan(id: Id, segments: seq<Segment>) | ResetPlan(id: Id) | Restart

  function Saved(store: Store, id: Id, segments: seq<Segment>): Store {
    store.(overrides := store.overrides[id := Doc.Saved(segments)])
  }

  function Reset(store: Store, id: Id): Store {
    store.(overrides := store.overrides - {id})
  }

  /** The plan is recomputed only when the changed region is the active one or one of
      its ancestors. */
  function Refreshed(s: State, store: Store, changed: Id): State {
    if changed in Chain(store.regions, s.current.id)
    then s.(store := store, plan := Resolve(store, s.current.id), raised := s.raised + 1)
    else s.(store := store)
  }

  ghost function Next(s: State, op: Op): State {
    match op
    case SetRegion(id) =>
      var region := Find(s.store.regions, id);
      if region.None? then s
      else State(s.store, id, region.value, Resolve(s.store, id), s.raised + 1)
    case SavePlan(id, segments) =>
      if Validated(segments) then Refreshed(s, Saved(s.store, id, segments), id) else s
    case ResetPlan(id) => Refreshed(s, Reset(s.store, id), id)
    case Restart => Started(s.store, s.saved)
  }

  ghost predicate Inv(s: State) {
    && s.plan == Resolve(s.store, s.current.id)
    && s.current == StartRegion(s.store.regions, s.saved)
  }

  /** The stores agree on every region of the chain. */
  lemma {:induction false} StreamDependsOnChain(a: Store, b: Store, chain: seq<Id>)
    requires forall id :: id in chain ==> SegmentsOf(a, id) == SegmentsOf(b, id)
    ensures Stream(a, chain) == Stream(b, chain)
  {
    if chain != [] {
      StreamDependsOnChain(a, b, chain[1..]);
    }
  }

  /** A plan depends only on the regions of its chain, so changing another region's
      override leaves it as it was. */
  lemma UnrelatedChange(a: Store, b: Store, changed: Id, id: Id)
    requires a.regions == b.regions && a.shipped == b.shipped
    requires forall k :: k != changed ==> SegmentsOf(a, k) == SegmentsOf(b, k)
    requires changed !in Chain(a.regions, id)
    ensures Resolve(a, id) == Resolve(b, id)
  {
    StreamDependsOnChain(a, b, Chain(a.regions, id));
  }

  lemma NextInv(s: State, op: Op)
    requires Inv(s)
    ensures Inv(Next(s, op))
  {
    match op
    case SavePlan(id, segments) =>
      if id !in Chain(s.store.regions, s.current.id) {
        UnrelatedChange(s.store, Saved(s.store, id, segments), id, s.current.id);
      }
    case ResetPlan(id) =>
      if id !in Chain(s.store.regions, s.current.id) {
        UnrelatedChange(s.store, Reset(s.store, id), id, s.current.id);
      }
    case _ =>
  }

  ghost function Run(s: State, ops: seq<Op>): State
    decreases |ops|
  {
    if ops == [] then s else Run(Next(s, ops[0]), ops[1..])
  }

  /** After any sequence of requests and restarts, the cached plan is what resolving
      the current region afresh would give. */
  lemma {:induction false} CacheIsFresh(s: State, ops: seq<Op>)
    requires Inv(s)
    ensures Inv(Run(s, ops))
    ensures Run(s, ops).plan == Resolve(Run(s, ops).store, Run(s, ops).current.id)
    decreases |ops|
  {
    if ops != [] {
      NextInv(s, ops[0]);
      CacheIsFresh(Next(s, ops[0]), ops[1..]);
    }
  }

  /** The notification goes out once for a known region that is selected, and for an accepted
      save or a reset of the active region or an ancestor; so whenever the plan changes. */
  lemma ChangesAreAnnounced(s: State, op: Op)
    requires Inv(s) && !op.Restart?
    ensures Next(s, op).plan != s.plan ==> Next(s, op).raised > s.raised
    ensures Next(s, op).raised ==
            if (op.SetRegion? && Known(s.store.regions, op.id))
               || (op.SavePlan? && FirstProblem(op.segments, 0).None? && op.id in Chain(s.store.regions, s.current.id))
               || (op.ResetPlan? && op.id in Chain(s.store.regions, s.current.id))
            then s.raised + 1 else s.raised
  {
    if op.SetRegion? {
      FindMeaning(s.store.regions, op.id);
    }
    AnnouncedChange(s, op);
  }

  lemma AnnouncedChange(s: State, op: Op)
    requires Inv(s) && !op.Restart?
    ensures Next(s, op).plan != s.plan ==> Next(s, op).raised > s.raised
  {
  }

  /** A restart brings back the same region and the same plan. */
  lemma RestartKeepsPlan(s: State)
    requires Inv(s)
    ensures Next(s, Restart).current == s.current && Next(s, Restart).plan == s.plan
  {
  }

  ghost predicate ShippedProper(st: Store) {
    forall id :: Proper(Shipped(st, id))
  }

  /** Validation on the way in keeps every stored segment proper. */
  lemma {:induction false} StaysProper(s: State, ops: seq<Op>)
    requires StoreProper(s.store) && ShippedProper(s.store)
    ensures StoreProper(Run(s, ops).store)
    decreases |ops|
  {
    if ops != [] {
      var s' := Next(s, ops[0]);
      forall id ensures Proper(SegmentsOf(s'.store, id)) && Shipped(s'.store, id) == Shipped(s.store, id) {
        assert Proper(SegmentsOf(s.store, id)) && Proper(Shipped(s.store, id));
        if ops[0].SavePlan? && Validated(ops[0].segments) && id == ops[0].id {
          ValidatedOrdered(ops[0].segments);
        }
      }
      StaysProper(s', ops[1..]);
    }
  }

  /** So in every reachable state the cached plan has the shape the search relies on. */
  lemma EveryPlanOrdered(store: Store, saved: Id, ops: seq<Op>)
    requires StoreProper(store) && ShippedProper(store)
    ensures var s := Run(Started(store, saved), ops);
            s.plan == Resolve(s.store, s.current.id) && Ordered(s.plan)
  {
    CacheIsFresh(Started(store, saved), ops);
    StaysProper(Started(store, saved), ops);
    ResolvedPlan(Run(Started(store, saved), ops).store, Run(Started(store, saved), ops).current.id);
  }

  /** What the operator's requests leave as a region's own segments: the last accepted
      save since the last reset, the shipped ones after a reset, and before either
      what there was. */
  function OwnSegments(ops: seq<Op>, id: Id, before: seq<Segment>, shipped: seq<Segment>): seq<Segment>
    decreases |ops|
  {
    if ops == [] then before
    else
      var op := ops[0];
      var now :=
        if op.SavePlan? && op.id == id && FirstProblem(op.segments, 0).None? then op.segments
        else if op.ResetPlan? && op.id == id then shipped
        else before;
      OwnSegments(ops[1..], id, now, shipped)
  }

  /** Over any run, restarts included, the store answers for a region with exactly those:
      an override shadows the shipped segments, a reset brings them back, and no request
      about one region touches another. */
  lemma {:induction false} StoreAnswersLastSave(s: State, ops: seq<Op>, id: Id)
    ensures SegmentsOf(Run(s, ops).store, id) == OwnSegments(ops, id, SegmentsOf(s.store, id), Shipped(s.store, id))
    decreases |ops|
  {
    if ops != [] {
      OneAnswer(s, ops[0], id);
      StoreAnswersLastSave(Next(s, ops[0]), ops[1..], id);
    }
  }

  lemma OneAnswer(s: State, op: Op, id: Id)
    ensures var st := Next(s, op).store;
            && Shipped(st, id) == Shipped(s.store, id)
            && SegmentsOf(st, id) ==
               if op.SavePlan? && op.id == id && FirstProblem(op.segments, 0).None? then op.segments
               else if op.ResetPlan? && op.id == id then Shipped(s.store, id)
               else SegmentsOf(s.store, id)
  {
  }

  predicate Known(regions: seq<Region>, id: Id) {
    exists j :: 0 <= j < |regions| && regions[j].id == id
  }

  /** The last known region the operator selected, or the one before. */
  function LastSelected(regions: seq<Region>, ops: seq<Op>, before: Id): Id
    decreases |ops|
  {
    if ops == [] then before
    else LastSelected(regions, ops[1..], if ops[0].SetRegion? && Known(regions, ops[0].id) then ops[0].id else before)
  }

  /** Over any run, saves, resets and restarts included, the active region is the last
      known one that was selected. */
  lemma {:induction false} ActiveIsLastSelected(s: State, ops: seq<Op>)
    requires Inv(s)
    ensures Run(s, ops).store.regions == s.store.regions
    ensures Run(s, ops).current.id == LastSelected(s.store.regions, ops, s.current.id)
    decreases |ops|
  {
    if ops != [] {
      NextInv(s, ops[0]);
      if ops[0].SetRegion? {
        FindMeaning(s.store.regions, ops[0].id);
      }
      ActiveIsLastSelected(Next(s, ops[0]), ops[1..]);
    }
  }

  /** A service starts with the saved region when there is one with that id, else with
      the first, else with the built-in one. */
  lemma StartMeaning(store: Store, saved: Id)
    ensures var current, regions := Started(store, saved).current, store.regions;
            && (Known(regions, saved) ==> current.id == saved && current in regions)
            && (!Known(regions, saved) && regions != [] ==> current == regions[0])
            && (regions == [] ==> current == Region("IARU_R1", None))
  {
    FindMeaning(store.regions, saved);
  }

  /** Resetting a region that had no override before it was saved undoes the save. */
  lemma ResetUndoesSave(s: State, id: Id, segments: seq<Segment>)
    requires Inv(s) && id !in s.store.overrides
    ensures var s' := Next(Next(s, SavePlan(id, segments)), ResetPlan(id));
            s'.store == s.store && s'.plan == s.plan && s'.current == s.current
  {
    var s1 := Next(s, SavePlan(id, segments));
    NextInv(s, SavePlan(id, segments));
    NextInv(s1, ResetPlan(id));
    OverridesAfter(s, id, segments);
    OverridesAfter(s1, id, segments);
    assert Reset(s1.store, id).overrides == s.store.overrides;
  }

  lemma OverridesAfter(s: State, id: Id, segments: seq<Segment>)
    ensures var s' := Next(s, SavePlan(id, segments));
            && s'.store == (if Validated(segments) then Saved(s.store, id, segments) else s.store)
            && s'.current == s.current
    ensures Next(s, ResetPlan(id)).store == Reset(s.store, id) && Next(s, ResetPlan(id)).current == s.current
  {
  }
}
