/** Band-plan requests that overlap. Each request resolves a plan at one moment and
    stores it at a later one; the steps of any number of requests interleave freely. */
module BandPlanOverlaps {
  import opened Seqs
  import opened BandPlan
  import opened BandPlanRuns

  // ---- Changes of the store ------------------------------------------------

  datatype Change = Save(id: Id, segments: seq<Segment>) | Delete(id: Id)

  function Applied(store: Store, change: Change): Store {
    match change
    case Save(id, segments) => BandPlanRuns.Saved(store, id, segments)
    case Delete(id) => Reset(store, id)
  }

  function After(store: Store, changes: seq<Change>): Store {
    if changes == [] then store else Applied(After(store, changes[..|changes| - 1]), changes[|changes| - 1])
  }

  lemma {:induction false} AfterFrame(store: Store, changes: seq<Change>)
    ensures After(store, changes).regions == store.regions && After(store, changes).shipped == store.shipped
  {
    if changes != [] {
      AfterFrame(store, changes[..|changes| - 1]);
    }
  }

  lemma AfterSnoc(store: Store, changes: seq<Change>, change: Change)
    ensures After(store, changes + [change]) == Applied(After(store, changes), change)
  {
    assert (changes + [change])[..|changes|] == changes;
  }

  lemma {:induction false} AfterSplit(store: Store, changes: seq<Change>, at: nat)
    requires at <= |changes|
    ensures After(store, changes) == After(After(store, changes[..at]), changes[at..])
    decreases |changes|
  {
    if at == |changes| {
      assert changes[..at] == changes && changes[at..] == [];
    } else {
      var n := |changes| - 1;
      AfterSplit(store, changes[..n], at);
      assert changes[..n][..at] == changes[..at] && changes[..n][at..] == changes[at..][..|changes[at..]| - 1];
    }
  }

  predicate Touches(changes: seq<Change>, id: Id) {
    exists k :: 0 <= k < |changes| && changes[k].id == id
  }

  /** None of the changes is to a region on the chain. */
  predicate LeavesAlone(changes: seq<Change>, chain: seq<Id>) {
    forall k :: 0 <= k < |changes| ==> changes[k].id !in chain
  }

  lemma {:induction false} UntouchedSegments(store: Store, changes: seq<Change>, id: Id)
    requires forall k :: 0 <= k < |changes| ==> changes[k].id != id
    ensures SegmentsOf(After(store, changes), id) == SegmentsOf(store, id)
  {
    if changes != [] {
      var n := |changes| - 1;
      assert changes[n].id != id;
      UntouchedSegments(store, changes[..n], id);
      AfterFrame(store, changes[..n]);
    }
  }

  lemma LeftAloneResolves(store: Store, changes: seq<Change>, id: Id)
    requires LeavesAlone(changes, Chain(store.regions, id))
    ensures Resolve(After(store, changes), id) == Resolve(store, id)
  {
    AfterFrame(store, changes);
    forall r | r in Chain(store.regions, id) ensures SegmentsOf(After(store, changes), r) == SegmentsOf(store, r) {
      UntouchedSegments(store, changes, r);
    }
    StreamDependsOnChain(After(store, changes), store, Chain(store.regions, id));
  }

  // ---- When a late plan is right -------------------------------------------

  /** The same requests for the same regions; only what they save may differ. */
  predicate SameShape(a: seq<Change>, b: seq<Change>) {
    |a| == |b| && forall k :: 0 <= k < |a| ==> a[k].id == b[k].id && a[k].Save? == b[k].Save?
  }

  ghost predicate AllValidated(changes: seq<Change>) {
    forall k :: 0 <= k < |changes| ==> changes[k].Save? ==> Validated(changes[k].segments)
  }

  /** A plan resolved for `resolved` before the changes is right for `current` after
      them, whatever the stores hold and the requests save. */
  ghost predicate AlwaysRight(regions: seq<Region>, shape: seq<Change>, resolved: Id, current: Id) {
    forall store: Store, changes: seq<Change> ::
      store.regions == regions && StoreProper(store) && SameShape(changes, shape) && AllValidated(changes) ==>
        Resolve(After(store, changes), current) == Resolve(store, resolved)
  }

  /** Exactly when it was resolved for the region that is current at the end and no
      request in between saved or reset a region on that region's chain. */
  lemma LateLandingIff(regions: seq<Region>, shape: seq<Change>, resolved: Id, current: Id)
    ensures AlwaysRight(regions, shape, resolved, current) <==>
            resolved == current && LeavesAlone(shape, Chain(regions, resolved))
  {
    if resolved != current {
      OtherRegionWrong(regions, shape, resolved, current);
    } else if !LeavesAlone(shape, Chain(regions, resolved)) {
      var k :| 0 <= k < |shape| && shape[k].id in Chain(regions, resolved);
      TouchedWrong(regions, shape, resolved, shape[k].id);
    } else {
      forall store: Store, changes: seq<Change>
        | store.regions == regions && StoreProper(store) && SameShape(changes, shape) && AllValidated(changes)
        ensures Resolve(After(store, changes), current) == Resolve(store, resolved)
      {
        LeftAloneResolves(store, changes, resolved);
      }
    }
  }

  const ONE := Segment(0, 1, "one", "")
  const TWO := Segment(0, 1, "two", "")

  lemma SingleValidated(s: Segment)
    requires s == ONE || s == TWO
    ensures Validated([s]) && Proper([s])
  {
    assert !White(s.title[0]);
    ValidatedOrdered([s]);
  }

  /** The shape with every save of `id` saving `content[id]`, and the others nothing. */
  function Filled(shape: seq<Change>, content: map<Id, seq<Segment>>): (changes: seq<Change>)
    ensures SameShape(changes, shape)
    ensures forall k :: 0 <= k < |changes| && changes[k].Save? ==>
              changes[k].segments == if changes[k].id in content then content[changes[k].id] else []
  {
    if shape == [] then []
    else
      var n, c := |shape| - 1, shape[|shape| - 1];
      Filled(shape[..n], content)
      + [if c.Delete? then c else Save(c.id, if c.id in content then content[c.id] else [])]
  }

  /** When the shipped segments are what everyone saves, nothing ever changes. */
  lemma {:induction false} SteadySegments(store: Store, changes: seq<Change>, id: Id, own: seq<Segment>)
    requires Shipped(store, id) == own && SegmentsOf(store, id) == own
    requires forall k :: 0 <= k < |changes| && changes[k].id == id && changes[k].Save? ==> changes[k].segments == own
    ensures SegmentsOf(After(store, changes), id) == own
  {
    if changes != [] {
      var n := |changes| - 1;
      SteadySegments(store, changes[..n], id, own);
      AfterFrame(store, changes[..n]);
      assert changes[n].id == id && changes[n].Save? ==> changes[n].segments == own;
    }
  }

  /** Two regions with overlapping segments of their own never have the same plan. */
  lemma OtherRegionWrong(regions: seq<Region>, shape: seq<Change>, resolved: Id, current: Id)
    requires resolved != current
    ensures !AlwaysRight(regions, shape, resolved, current)
  {
    var content := map[resolved := [ONE], current := [TWO]];
    var store := Store(regions, content, map[]);
    var changes := Filled(shape, content);
    SingleValidated(ONE);
    SingleValidated(TWO);
    FilledValidated(shape, content);
    assert StoreProper(store) by {
      forall id ensures Proper(SegmentsOf(store, id)) {
      }
    }
    SteadySegments(store, changes, current, [TWO]);
    AfterFrame(store, changes);
    LeafSurvives(store, resolved, 0);
    LeafSurvives(After(store, changes), current, 0);
    OnlyOneOf(After(store, changes), current);
    WrongFor(store, shape, changes, resolved, current);
  }

  lemma WrongFor(store: Store, shape: seq<Change>, changes: seq<Change>, resolved: Id, current: Id)
    requires StoreProper(store) && SameShape(changes, shape) && AllValidated(changes)
    requires Resolve(After(store, changes), current) != Resolve(store, resolved)
    ensures !AlwaysRight(store.regions, shape, resolved, current)
  {
  }

  lemma FilledValidated(shape: seq<Change>, content: map<Id, seq<Segment>>)
    requires forall id :: id in content ==> Validated(content[id])
    ensures AllValidated(Filled(shape, content))
  {
  }

  lemma OnlyOneOf(store: Store, id: Id)
    requires TWO in Resolve(store, id)
    ensures ONE !in Resolve(store, id)
  {
    ResolvedPlan(store, id);
    var plan := Resolve(store, id);
    var j :| 0 <= j < |plan| && plan[j] == TWO;
    forall i | 0 <= i < |plan| && i != j ensures plan[i] != ONE {
      assert !Overlaps(plan[if i < j then i else j], plan[if i < j then j else i]);
    }
    assert plan[j].title != ONE.title;
  }

  /** The last change to the region is a save. */
  predicate EndsSaved(changes: seq<Change>, id: Id) {
    changes != []
    && var last := changes[|changes| - 1]; if last.id == id then last.Save? else EndsSaved(changes[..|changes| - 1], id)
  }

  lemma {:induction false} EndsSavedShape(a: seq<Change>, b: seq<Change>, id: Id)
    requires SameShape(a, b)
    ensures EndsSaved(a, id) == EndsSaved(b, id)
  {
    if a != [] {
      var n := |a| - 1;
      assert a[n].id == b[n].id && a[n].Save? == b[n].Save?;
      EndsSavedShape(a[..n], b[..n], id);
    }
  }

  /** A touched region ends with what was saved for it, or with the shipped segments. */
  lemma {:induction false} TouchedSegments(store: Store, changes: seq<Change>, id: Id, own: seq<Segment>)
    requires Touches(changes, id)
    requires forall k :: 0 <= k < |changes| && changes[k].id == id && changes[k].Save? ==> changes[k].segments == own
    ensures SegmentsOf(After(store, changes), id) == if EndsSaved(changes, id) then own else Shipped(store, id)
  {
    var n := |changes| - 1;
    AfterFrame(store, changes[..n]);
    if changes[n].id == id {
      assert changes[n].Save? ==> changes[n].segments == own;
    } else {
      var k :| 0 <= k < |changes| && changes[k].id == id;
      assert changes[..n][k].id == id;
      TouchedSegments(store, changes[..n], id, own);
    }
  }

  /** Only one region has anything, and only the one segment. */
  ghost predicate OnlyOneAt(store: Store, id: Id) {
    SegmentsOf(store, id) == [ONE] && forall other :: other != id ==> SegmentsOf(store, other) == []
  }

  ghost predicate Empty(store: Store) {
    forall id :: SegmentsOf(store, id) == []
  }

  lemma {:induction false} StreamOfOne(store: Store, chain: seq<Id>, id: Id)
    requires OnlyOneAt(store, id)
    ensures forall s :: s in Stream(store, chain) ==> s == ONE
    ensures id in chain ==> Stream(store, chain) != []
  {
    if chain != [] {
      StreamOfOne(store, chain[1..], id);
    }
  }

  lemma {:induction false} StreamOfNone(store: Store, chain: seq<Id>)
    requires Empty(store)
    ensures Stream(store, chain) == []
  {
    if chain != [] {
      StreamOfNone(store, chain[1..]);
    }
  }

  lemma OneResolved(store: Store, resolved: Id, id: Id)
    requires OnlyOneAt(store, id) && id in Chain(store.regions, resolved)
    ensures ONE in Resolve(store, resolved)
  {
    var stream := Stream(store, Chain(store.regions, resolved));
    StreamOfOne(store, Chain(store.regions, resolved), id);
    var k := |stream| - 1;
    assert stream[k] in stream && Survives(stream, k);
    PlanMember(store, resolved, ONE);
  }

  lemma NothingResolved(store: Store, resolved: Id)
    requires Empty(store)
    ensures ONE !in Resolve(store, resolved)
  {
    StreamOfNone(store, Chain(store.regions, resolved));
    PlanMember(store, resolved, ONE);
  }

  /** A region on the chain was saved or reset in between: it may have gained its only
      segment, or lost it. */
  lemma TouchedWrong(regions: seq<Region>, shape: seq<Change>, resolved: Id, id: Id)
    requires Touches(shape, id) && id in Chain(regions, resolved)
    ensures !AlwaysRight(regions, shape, resolved, resolved)
  {
    if EndsSaved(shape, id) {
      GainedWrong(regions, shape, resolved, id);
    } else {
      LostWrong(regions, shape, resolved, id);
    }
  }

  lemma GainedWrong(regions: seq<Region>, shape: seq<Change>, resolved: Id, id: Id)
    requires Touches(shape, id) && id in Chain(regions, resolved) && EndsSaved(shape, id)
    ensures !AlwaysRight(regions, shape, resolved, resolved)
  {
    var content, store := map[id := [ONE]], Store(regions, map[], map[]);
    var changes := Filled(shape, content);
    SingleValidated(ONE);
    FilledValidated(shape, content);
    FilledAt(store, shape, id, [ONE]);
    NothingResolved(store, resolved);
    OneResolved(After(store, changes), resolved, id);
    WrongFor(store, shape, changes, resolved, resolved);
  }

  lemma LostWrong(regions: seq<Region>, shape: seq<Change>, resolved: Id, id: Id)
    requires Touches(shape, id) && id in Chain(regions, resolved) && !EndsSaved(shape, id)
    ensures !AlwaysRight(regions, shape, resolved, resolved)
  {
    var store := Store(regions, map[], map[id := Doc.Saved([ONE])]);
    var changes := Filled(shape, map[id := []]);
    SingleValidated(ONE);
    FilledValidated(shape, map[id := []]);
    HoldsOne(store, id);
    OneResolved(store, resolved, id);
    FilledAt(store, shape, id, []);
    NothingResolved(After(store, changes), resolved);
    WrongFor(store, shape, changes, resolved, resolved);
  }

  lemma HoldsOne(store: Store, id: Id)
    requires store.shipped == map[] && store.overrides == map[id := Doc.Saved([ONE])]
    ensures OnlyOneAt(store, id) && StoreProper(store)
  {
    SingleValidated(ONE);
  }

  /** Every save of `id` saves `own` and every other save nothing. */
  lemma FilledAt(store: Store, shape: seq<Change>, id: Id, own: seq<Segment>)
    requires Touches(shape, id) && store.shipped == map[]
    requires forall other :: other != id ==> SegmentsOf(store, other) == []
    ensures var after := After(store, Filled(shape, map[id := own]));
            && after.regions == store.regions
            && SegmentsOf(after, id) == (if EndsSaved(shape, id) then own else [])
            && forall other :: other != id ==> SegmentsOf(after, other) == []
  {
    AfterFrame(store, Filled(shape, map[id := own]));
    FilledTouched(store, shape, id, own);
    forall other | other != id ensures SegmentsOf(After(store, Filled(shape, map[id := own])), other) == [] {
      FilledElsewhere(store, shape, id, own, other);
    }
  }

  lemma FilledTouched(store: Store, shape: seq<Change>, id: Id, own: seq<Segment>)
    requires Touches(shape, id) && store.shipped == map[]
    ensures SegmentsOf(After(store, Filled(shape, map[id := own])), id) == if EndsSaved(shape, id) then own else []
  {
    var changes := Filled(shape, map[id := own]);
    EndsSavedShape(changes, shape, id);
    TouchesShape(changes, shape, id);
    TouchedSegments(store, changes, id, own);
  }

  lemma FilledElsewhere(store: Store, shape: seq<Change>, id: Id, own: seq<Segment>, other: Id)
    requires other != id && store.shipped == map[] && SegmentsOf(store, other) == []
    ensures SegmentsOf(After(store, Filled(shape, map[id := own])), other) == []
  {
    SteadySegments(store, Filled(shape, map[id := own]), other, []);
  }

  lemma TouchesShape(a: seq<Change>, b: seq<Change>, id: Id)
    requires SameShape(a, b) && Touches(b, id)
    ensures Touches(a, id)
  {
    var k :| 0 <= k < |b| && b[k].id == id;
    assert a[k].id == id;
  }

  // ---- The steps of overlapping requests -----------------------------------

  /** Where a request stands. `at` says how many changes the store had seen when the plan
      was resolved. */
  datatype Call =
    | Choosing(region: Region)                               // region found
    | Chosen(region: Region, plan: seq<Segment>, at: nat)    // its plan resolved
    | Remembering(id: Id)                                    // region and plan stored
    | Changed(id: Id)                                        // override saved or deleted
    | Reading(current: Id)                                   // the active region found affected
    | Read(current: Id, plan: seq<Segment>, at: nat)         // its plan resolved
    | Done

  /** The service with the changes its store has seen since `start`, and every request
      made so far. */
  datatype Desk = Desk(state: State, start: Store, history: seq<Change>, calls: seq<Call>)

  datatype Step =
    | BeginSelect(id: Id)
    | BeginSave(id: Id, segments: seq<Segment>)
    | BeginReset(id: Id)
    | LookUp(k: nat)
    | ResolveFor(k: nat)
    | Land(k: nat)
    | Remember(k: nat)

  function Opened(state: State): Desk {
    Desk(state, state.store, [], [])
  }

  function Changing(d: Desk, change: Change): Desk {
    Desk(d.state.(store := Applied(d.state.store, change)), d.start, d.history + [change], d.calls + [Changed(change.id)])
  }

  function LookedUp(d: Desk, k: nat): Desk
    requires k < |d.calls|
  {
    var current := d.state.current.id;
    if !d.calls[k].Changed? then d
    else d.(calls := d.calls[k := if d.calls[k].id in Chain(d.state.store.regions, current) then Reading(current) else Done])
  }

  function ResolvedFor(d: Desk, k: nat): Desk
    requires k < |d.calls|
  {
    match d.calls[k]
    case Choosing(region) => d.(calls := d.calls[k := Chosen(region, Resolve(d.state.store, region.id), |d.history|)])
    case Reading(current) => d.(calls := d.calls[k := Read(current, Resolve(d.state.store, current), |d.history|)])
    case _ => d
  }

  function Landed(d: Desk, k: nat): Desk
    requires k < |d.calls|
  {
    match d.calls[k]
    case Chosen(region, plan, _) =>
      d.(state := d.state.(current := region, plan := plan), calls := d.calls[k := Remembering(region.id)])
    case Read(_, plan, _) =>
      d.(state := d.state.(plan := plan, raised := d.state.raised + 1), calls := d.calls[k := Done])
    case _ => d
  }

  function Remembered(d: Desk, k: nat): Desk
    requires k < |d.calls|
  {
    if d.calls[k].Remembering?
    then d.(state := d.state.(saved := d.calls[k].id, raised := d.state.raised + 1), calls := d.calls[k := Done])
    else d
  }

  ghost function Next(d: Desk, q: Step): Desk {
    match q
    case BeginSelect(id) =>
      var region := Find(d.state.store.regions, id);
      if region.None? then d else d.(calls := d.calls + [Choosing(region.value)])
    case BeginSave(id, segments) => if Validated(segments) then Changing(d, Save(id, segments)) else d
    case BeginReset(id) => Changing(d, Delete(id))
    case LookUp(k) => if k < |d.calls| then LookedUp(d, k) else d
    case ResolveFor(k) => if k < |d.calls| then ResolvedFor(d, k) else d
    case Land(k) => if k < |d.calls| then Landed(d, k) else d
    case Remember(k) => if k < |d.calls| then Remembered(d, k) else d
  }

  ghost function Run(d: Desk, steps: seq<Step>): Desk {
    if steps == [] then d else Next(Run(d, steps[..|steps| - 1]), steps[|steps| - 1])
  }

  /** One request with nothing in between is the request as a whole. */
  lemma SelectAlone(s: State, id: Id)
    requires Find(s.store.regions, id).Some?
    ensures var chosen := Next(Next(Opened(s), BeginSelect(id)), ResolveFor(0));
            Next(Next(chosen, Land(0)), Remember(0)).state == BandPlanRuns.Next(s, SetRegion(id))
  {
  }

  lemma SaveAlone(s: State, id: Id, segments: seq<Segment>)
    ensures var read := Next(Next(Next(Opened(s), BeginSave(id, segments)), LookUp(0)), ResolveFor(0));
            Next(read, Land(0)).state == BandPlanRuns.Next(s, SavePlan(id, segments))
  {
    if Validated(segments) {
      ChangeAlone(s, Save(id, segments));
    }
  }

  lemma ResetAlone(s: State, id: Id)
    ensures var read := Next(Next(Next(Opened(s), BeginReset(id)), LookUp(0)), ResolveFor(0));
            Next(read, Land(0)).state == BandPlanRuns.Next(s, ResetPlan(id))
  {
    ChangeAlone(s, Delete(id));
  }

  lemma ChangeAlone(s: State, change: Change)
    ensures Landed(ResolvedFor(LookedUp(Changing(Opened(s), change), 0), 0), 0).state
            == Refreshed(s, Applied(s.store, change), change.id)
  {
    var c := Changing(Opened(s), change);
    var l := LookedUp(c, 0);
    assert c.calls == [Changed(change.id)];
    if change.id in Chain(s.store.regions, s.current.id) {
      assert l.calls == [Reading(s.current.id)];
    } else {
      assert l.calls == [Done];
    }
  }

  // ---- Every interleaving --------------------------------------------------

  /** A resolved plan is what the store gave at its moment. */
  predicate CallOk(d: Desk, call: Call) {
    match call
    case Chosen(region, plan, at) => at <= |d.history| && plan == Resolve(After(d.start, d.history[..at]), region.id)
    case Read(current, plan, at) => at <= |d.history| && plan == Resolve(After(d.start, d.history[..at]), current)
    case _ => true
  }

  ghost predicate Tracked(d: Desk) {
    && d.state.store == After(d.start, d.history)
    && forall k :: 0 <= k < |d.calls| ==> CallOk(d, d.calls[k])
  }

  predicate IsFresh(s: State) {
    s.plan == Resolve(s.store, s.current.id)
  }

  /** The request will still store a plan for the active region. */
  predicate Owes(d: Desk, call: Call) {
    match call
    case Changed(id) => id in Chain(d.state.store.regions, d.state.current.id)
    case Reading(current) => current == d.state.current.id
    case Read(current, _, _) => current == d.state.current.id
    case _ => false
  }

  ghost predicate SomeOwes(d: Desk) {
    exists k :: 0 <= k < |d.calls| && Owes(d, d.calls[k])
  }

  /** The cached plan is fresh, or a request is on its way to refresh it. */
  ghost predicate Settled(d: Desk) {
    Tracked(d) && (IsFresh(d.state) || SomeOwes(d))
  }

  /** The step stores a plan resolved for another region than the one then active, or
      before a change to a region on its chain. */
  predicate LandsLate(d: Desk, q: Step) {
    q.Land? && q.k < |d.calls|
    && match d.calls[q.k]
       case Chosen(region, _, at) =>
         at <= |d.history| && !LeavesAlone(d.history[at..], Chain(d.state.store.regions, region.id))
       case Read(current, _, at) =>
         at <= |d.history| && (current != d.state.current.id || !LeavesAlone(d.history[at..], Chain(d.state.store.regions, current)))
       case _ => false
  }

  ghost predicate NoneLate(d: Desk, steps: seq<Step>) {
    steps == [] || (NoneLate(d, steps[..|steps| - 1]) && !LandsLate(Run(d, steps[..|steps| - 1]), steps[|steps| - 1]))
  }

  lemma TrackedRegions(d: Desk, at: nat)
    requires Tracked(d) && at <= |d.history|
    ensures After(d.start, d.history[..at]).regions == d.state.store.regions
    ensures After(After(d.start, d.history[..at]), d.history[at..]) == d.state.store
  {
    AfterFrame(d.start, d.history[..at]);
    AfterFrame(d.start, d.history);
    AfterSplit(d.start, d.history, at);
  }

  lemma ChangingTracked(d: Desk, change: Change)
    requires Tracked(d)
    ensures Tracked(Changing(d, change))
  {
    AfterSnoc(d.start, d.history, change);
    var z := Changing(d, change);
    forall k | 0 <= k < |z.calls| ensures CallOk(z, z.calls[k]) {
      if k < |d.calls| {
        assert CallOk(d, d.calls[k]);
        SamePrefixes(d.history, change, z.calls[k]);
      }
    }
  }

  lemma SamePrefixes(history: seq<Change>, change: Change, call: Call)
    ensures call.Chosen? && call.at <= |history| ==> (history + [change])[..call.at] == history[..call.at]
    ensures call.Read? && call.at <= |history| ==> (history + [change])[..call.at] == history[..call.at]
  {
  }

  /** A late plan that is not late after all is right. */
  lemma LandedFresh(d: Desk, k: nat)
    requires Tracked(d) && k < |d.calls| && (d.calls[k].Chosen? || d.calls[k].Read?) && !LandsLate(d, Land(k))
    ensures IsFresh(Landed(d, k).state) && Tracked(Landed(d, k))
  {
    assert CallOk(d, d.calls[k]);
    var at := d.calls[k].at;
    TrackedRegions(d, at);
    LeftAloneResolves(After(d.start, d.history[..at]), d.history[at..],
                      if d.calls[k].Chosen? then d.calls[k].region.id else d.calls[k].current);
  }

  lemma NextTracked(d: Desk, q: Step)
    requires Tracked(d)
    ensures Tracked(Next(d, q))
  {
    match q
    case BeginSave(id, segments) =>
      if Validated(segments) {
        ChangingTracked(d, Save(id, segments));
      }
    case BeginReset(id) => ChangingTracked(d, Delete(id));
    case ResolveFor(k) => assert d.history[..|d.history|] == d.history;
    case _ =>
  }

  lemma ChangingSettled(d: Desk, change: Change)
    requires Settled(d)
    ensures Settled(Changing(d, change))
  {
    ChangingTracked(d, change);
    var z, r := Changing(d, change), d.state.current.id;
    if change.id in Chain(d.state.store.regions, r) {
      assert Owes(z, z.calls[|d.calls|]);
    } else if IsFresh(d.state) {
      LeftAloneResolves(d.state.store, [change], r);
      assert After(d.state.store, [change]) == Applied(After(d.state.store, []), change);
    } else {
      var k :| 0 <= k < |d.calls| && Owes(d, d.calls[k]);
      assert Owes(z, z.calls[k]);
    }
  }

  /** A call that moves on without forgetting what it owes leaves things settled. */
  lemma MovedSettled(d: Desk, k: nat, call: Call)
    requires Settled(d) && k < |d.calls| && (Owes(d, d.calls[k]) ==> Owes(d, call))
    requires Tracked(d.(calls := d.calls[k := call]))
    ensures Settled(d.(calls := d.calls[k := call]))
  {
    if SomeOwes(d) {
      var j :| 0 <= j < |d.calls| && Owes(d, d.calls[j]);
      var z := d.(calls := d.calls[k := call]);
      assert Owes(z, z.calls[j]);
    }
  }

  lemma SelectSettled(d: Desk, id: Id)
    requires Settled(d)
    ensures Settled(Next(d, BeginSelect(id)))
  {
    NextTracked(d, BeginSelect(id));
    if SomeOwes(d) {
      var k :| 0 <= k < |d.calls| && Owes(d, d.calls[k]);
      assert Owes(Next(d, BeginSelect(id)), Next(d, BeginSelect(id)).calls[k]);
    }
  }

  lemma RememberSettled(d: Desk, k: nat)
    requires Settled(d) && k < |d.calls| && d.calls[k].Remembering?
    ensures Settled(Remembered(d, k))
  {
    NextTracked(d, Remember(k));
    if SomeOwes(d) {
      var j :| 0 <= j < |d.calls| && Owes(d, d.calls[j]);
      assert Owes(Remembered(d, k), Remembered(d, k).calls[j]);
    }
  }

  lemma NextSettled(d: Desk, q: Step)
    requires Settled(d) && !LandsLate(d, q)
    ensures Settled(Next(d, q))
  {
    NextTracked(d, q);
    match q
    case BeginSelect(id) => SelectSettled(d, id);
    case BeginSave(id, segments) =>
      if Validated(segments) {
        ChangingSettled(d, Save(id, segments));
      }
    case BeginReset(id) => ChangingSettled(d, Delete(id));
    case LookUp(k) =>
      if k < |d.calls| && d.calls[k].Changed? {
        MovedSettled(d, k, LookedUp(d, k).calls[k]);
      }
    case ResolveFor(k) =>
      if k < |d.calls| && (d.calls[k].Choosing? || d.calls[k].Reading?) {
        MovedSettled(d, k, ResolvedFor(d, k).calls[k]);
      }
    case Land(k) =>
      if k < |d.calls| && (d.calls[k].Chosen? || d.calls[k].Read?) {
        LandedFresh(d, k);
      }
    case Remember(k) =>
      if k < |d.calls| && d.calls[k].Remembering? {
        RememberSettled(d, k);
      }
  }

  lemma {:induction false} RunSettled(d: Desk, steps: seq<Step>)
    requires Settled(d) && NoneLate(d, steps)
    ensures Settled(Run(d, steps))
  {
    if steps != [] {
      RunSettled(d, steps[..|steps| - 1]);
      NextSettled(Run(d, steps[..|steps| - 1]), steps[|steps| - 1]);
    }
  }

  /** Under every interleaving of selections, saves and resets in which no plan lands
      late, the cached plan is fresh whenever no request is on its way to refresh it,
      in particular whenever all are done. */
  lemma {:induction false} EveryInterleaving(s: State, steps: seq<Step>)
    requires IsFresh(s) && NoneLate(Opened(s), steps)
    ensures var d := Run(Opened(s), steps);
            && (IsFresh(d.state) || SomeOwes(d))
            && ((forall k :: 0 <= k < |d.calls| ==> d.calls[k].Done?) ==> IsFresh(d.state))
  {
    RunSettled(Opened(s), steps);
  }

  /** And a plan lands late exactly when it can be wrong: when some content of the stores
      and of the saves since it was resolved makes it differ from a fresh one. */
  lemma {:induction false} LandsLateIff(s: State, steps: seq<Step>, k: nat)
    ensures var d := Run(Opened(s), steps);
            k < |d.calls| && (d.calls[k].Chosen? || d.calls[k].Read?) ==>
              var call := d.calls[k];
              var resolved := if call.Chosen? then call.region.id else call.current;
              && call.at <= |d.history|
              && (LandsLate(d, Land(k)) <==>
                  !AlwaysRight(d.state.store.regions, d.history[call.at..], resolved, Landed(d, k).state.current.id))
  {
    RunTracked(Opened(s), steps);
    var d := Run(Opened(s), steps);
    if k < |d.calls| && (d.calls[k].Chosen? || d.calls[k].Read?) {
      assert CallOk(d, d.calls[k]);
      var resolved := if d.calls[k].Chosen? then d.calls[k].region.id else d.calls[k].current;
      LateLandingIff(d.state.store.regions, d.history[d.calls[k].at..], resolved, Landed(d, k).state.current.id);
    }
  }

  lemma {:induction false} RunTracked(d: Desk, steps: seq<Step>)
    requires Tracked(d)
    ensures Tracked(Run(d, steps))
  {
    if steps != [] {
      RunTracked(d, steps[..|steps| - 1]);
      NextTracked(Run(d, steps[..|steps| - 1]), steps[|steps| - 1]);
    }
  }

  // ---- Runs that end with a stale plan -------------------------------------

  lemma RunThen(d: Desk, steps: seq<Step>, q: Step)
    ensures Run(d, steps + [q]) == Next(Run(d, steps), q)
  {
    assert (steps + [q])[..|steps|] == steps;
  }

  lemma ThenLanded(d: Desk, before: seq<Step>, b: Desk, k: nat) returns (steps: seq<Step>)
    requires b == Run(d, before) && k < |b.calls|
    ensures Run(d, steps) == Landed(b, k)
  {
    RunThen(d, before, Land(k));
    steps := before + [Land(k)];
  }

  predicate Accepted(change: Change) {
    change.Save? ==> FirstProblem(change.segments, 0).None?
  }

  function Begin(change: Change): Step {
    match change case Save(id, segments) => BeginSave(id, segments) case Delete(id) => BeginReset(id)
  }

  /** All requests are over, and the cached plan is not the active region's. */
  ghost predicate EndsStale(d: Desk) {
    (forall k :: 0 <= k < |d.calls| ==> d.calls[k].Done?) && !IsFresh(d.state)
  }

  /** Where a change of the active chain stands once its plan is resolved. */
  function ChangeRead(d: Desk, change: Change): Desk {
    var store, current := Applied(d.state.store, change), d.state.current.id;
    Desk(d.state.(store := store), d.start, d.history + [change],
         d.calls + [Read(current, Resolve(store, current), |d.history| + 1)])
  }

  lemma LastReplaced(calls: seq<Call>, was: Call, call: Call)
    ensures (calls + [was])[|calls| := call] == calls + [call]
  {
  }

  lemma BeginChanges(d: Desk, change: Change)
    requires Accepted(change)
    ensures Next(d, Begin(change)) == Changing(d, change)
  {
  }

  lemma ChangeReads(d: Desk, change: Change)
    requires change.id in Chain(d.state.store.regions, d.state.current.id)
    ensures var k, c := |d.calls|, Changing(d, change);
            k < |LookedUp(c, k).calls| && ResolvedFor(LookedUp(c, k), k) == ChangeRead(d, change)
  {
    var k, c, current := |d.calls|, Changing(d, change), d.state.current.id;
    AfterFrame(d.state.store, [change]);
    LastReplaced(d.calls, Changed(change.id), Reading(current));
    assert LookedUp(c, k) == c.(calls := d.calls + [Reading(current)]);
    LastReplaced(d.calls, Reading(current), Read(current, Resolve(c.state.store, current), |c.history|));
  }

  /** The steps of a change up to its resolved plan. */
  lemma ThenRead(d: Desk, before: seq<Step>, b: Desk, change: Change) returns (steps: seq<Step>)
    requires b == Run(d, before) && Accepted(change)
    requires change.id in Chain(b.state.store.regions, b.state.current.id)
    ensures Run(d, steps) == ChangeRead(b, change)
  {
    var k := |b.calls|;
    BeginChanges(b, change);
    ChangeReads(b, change);
    RunThen(d, before, Begin(change));
    steps := before + [Begin(change)];
    RunThen(d, steps, LookUp(k));
    steps := steps + [LookUp(k)];
    RunThen(d, steps, ResolveFor(k));
    steps := steps + [ResolveFor(k)];
  }

  /** A whole selection behind the calls so far. */
  function Selected(d: Desk, region: Region): Desk {
    d.(state := d.state.(current := region, plan := Resolve(d.state.store, region.id), saved := region.id,
                         raised := d.state.raised + 1),
       calls := d.calls + [Done])
  }

  lemma SelectSteps(d: Desk, region: Region)
    ensures var k, c := |d.calls|, d.(calls := d.calls + [Choosing(region)]);
            var chosen := ResolvedFor(c, k);
            && k < |chosen.calls| && k < |Landed(chosen, k).calls|
            && Remembered(Landed(chosen, k), k) == Selected(d, region)
  {
    var k, c, plan, at := |d.calls|, d.(calls := d.calls + [Choosing(region)]), Resolve(d.state.store, region.id), |d.history|;
    LastReplaced(d.calls, Choosing(region), Chosen(region, plan, at));
    assert ResolvedFor(c, k) == d.(calls := d.calls + [Chosen(region, plan, at)]);
    LastReplaced(d.calls, Chosen(region, plan, at), Remembering(region.id));
    LastReplaced(d.calls, Remembering(region.id), Done);
  }

  lemma ThenSelected(d: Desk, before: seq<Step>, b: Desk, id: Id) returns (steps: seq<Step>)
    requires b == Run(d, before) && Find(b.state.store.regions, id).Some?
    ensures Run(d, steps) == Selected(b, Find(b.state.store.regions, id).value)
  {
    var k := |b.calls|;
    SelectSteps(b, Find(b.state.store.regions, id).value);
    RunThen(d, before, BeginSelect(id));
    steps := before + [BeginSelect(id)];
    RunThen(d, steps, ResolveFor(k));
    steps := steps + [ResolveFor(k)];
    RunThen(d, steps, Land(k));
    steps := steps + [Land(k)];
    RunThen(d, steps, Remember(k));
    steps := steps + [Remember(k)];
  }

  /** A region is selected while its plan changes: the plan resolved before is stored
      after, and the change, which found another region active, refreshes nothing. */
  lemma SelectionLandsLate(s: State, id: Id, change: Change) returns (steps: seq<Step>)
    requires Find(s.store.regions, id).Some? && Accepted(change)
    requires change.id !in Chain(s.store.regions, s.current.id)
    requires Resolve(Applied(s.store, change), id) != Resolve(s.store, id)
    ensures EndsStale(Run(Opened(s), steps)) && Run(Opened(s), steps).state.current.id == id
  {
    var d, region := Opened(s), Find(s.store.regions, id).value;
    var chosen := Desk(s, s.store, [], [Chosen(region, Resolve(s.store, id), 0)]);
    steps := [BeginSelect(id)];
    RunThen(d, [], BeginSelect(id));
    assert [] + [BeginSelect(id)] == steps;
    RunThen(d, steps, ResolveFor(0));
    steps := steps + [ResolveFor(0)];
    assert Run(d, steps) == chosen;
    steps := ThenIgnored(d, steps, chosen, change);
    LateSelection(s, region, change);
    RunThen(d, steps, Land(0));
    steps := steps + [Land(0)];
    RunThen(d, steps, Remember(0));
    steps := steps + [Remember(0)];
  }

  lemma LateSelection(s: State, region: Region, change: Change)
    requires Resolve(Applied(s.store, change), region.id) != Resolve(s.store, region.id)
    ensures var y := ChangeIgnored(Desk(s, s.store, [], [Chosen(region, Resolve(s.store, region.id), 0)]), change);
            && |y.calls| > 0 && |Landed(y, 0).calls| > 0
            && EndsStale(Remembered(Landed(y, 0), 0)) && Remembered(Landed(y, 0), 0).state.current == region
  {
    var chosen := Chosen(region, Resolve(s.store, region.id), 0);
    var y := ChangeIgnored(Desk(s, s.store, [], [chosen]), change);
    assert y.calls == [chosen, Done];
    assert Landed(y, 0).calls == [Remembering(region.id), Done];
    assert Remembered(Landed(y, 0), 0).calls == [Done, Done];
  }

  /** A change of another region, which refreshes nothing. */
  function ChangeIgnored(d: Desk, change: Change): Desk {
    Desk(d.state.(store := Applied(d.state.store, change)), d.start, d.history + [change], d.calls + [Done])
  }

  lemma ThenIgnored(d: Desk, before: seq<Step>, b: Desk, change: Change) returns (steps: seq<Step>)
    requires b == Run(d, before) && Accepted(change)
    requires change.id !in Chain(b.state.store.regions, b.state.current.id)
    ensures Run(d, steps) == ChangeIgnored(b, change)
  {
    var k := |b.calls|;
    BeginChanges(b, change);
    AfterFrame(b.state.store, [change]);
    LastReplaced(b.calls, Changed(change.id), Done);
    RunThen(d, before, Begin(change));
    steps := before + [Begin(change)];
    RunThen(d, steps, LookUp(k));
    steps := steps + [LookUp(k)];
  }

  /** A save or a reset resolves the active region's plan, and stores it after another
      region was selected: that region is active with the first one's plan. */
  lemma RefreshLandsOnAnother(s: State, change: Change, other: Id) returns (steps: seq<Step>)
    requires Accepted(change) && change.id in Chain(s.store.regions, s.current.id)
    requires Find(s.store.regions, other).Some?
    requires Resolve(Applied(s.store, change), other) != Resolve(Applied(s.store, change), s.current.id)
    ensures EndsStale(Run(Opened(s), steps)) && Run(Opened(s), steps).state.current.id == other
  {
    var d, region := Opened(s), Find(s.store.regions, other).value;
    var r := ChangeRead(d, change);
    steps := ThenRead(d, [], d, change);
    steps := ThenSelected(d, steps, r, other);
    RefreshOnAnother(s, change, region);
    steps := ThenLanded(d, steps, Selected(r, region), 0);
  }

  lemma RefreshOnAnother(s: State, change: Change, region: Region)
    requires Resolve(Applied(s.store, change), region.id) != Resolve(Applied(s.store, change), s.current.id)
    ensures var y := Selected(ChangeRead(Opened(s), change), region);
            |y.calls| > 0 && EndsStale(Landed(y, 0)) && Landed(y, 0).state.current == region
  {
    var r := ChangeRead(Opened(s), change);
    var y := Selected(r, region);
    assert y.calls == [r.calls[0], Done];
    assert Landed(y, 0).calls == [Done, Done];
  }

  /** Of two changes, the first resolves before the second is made and stores after the
      second has stored. */
  lemma RefreshLandsLate(s: State, first: Change, second: Change) returns (steps: seq<Step>)
    requires Accepted(first) && Accepted(second)
    requires first.id in Chain(s.store.regions, s.current.id) && second.id in Chain(s.store.regions, s.current.id)
    requires var middle := Applied(s.store, first);
             Resolve(Applied(middle, second), s.current.id) != Resolve(middle, s.current.id)
    ensures EndsStale(Run(Opened(s), steps))
  {
    var d := Opened(s);
    var r := ChangeRead(d, first);
    steps := ThenRead(d, [], d, first);
    AfterFrame(s.store, [first]);
    steps := ThenRead(d, steps, r, second);
    OlderLandsLast(s, first, second);
    steps := ThenLanded(d, steps, ChangeRead(r, second), 1);
    steps := ThenLanded(d, steps, Landed(ChangeRead(r, second), 1), 0);
  }

  lemma OlderLandsLast(s: State, first: Change, second: Change)
    requires var middle := Applied(s.store, first);
             Resolve(Applied(middle, second), s.current.id) != Resolve(middle, s.current.id)
    ensures var z := ChangeRead(ChangeRead(Opened(s), first), second);
            |z.calls| == 2 && |Landed(z, 1).calls| == 2 && EndsStale(Landed(Landed(z, 1), 0))
  {
    var r := ChangeRead(Opened(s), first);
    var z := ChangeRead(r, second);
    assert z.calls == [r.calls[0], z.calls[1]];
    assert Landed(z, 1).calls == [r.calls[0], Done];
    assert Landed(Landed(z, 1), 0).calls == [Done, Done];
  }

  /** For instance two saves of the active region's own segments. */
  lemma TwoSavesCross(s: State) returns (steps: seq<Step>)
    ensures EndsStale(Run(Opened(s), steps))
  {
    var r := s.current.id;
    var first, second := Save(r, [ONE]), Save(r, [TWO]);
    SingleValidated(ONE);
    SingleValidated(TWO);
    LeafSurvives(Applied(s.store, first), r, 0);
    LeafSurvives(Applied(Applied(s.store, first), second), r, 0);
    OnlyOneOf(Applied(Applied(s.store, first), second), r);
    steps := RefreshLandsLate(s, first, second);
  }

  /** Two selections may store their regions in one order and their preferences in the
      other, so that a restart comes back with another region than the active one. */
  lemma PreferencesCross(s: State, one: Id, two: Id) returns (steps: seq<Step>)
    requires one != two && Find(s.store.regions, one).Some? && Find(s.store.regions, two).Some?
    ensures var z := Run(Opened(s), steps).state;
            && (forall k :: 0 <= k < |Run(Opened(s), steps).calls| ==> Run(Opened(s), steps).calls[k].Done?)
            && z.current.id == two && StartRegion(z.store.regions, z.saved).id == one
  {
    var d := Opened(s);
    steps := BothLanded(s, one, two);
    RunThen(d, steps, Remember(1));
    steps := steps + [Remember(1)];
    RunThen(d, steps, Remember(0));
    steps := steps + [Remember(0)];
  }

  lemma BothLanded(s: State, one: Id, two: Id) returns (steps: seq<Step>)
    requires Find(s.store.regions, one).Some? && Find(s.store.regions, two).Some?
    ensures var y := Run(Opened(s), steps);
            && y.calls == [Remembering(one), Remembering(two)]
            && y.state.store == s.store && y.state.current == Find(s.store.regions, two).value
  {
    var d := Opened(s);
    var a, b := Find(s.store.regions, one).value, Find(s.store.regions, two).value;
    RunThen(d, [], BeginSelect(one));
    steps := [] + [BeginSelect(one)];
    RunThen(d, steps, BeginSelect(two));
    steps := steps + [BeginSelect(two)];
    assert Run(d, steps).calls == [Choosing(a), Choosing(b)];
    RunThen(d, steps, ResolveFor(0));
    steps := steps + [ResolveFor(0)];
    RunThen(d, steps, ResolveFor(1));
    steps := steps + [ResolveFor(1)];
    RunThen(d, steps, Land(0));
    steps := steps + [Land(0)];
    RunThen(d, steps, Land(1));
    steps := steps + [Land(1)];
  }
}
