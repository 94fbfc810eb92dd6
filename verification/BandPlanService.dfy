/** The band-plan store and service, updated in place. */
module BandPlanServices {
  import opened Seqs
  import opened BandPlan
  import opened BandPlanRuns

  class BandPlanStore {
    const regions: seq<Region>
    const shipped: map<Id, seq<Segment>>
    var overrides: map<Id, Doc>

    function Now(): Store
      reads this
    {
      Store(regions, shipped, overrides)
    }

    constructor (regions: seq<Region>, shipped: map<Id, seq<Segment>>, overrides: map<Id, Doc>)
      ensures Now() == Store(regions, shipped, overrides)
    {
      this.regions, this.shipped, this.overrides := regions, shipped, overrides;
    }

    method GetSegmentsForRegion(regionId: Id) returns (segments: seq<Segment>)
      ensures segments == SegmentsOf(Now(), regionId)
    {
      if regionId in overrides {
        match overrides[regionId]
        case Saved(saved) => return saved;
        case NullDoc => return [];
        case Unreadable =>
      }
      segments := if regionId in shipped then shipped[regionId] else [];
    }

    method SaveOverride(regionId: Id, segments: seq<Segment>)
      modifies this
      ensures Now() == BandPlanRuns.Saved(old(Now()), regionId, segments)
    {
      overrides := overrides[regionId := Doc.Saved(segments)];
    }

    method DeleteOverride(regionId: Id)
      modifies this
      ensures Now() == Reset(old(Now()), regionId)
    {
      overrides := overrides - {regionId};
    }

    method FindRegion(id: Id) returns (region: Option<Region>)
      ensures region == Find(regions, id)
    {
      for i := 0 to |regions|
        invariant Find(regions, id) == Find(regions[i..], id)
      {
        if regions[i].id == id {
          return Some(regions[i]);
        }
        assert regions[i..][1..] == regions[i + 1..];
      }
      region := None;
    }
  }

  class BandPrefsStore {
    var regionId: Id

    constructor (regionId: Id)
      ensures this.regionId == regionId
    {
      this.regionId := regionId;
    }
  }

  class BandPlanService {
    const store: BandPlanStore
    const prefs: BandPrefsStore
    var currentRegion: Region
    var currentPlan: seq<Segment>
    var planChanged: nat

    function Now(): State
      reads this, store, prefs
    {
      State(store.Now(), prefs.regionId, currentRegion, currentPlan, planChanged)
    }

    ghost predicate Valid()
      reads this, store, prefs
    {
      Inv(Now())
    }

    constructor (store: BandPlanStore, prefs: BandPrefsStore)
      ensures this.store == store && this.prefs == prefs
      ensures Valid() && Now() == Started(store.Now(), prefs.regionId)
    {
      this.store, this.prefs := store, prefs;
      currentRegion, currentPlan, planChanged := FALLBACK, [], 0;
      new;
      var region := store.FindRegion(prefs.regionId);
      if region.Some? {
        currentRegion := region.value;
      } else if |store.regions| > 0 {
        currentRegion := store.regions[0];
      }
      currentPlan := ResolvePlan(currentRegion.id);
    }

    /** Selects a known region; an unknown id changes nothing. */
    method SetRegion(regionId: Id)
      requires Valid()
      modifies this, prefs
      ensures Valid() && Now() == Next(old(Now()), BandPlanRuns.SetRegion(regionId))
    {
      NextInv(Now(), BandPlanRuns.SetRegion(regionId));
      var region := store.FindRegion(regionId);
      if region.None? {
        return;
      }
      var plan := ResolvePlan(regionId);
      currentRegion := region.value;
      currentPlan := plan;
      prefs.regionId := regionId;
      planChanged := planChanged + 1;
    }

    /** Stores an override, or reports why it was refused. */
    method SavePlan(regionId: Id, segments: seq<Segment>) returns (error: Option<SaveError>)
      requires Valid()
      modifies this, store
      ensures Valid() && Now() == Next(old(Now()), BandPlanRuns.SavePlan(regionId, segments))
      ensures error == FirstProblem(segments, 0)
    {
      NextInv(Now(), BandPlanRuns.SavePlan(regionId, segments));
      error := ValidateSegments(segments);
      if error.Some? {
        return;
      }
      store.SaveOverride(regionId, segments);
      Refresh(regionId);
    }

    method ResetPlan(regionId: Id)
      requires Valid()
      modifies this, store
      ensures Valid() && Now() == Next(old(Now()), BandPlanRuns.ResetPlan(regionId))
    {
      NextInv(Now(), BandPlanRuns.ResetPlan(regionId));
      store.DeleteOverride(regionId);
      Refresh(regionId);
    }

    /** Recomputes the plan when the changed region is on the active one's chain. */
    method Refresh(regionId: Id)
      modifies this
      ensures Now() == Refreshed(old(Now()), store.Now(), regionId)
    {
      var currentId := currentRegion.id;
      var affected := IsAncestorOrSelf(regionId, currentId);
      if affected {
        currentPlan := ResolvePlan(currentId);
        planChanged := planChanged + 1;
      }
    }

    method IsAncestorOrSelf(targetId: Id, currentId: Id) returns (found: bool)
      ensures found <==> targetId in Chain(store.regions, currentId)
    {
      ghost var regions := store.regions;
      var visited: set<Id> := {};
      var id := Some(currentId);
      while id.Some? && id.value !in visited
        invariant targetId in Chain(regions, currentId) <==> targetId in Walk(regions, id, visited)
        decreases Ahead(regions, id, visited)
      {
        AheadShrinks(regions, id.value, visited);
        if id.value == targetId {
          return true;
        }
        visited := visited + {id.value};
        var reg := store.FindRegion(id.value);
        id := if reg.None? then None else reg.value.parent;
      }
      found := false;
    }

    /** The effective plan: the ancestry walk, then each layer, oldest first, pushing
        out what it overlaps. */
    method ResolvePlan(regionId: Id) returns (acc: seq<Segment>)
      ensures acc == Resolve(store.Now(), regionId)
      ensures forall s :: s in acc <==> Uncovered(Stream(store.Now(), Chain(store.regions, regionId)), s)
    {
      var chain := AncestryChain(regionId);
      ghost var st := store.Now();
      acc := [];
      var i := |chain|;
      assert chain[i..] == [];
      while i > 0
        invariant 0 <= i <= |chain|
        invariant acc == Overlay(Stream(st, chain[i..]))
      {
        i := i - 1;
        var segs := store.GetSegmentsForRegion(chain[i]);
        assert chain[i..][1..] == chain[i + 1..];
        acc := AddLayer(acc, Stream(st, chain[i + 1..]), segs);
      }
      assert chain[0..] == chain;
      acc := SortByLow(acc);
      forall s ensures s in acc <==> Uncovered(Stream(st, chain), s) {
        PlanFrequencies(st, regionId, s);
      }
    }

    /** Adds a layer's segments one by one. */
    method AddLayer(before: seq<Segment>, ghost stream: seq<Segment>, segs: seq<Segment>) returns (acc: seq<Segment>)
      requires before == Overlay(stream)
      ensures acc == Overlay(stream + segs)
    {
      acc := before;
      assert stream + segs[..0] == stream;
      for j := 0 to |segs|
        invariant acc == Overlay(stream + segs[..j])
      {
        ghost var longer := stream + segs[..j + 1];
        assert longer[..|longer| - 1] == stream + segs[..j];
        acc := Keep(acc, segs[j]) + [segs[j]];
      }
      assert segs[..|segs|] == segs;
    }

    method AncestryChain(regionId: Id) returns (chain: seq<Id>)
      ensures chain == Chain(store.regions, regionId)
    {
      ghost var regions := store.regions;
      chain := [];
      var visited: set<Id> := {};
      var current := Some(regionId);
      while current.Some? && current.value !in visited
        invariant chain + Walk(regions, current, visited) == Chain(regions, regionId)
        decreases Ahead(regions, current, visited)
      {
        AheadShrinks(regions, current.value, visited);
        ghost var rest := Walk(regions, ParentOf(regions, current.value), visited + {current.value});
        assert chain + ([current.value] + rest) == chain + [current.value] + rest;
        visited := visited + {current.value};
        chain := chain + [current.value];
        var reg := store.FindRegion(current.value);
        current := if reg.None? then None else reg.value.parent;
      }
    }

    method ValidateSegments(segments: seq<Segment>) returns (error: Option<SaveError>)
      ensures error == FirstProblem(segments, 0)
      ensures error.None? <==> Validated(segments)
    {
      for i := 0 to |segments|
        invariant FirstProblem(segments, 0) == FirstProblem(segments, i)
      {
        var s := segments[i];
        if s.low < 0 || s.high < 0 {
          return Some(NegativeFrequency);
        }
        if s.low >= s.high {
          return Some(EmptyRange);
        }
        if Blank(s.title) {
          return Some(EmptyTitle);
        }
        if i > 0 && segments[i].low < segments[i - 1].high {
          return Some(OverlapsPrevious);
        }
      }
      error := None;
    }

    /** The segment at a frequency. On an ordered plan nothing is missed; at an endpoint
        two segments share, either may answer. */
    method GetSegment(freqHz: int) returns (found: Option<Segment>)
      ensures found.Some? ==> found.value in currentPlan && found.value.low <= freqHz <= found.value.high
      ensures Ordered(currentPlan) ==>
                (found.None? <==> forall s :: s in currentPlan ==> !(s.low <= freqHz <= s.high))
    {
      var plan := currentPlan;
      var lo, hi := 0, |plan| - 1;
      while lo <= hi
        invariant 0 <= lo <= hi + 1 <= |plan|
        invariant Ordered(plan) ==> forall k :: 0 <= k < lo ==> plan[k].high < freqHz
        invariant Ordered(plan) ==> forall k :: hi < k < |plan| ==> freqHz < plan[k].low
        decreases hi - lo
      {
        var mid := (lo + hi) / 2;
        var s := plan[mid];
        assert s in plan;
        assert forall k :: 0 <= k < |plan| ==> plan[k] in plan;
        if freqHz < s.low {
          hi := mid - 1;
        } else if freqHz > s.high {
          lo := mid + 1;
        } else {
          return Some(s);
        }
      }
      found := None;
    }
  }
}
