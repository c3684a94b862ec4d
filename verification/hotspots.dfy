/**
 The interactive master-plan hotspots (constants.ts) and the `Hotspot` record they are
 written against (types.ts). The record's comment says each coordinate is a percentage of
 the plan image, so every hotspot must lie in 0..100 on both axes; the map keys its markers
 by id, so the ids must be distinct.
 */
module Hotspots {

  import opened Wrappers

  /** The four sales states a hotspot can show. */
  datatype Status = SoldOut | SellingFast | FuturePhase | Available

  /** The status as written in the source's string union. */
  function StatusLabel(s: Status): string {
    match s
    case SoldOut => "Sold Out"
    case SellingFast => "Selling Fast"
    case FuturePhase => "Future Phase"
    case Available => "Available"
  }

  /** The four labels are distinct, so the string union tells the statuses apart. */
  lemma StatusLabelsDistinct(a: Status, b: Status)
    ensures StatusLabel(a) == StatusLabel(b) <==> a == b
  {
  }

  /** A marker on the plan: `x` and `y` are percentages; `price` is optional. */
  datatype Hotspot = Hotspot(id: string, x: real, y: real, title: string, status: Status,
                             price: Option<string>, description: string)

  const Hotspots: seq<Hotspot> := [
    Hotspot("gate", 50.0, 85.0, "Monstrous City Gate", Available,
            Some("N/A"), "The iconic entrance to luxury. 24/7 high-tech security access control."),
    Hotspot("residential-a", 25.0, 40.0, "Residential Cluster A", SellingFast,
            Some("From \U{20A6}37M"), "Premium plots available in 258sqm, 315sqm, and 560sqm configurations."),
    Hotspot("commercial", 75.0, 50.0, "Commercial Hub", FuturePhase,
            Some("From \U{20A6}150M"), "The future business district of Asaba. High-rise capable zones."),
    Hotspot("school", 20.0, 20.0, "International Academy", SoldOut,
            Some("Sold Out"), "World-class educational facility site.")
  ]

  predicate IsPercentage(v: real) {
    0.0 <= v <= 100.0
  }

  predicate OnPlan(h: Hotspot) {
    IsPercentage(h.x) && IsPercentage(h.y)
  }

  predicate DistinctIds(hs: seq<Hotspot>) {
    forall a, b :: 0 <= a < b < |hs| ==> hs[a].id != hs[b].id
  }

  /** Every marker lies on the plan and no two markers share an id. */
  predicate ValidHotspots(hs: seq<Hotspot>) {
    (forall k :: 0 <= k < |hs| ==> OnPlan(hs[k])) && DistinctIds(hs)
  }

  /** A single pass over the list, remembering the ids seen so far. */
  method CheckHotspots(hs: seq<Hotspot>) returns (ok: bool)
    ensures ok <==> ValidHotspots(hs)
  {
    var seen: set<string> := {};
    var i := 0;
    while i < |hs|
      invariant 0 <= i <= |hs|
      invariant seen == set k | 0 <= k < i :: hs[k].id
      invariant forall k :: 0 <= k < i ==> OnPlan(hs[k])
      invariant DistinctIds(hs[..i])
    {
      var h := hs[i];
      if !OnPlan(h) {
        return false;
      }
      if h.id in seen {
        var k :| 0 <= k < i && hs[k].id == h.id;
        assert hs[k].id == hs[i].id;
        return false;
      }
      assert hs[..i + 1] == hs[..i] + [h];
      seen := seen + {h.id};
      i := i + 1;
    }
    assert hs[..i] == hs;
    return true;
  }

  /** The shipped hotspots satisfy the invariant. */
  lemma HotspotsValid()
    ensures ValidHotspots(Hotspots)
    ensures |Hotspots| == 4
  {
  }
}
