/**
 * findSupplyPositions: the candidate cells for the next supply structure
 * (pylon), chosen by one of five strategies in a fixed order of priority.
 * The stage is the number of pylons that already exist.
 *
 * The map is a read-only snapshot. The one thing the selector writes, the
 * per-expansion "attemptedBML" label, is threaded through as a set of
 * expansion ids: it goes in, and the selection hands back the updated set.
 */
module Placement {
  import opened Geometry
  import opened Seqs

  /** Radius of a pylon's power field, used as "super pylon" distance. */
  const PowerRadius: real := 6.5
  /** A first pylon keeps strictly more than this from every mineral-line cell. */
  const MineralLineClearance: real := 2.0
  /** A first pylon keeps strictly more than this from every geyser. */
  const GeyserClearance: real := 3.0
  /** Inner radius of the natural's wall band. */
  const WallBandInner: real := 3.0
  /** Inner radius at which a wall cell counts as covered. */
  const CoverageInner: real := 1.0
  /** A super pylon stands strictly farther than this from the town hall. */
  const SuperPylonInner: real := 3.5
  /** Behind-mineral-line cells kept: strictly within this of their centroid. */
  const BehindMineralLineRadius: real := 5.0

  /** A base site, as the map reports it. */
  datatype Expansion = Expansion(
    id: nat,                       // position in the map's expansion list; keys the expansion's labels
    base: Point,                   // position of the town hall (getBase().pos)
    areaFill: seq<Point>,          // areas.areaFill
    placementGrid: seq<Point>,     // areas.placementGrid
    mineralLine: seq<Point>,       // areas.mineralLine
    behindMineralLine: seq<Point>, // areas.behindMineralLine
    geysers: seq<Point>)           // positions of cluster.vespeneGeysers

  /** What the selector reads from the map. */
  datatype MapView = MapView(
    main: Expansion,               // first expansion of the map
    natural: Expansion,            // second expansion of the map
    naturalFront: seq<Point>,      // frontOfGrid of the natural's fill area
    naturalWall: seq<Point>,       // the natural's wall cells
    occupied: seq<Expansion>)      // the agent's own occupied expansions, in map order

  /** The selector's answer: the candidate cells and the updated label set. */
  datatype Selection = Selection(candidates: seq<Point>, labels: set<nat>)

  // ---------------------------------------------------------------------
  // Stage 0: the main-base cluster

  predicate InMainCluster(main: Expansion, p: Point) {
    && WithinOrOn(p, main.base, PowerRadius)
    && (forall m :: m in main.mineralLine ==> Beyond(m, p, MineralLineClearance))
    && (forall g :: g in main.geysers ==> Beyond(g, p, GeyserClearance))
  }

  function MainCluster(main: Expansion): seq<Point> {
    Filter(main.areaFill, p => InMainCluster(main, p))
  }

  // ---------------------------------------------------------------------
  // Stage 1: in front of the natural

  /** Every wall cell is at distance between 3 and 6.5 of `p`. */
  predicate InWallBand(p: Point, wall: seq<Point>) {
    forall w :: w in wall ==> AtLeast(w, p, WallBandInner) && WithinOrOn(w, p, PowerRadius)
  }

  predicate CoversWallCell(p: Point, w: Point) {
    AtLeast(w, p, CoverageInner) && WithinOrOn(w, p, PowerRadius)
  }

  /** How many wall cells a pylon at `p` covers. */
  function Coverage(p: Point, wall: seq<Point>): (n: nat)
    ensures n <= |wall|
    ensures n == |wall| <==> forall w :: w in wall ==> CoversWallCell(p, w)
    ensures n == 0 <==> forall w :: w in wall ==> !CoversWallCell(p, w)
  {
    |Filter(wall, w => CoversWallCell(p, w))|
  }

  /** Coverage adds up over the parts of a wall. */
  lemma CoverageAppend(p: Point, a: seq<Point>, b: seq<Point>)
    ensures Coverage(p, a + b) == Coverage(p, a) + Coverage(p, b)
  {
    FilterAppend(a, b, w => CoversWallCell(p, w));
  }

  /** A single wall cell counts once if covered and not at all otherwise. */
  lemma CoverageSingle(p: Point, w: Point)
    ensures Coverage(p, [w]) == if CoversWallCell(p, w) then 1 else 0
  {
  }

  /** The cells of a list sorted by descending coverage that share the first one's coverage. */
  function TopTier(sorted: seq<Point>, wall: seq<Point>): seq<Point> {
    if sorted == [] then []
    else Filter(sorted, c => Coverage(c, wall) == Coverage(sorted[0], wall))
  }

  /** The coverage fallback: sort by descending coverage, keep the top tier. */
  function MostCoverage(front: seq<Point>, wall: seq<Point>): seq<Point> {
    TopTier(SortBy(front, c => -(Coverage(c, wall) as real)), wall)
  }

  function NaturalFront(front: seq<Point>, wall: seq<Point>): seq<Point> {
    var band := Filter(front, p => InWallBand(p, wall));
    if |band| > 0 then band else MostCoverage(front, wall)
  }

  // ---------------------------------------------------------------------
  // Stage 2 and later: super pylons, behind-mineral-line pylons, fallback

  /** No pylon stands strictly within 6.5 of the expansion's town hall. */
  predicate NeedsSuperPylon(e: Expansion, pylons: seq<Point>) {
    !exists pylon :: pylon in pylons && Within(e.base, pylon, PowerRadius)
  }

  predicate InSuperPylonBand(base: Point, p: Point) {
    Within(p, base, PowerRadius) && Beyond(p, base, SuperPylonInner)
  }

  function SuperPylonCells(e: Expansion): seq<Point> {
    Filter(e.placementGrid, p => InSuperPylonBand(e.base, p))
  }

  /** Some pylon stands on one of the expansion's behind-mineral-line cells. */
  predicate HasBmlPylon(e: Expansion, pylons: seq<Point>, areEqual: (Point, Point) -> bool) {
    exists pylon :: pylon in pylons && exists cell :: cell in e.behindMineralLine && areEqual(pylon, cell)
  }

  predicate NeedsBmlPylon(e: Expansion, pylons: seq<Point>, labels: set<nat>, areEqual: (Point, Point) -> bool) {
    !HasBmlPylon(e, pylons, areEqual) && e.id !in labels
  }

  /** The behind-mineral-line cells strictly within 5 of their own centroid. */
  function BmlCells(bml: seq<Point>): seq<Point> {
    if bml == [] then []
    else
      var centroid := Centroid(bml);
      Filter(bml, p => Within(p, centroid, BehindMineralLineRadius))
  }

  // ---------------------------------------------------------------------
  // The selector

  /** The strategy in force; the super-pylon and behind-mineral-line ones name their expansion. */
  datatype Strategy =
    | MainClusterStage
    | NaturalFrontStage
    | SuperPylon(target: nat)         // index into the occupied expansions
    | BehindMineralLine(target: nat)  // index into the occupied expansions
    | Fallback

  /**
   * The if-chain of findSupplyPositions: zero pylons, one pylon, the first
   * occupied expansion without a super pylon, the first one without a
   * behind-mineral-line pylon and without the label, and otherwise the fallback.
   */
  function ChooseStrategy(m: MapView, pylons: seq<Point>, labels: set<nat>,
                          areEqual: (Point, Point) -> bool): (s: Strategy)
    ensures s.MainClusterStage? <==> |pylons| == 0
    ensures s.NaturalFrontStage? <==> |pylons| == 1
    ensures s.SuperPylon? <==>
              |pylons| >= 2 && exists k :: 0 <= k < |m.occupied| && NeedsSuperPylon(m.occupied[k], pylons)
    ensures s.SuperPylon? ==>
              && s.target < |m.occupied| && NeedsSuperPylon(m.occupied[s.target], pylons)
              && forall k :: 0 <= k < s.target ==> !NeedsSuperPylon(m.occupied[k], pylons)
    ensures s.BehindMineralLine? ==>
              && |pylons| >= 2
              && (forall k :: 0 <= k < |m.occupied| ==> !NeedsSuperPylon(m.occupied[k], pylons))
              && s.target < |m.occupied| && NeedsBmlPylon(m.occupied[s.target], pylons, labels, areEqual)
              && forall k :: 0 <= k < s.target ==> !NeedsBmlPylon(m.occupied[k], pylons, labels, areEqual)
    ensures s.Fallback? <==>
              && |pylons| >= 2
              && (forall k :: 0 <= k < |m.occupied| ==> !NeedsSuperPylon(m.occupied[k], pylons))
              && (forall k :: 0 <= k < |m.occupied| ==> !NeedsBmlPylon(m.occupied[k], pylons, labels, areEqual))
  {
    if |pylons| == 0 then MainClusterStage
    else if |pylons| == 1 then NaturalFrontStage
    else match FirstIndex(m.occupied, e => NeedsSuperPylon(e, pylons))
      case Some(i) => SuperPylon(i)
      case None =>
        match FirstIndex(m.occupied, e => NeedsBmlPylon(e, pylons, labels, areEqual))
        case Some(j) => BehindMineralLine(j)
        case None => Fallback
  }

  /**
   * findSupplyPositions. `labels` holds the ids of the expansions that carry
   * the "attemptedBML" label; the behind-mineral-line strategy adds one.
   */
  function FindSupplyPositions(m: MapView, pylons: seq<Point>, labels: set<nat>,
                               areEqual: (Point, Point) -> bool): (sel: Selection)
    ensures labels <= sel.labels
    ensures sel.labels == labels || exists i :: 0 <= i < |m.occupied| && m.occupied[i].id !in labels
                                          && sel.labels == labels + {m.occupied[i].id}
    ensures !ChooseStrategy(m, pylons, labels, areEqual).BehindMineralLine? ==> sel.labels == labels
  {
    match ChooseStrategy(m, pylons, labels, areEqual)
    case MainClusterStage => Selection(MainCluster(m.main), labels)
    case NaturalFrontStage => Selection(NaturalFront(m.naturalFront, m.naturalWall), labels)
    case SuperPylon(i) => Selection(SuperPylonCells(m.occupied[i]), labels)
    case BehindMineralLine(j) =>
      Selection(BmlCells(m.occupied[j].behindMineralLine), labels + {m.occupied[j].id})
    case Fallback => Selection(m.main.placementGrid + m.natural.placementGrid, labels)
  }

  // ---------------------------------------------------------------------
  // What each strategy returns

  /** With no pylon yet: exactly the main's fill cells near the town hall and clear of minerals and gas. */
  lemma FirstPylonCandidates(m: MapView, pylons: seq<Point>, labels: set<nat>, areEqual: (Point, Point) -> bool)
    requires |pylons| == 0
    ensures FindSupplyPositions(m, pylons, labels, areEqual).labels == labels
    ensures forall p :: p in FindSupplyPositions(m, pylons, labels, areEqual).candidates <==>
              && p in m.main.areaFill
              && WithinOrOn(p, m.main.base, PowerRadius)
              && (forall c :: c in m.main.mineralLine ==> Beyond(c, p, MineralLineClearance))
              && (forall g :: g in m.main.geysers ==> Beyond(g, p, GeyserClearance))
  {
  }

  /** The coverage fallback keeps exactly the front cells that no other front cell out-covers. */
  lemma MostCoverageIsMaximal(front: seq<Point>, wall: seq<Point>)
    ensures forall p :: p in MostCoverage(front, wall) <==>
              p in front && forall q :: q in front ==> Coverage(q, wall) <= Coverage(p, wall)
    ensures |front| > 0 ==> |MostCoverage(front, wall)| > 0
  {
    var key := c => -(Coverage(c, wall) as real);
    var sorted := SortBy(front, key);
    assert forall q :: q in sorted <==> q in front by {
      forall q ensures q in sorted <==> q in front {
        assert q in sorted <==> q in multiset(sorted);
        assert q in front <==> q in multiset(front);
      }
    }
    if sorted != [] {
      var top := sorted[0];
      assert forall k :: 0 <= k < |sorted| ==> Coverage(sorted[k], wall) <= Coverage(top, wall) by {
        forall k | 0 <= k < |sorted| ensures Coverage(sorted[k], wall) <= Coverage(top, wall) {
          if k > 0 { assert key(top) <= key(sorted[k]); }
        }
      }
      assert forall q :: q in front ==> Coverage(q, wall) <= Coverage(top, wall);
      assert top in MostCoverage(front, wall);
    }
  }

  /** The natural-front strategy, when some front cell lies in the wall band: exactly those cells. */
  lemma NaturalFrontWallBand(front: seq<Point>, wall: seq<Point>, cell: Point)
    requires cell in front && InWallBand(cell, wall)
    ensures forall p :: p in NaturalFront(front, wall) <==> p in front && InWallBand(p, wall)
  {
    var band := Filter(front, p => InWallBand(p, wall));
    assert cell in band;
  }

  lemma NoBandMeansCoverage(front: seq<Point>, wall: seq<Point>)
    requires forall p :: p in front ==> !InWallBand(p, wall)
    ensures NaturalFront(front, wall) == MostCoverage(front, wall)
  {
    var band := Filter(front, p => InWallBand(p, wall));
    assert forall i :: 0 <= i < |front| ==> !InWallBand(front[i], wall);
    assert band == [];
  }

  /** The natural-front strategy, when no front cell lies in the wall band: the cells of maximal coverage. */
  lemma NaturalFrontCoverage(front: seq<Point>, wall: seq<Point>)
    requires forall p :: p in front ==> !InWallBand(p, wall)
    ensures forall p :: p in NaturalFront(front, wall) <==>
              p in front && forall q :: q in front ==> Coverage(q, wall) <= Coverage(p, wall)
    ensures |front| > 0 ==> |NaturalFront(front, wall)| > 0
  {
    NoBandMeansCoverage(front, wall);
    MostCoverageIsMaximal(front, wall);
  }

  lemma OnePylonSelection(m: MapView, pylons: seq<Point>, labels: set<nat>, areEqual: (Point, Point) -> bool)
    requires |pylons| == 1
    ensures FindSupplyPositions(m, pylons, labels, areEqual)
            == Selection(NaturalFront(m.naturalFront, m.naturalWall), labels)
  {
  }

  /**
   * With one pylon and some natural-front cell whose every wall cell lies at
   * distance 3 to 6.5: exactly those front cells. Labels are left alone.
   */
  lemma SecondPylonWallBand(m: MapView, pylons: seq<Point>, labels: set<nat>,
                            areEqual: (Point, Point) -> bool, cell: Point)
    requires |pylons| == 1
    requires cell in m.naturalFront && InWallBand(cell, m.naturalWall)
    ensures FindSupplyPositions(m, pylons, labels, areEqual).labels == labels
    ensures forall p :: p in FindSupplyPositions(m, pylons, labels, areEqual).candidates <==>
              p in m.naturalFront && InWallBand(p, m.naturalWall)
  {
    OnePylonSelection(m, pylons, labels, areEqual);
    NaturalFrontWallBand(m.naturalFront, m.naturalWall, cell);
  }

  /**
   * With one pylon and no natural-front cell in the wall band: exactly the
   * front cells that no other front cell out-covers, never none when the
   * front has cells. Labels are left alone.
   */
  lemma SecondPylonMostCoverage(m: MapView, pylons: seq<Point>, labels: set<nat>, areEqual: (Point, Point) -> bool)
    requires |pylons| == 1
    requires forall p :: p in m.naturalFront ==> !InWallBand(p, m.naturalWall)
    ensures FindSupplyPositions(m, pylons, labels, areEqual).labels == labels
    ensures forall p :: p in FindSupplyPositions(m, pylons, labels, areEqual).candidates <==>
              && p in m.naturalFront
              && forall q :: q in m.naturalFront ==> Coverage(q, m.naturalWall) <= Coverage(p, m.naturalWall)
    ensures |m.naturalFront| > 0 ==> |FindSupplyPositions(m, pylons, labels, areEqual).candidates| > 0
  {
    OnePylonSelection(m, pylons, labels, areEqual);
    NaturalFrontCoverage(m.naturalFront, m.naturalWall);
  }

  /**
   * With two or more pylons and an occupied expansion with no pylon strictly
   * within 6.5 of its town hall: the first such expansion's grid cells at
   * distance strictly between 3.5 and 6.5; labels are left alone.
   */
  lemma SuperPylonCandidates(m: MapView, pylons: seq<Point>, labels: set<nat>,
                             areEqual: (Point, Point) -> bool, i: nat)
    requires |pylons| >= 2
    requires i < |m.occupied| && NeedsSuperPylon(m.occupied[i], pylons)
    requires forall k :: 0 <= k < i ==> !NeedsSuperPylon(m.occupied[k], pylons)
    ensures FindSupplyPositions(m, pylons, labels, areEqual).labels == labels
    ensures forall p :: p in FindSupplyPositions(m, pylons, labels, areEqual).candidates <==>
              && p in m.occupied[i].placementGrid
              && Within(p, m.occupied[i].base, PowerRadius)
              && Beyond(p, m.occupied[i].base, SuperPylonInner)
  {
    var s := ChooseStrategy(m, pylons, labels, areEqual);
    assert s.SuperPylon?;
    if s.target != i {
      assert false;
    }
  }

  /**
   * When no occupied expansion lacks a super pylon, the behind-mineral-line
   * strategy takes the first expansion with neither a pylon on its
   * behind-mineral-line cells nor the label: exactly it gains the label, and
   * the candidates are its behind-mineral-line cells strictly within 5 of
   * their centroid.
   */
  lemma BehindMineralLineCandidates(m: MapView, pylons: seq<Point>, labels: set<nat>,
                                    areEqual: (Point, Point) -> bool, j: nat)
    requires |pylons| >= 2
    requires forall k :: 0 <= k < |m.occupied| ==> !NeedsSuperPylon(m.occupied[k], pylons)
    requires j < |m.occupied| && !HasBmlPylon(m.occupied[j], pylons, areEqual) && m.occupied[j].id !in labels
    requires forall k :: 0 <= k < j ==> !NeedsBmlPylon(m.occupied[k], pylons, labels, areEqual)
    ensures FindSupplyPositions(m, pylons, labels, areEqual).labels == labels + {m.occupied[j].id}
    ensures forall p :: p in FindSupplyPositions(m, pylons, labels, areEqual).candidates <==>
              && p in m.occupied[j].behindMineralLine
              && Within(p, Centroid(m.occupied[j].behindMineralLine), BehindMineralLineRadius)
  {
    var s := ChooseStrategy(m, pylons, labels, areEqual);
    assert NeedsBmlPylon(m.occupied[j], pylons, labels, areEqual);
    assert !s.Fallback?;
    assert s.BehindMineralLine?;
    if s.target != j {
      assert false;
    }
  }

  /** With nothing left to cover, every grid cell of the main and of the natural, in that order. */
  lemma FallbackCandidates(m: MapView, pylons: seq<Point>, labels: set<nat>, areEqual: (Point, Point) -> bool)
    requires |pylons| >= 2
    requires forall k :: 0 <= k < |m.occupied| ==> !NeedsSuperPylon(m.occupied[k], pylons)
    requires forall k :: 0 <= k < |m.occupied| ==> !NeedsBmlPylon(m.occupied[k], pylons, labels, areEqual)
    ensures FindSupplyPositions(m, pylons, labels, areEqual)
            == Selection(m.main.placementGrid + m.natural.placementGrid, labels)
  {
  }

  // ---------------------------------------------------------------------
  // Properties across strategies

  /** Every cell the selector proposes comes from the map's own cell sets. */
  predicate InTopology(m: MapView, p: Point) {
    || p in m.main.areaFill
    || p in m.naturalFront
    || p in m.main.placementGrid
    || p in m.natural.placementGrid
    || exists e :: e in m.occupied && (p in e.placementGrid || p in e.behindMineralLine)
  }

  lemma CandidatesWithinTopology(m: MapView, pylons: seq<Point>, labels: set<nat>, areEqual: (Point, Point) -> bool)
    ensures forall p :: p in FindSupplyPositions(m, pylons, labels, areEqual).candidates ==> InTopology(m, p)
  {
    var s := ChooseStrategy(m, pylons, labels, areEqual);
    var sel := FindSupplyPositions(m, pylons, labels, areEqual);
    match s
    case MainClusterStage =>
    case NaturalFrontStage =>
      MostCoverageIsMaximal(m.naturalFront, m.naturalWall);
    case SuperPylon(i) =>
      assert m.occupied[i] in m.occupied;
    case BehindMineralLine(j) =>
      assert m.occupied[j] in m.occupied;
    case Fallback =>
  }

  /**
   * The label is one-shot: once the behind-mineral-line strategy has taken an
   * expansion, the selector run again on the updated labels never takes that
   * expansion again, whatever else it does.
   */
  lemma BehindMineralLineIsOneShot(m: MapView, pylons: seq<Point>, labels: set<nat>,
                                   areEqual: (Point, Point) -> bool)
    requires ChooseStrategy(m, pylons, labels, areEqual).BehindMineralLine?
    ensures var first := ChooseStrategy(m, pylons, labels, areEqual);
            var next := FindSupplyPositions(m, pylons, labels, areEqual).labels;
            && m.occupied[first.target].id in next
            && var again := ChooseStrategy(m, pylons, next, areEqual);
               again.BehindMineralLine? ==> m.occupied[again.target].id != m.occupied[first.target].id
  {
  }

  /**
   * A labelled expansion is never taken by the behind-mineral-line strategy,
   * whatever the map and the pylons: the label outlives the step that set it.
   */
  lemma LabelledNeverChosen(m: MapView, pylons: seq<Point>, labels: set<nat>,
                            areEqual: (Point, Point) -> bool, k: nat)
    requires k < |m.occupied| && m.occupied[k].id in labels
    ensures ChooseStrategy(m, pylons, labels, areEqual).BehindMineralLine? ==>
              ChooseStrategy(m, pylons, labels, areEqual).target != k
  {
  }

  /**
   * The occupied expansions carry distinct ids. Labels are kept per id, so
   * only under this condition is a label private to one expansion.
   */
  predicate DistinctIds(m: MapView) {
    forall a, b :: 0 <= a < b < |m.occupied| ==> m.occupied[a].id != m.occupied[b].id
  }

  /**
   * With distinct ids, the label the behind-mineral-line strategy sets blocks
   * exactly the expansion it was set for: every other expansion needs a
   * behind-mineral-line pylon after the step exactly when it did before.
   */
  lemma LabelBlocksOnlyItsExpansion(m: MapView, pylons: seq<Point>, labels: set<nat>,
                                    areEqual: (Point, Point) -> bool)
    requires DistinctIds(m)
    requires ChooseStrategy(m, pylons, labels, areEqual).BehindMineralLine?
    ensures var first := ChooseStrategy(m, pylons, labels, areEqual).target;
            var next := FindSupplyPositions(m, pylons, labels, areEqual).labels;
            && !NeedsBmlPylon(m.occupied[first], pylons, next, areEqual)
            && forall k :: 0 <= k < |m.occupied| && k != first ==>
                 (NeedsBmlPylon(m.occupied[k], pylons, next, areEqual)
                  <==> NeedsBmlPylon(m.occupied[k], pylons, labels, areEqual))
  {
    var first := ChooseStrategy(m, pylons, labels, areEqual).target;
    var next := FindSupplyPositions(m, pylons, labels, areEqual).labels;
    assert next == labels + {m.occupied[first].id};
    forall k | 0 <= k < |m.occupied| && k != first
      ensures m.occupied[k].id in next <==> m.occupied[k].id in labels
    {
      if k < first {
        assert m.occupied[k].id != m.occupied[first].id;
      } else {
        assert m.occupied[first].id != m.occupied[k].id;
      }
    }
  }
}
