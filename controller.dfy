/**
 * onStep: once per game step, decide whether a new pylon is wanted, pick a
 * bounded random sample of candidate cells, ask the host which of them can
 * take a pylon, and issue one build order there.
 *
 * The host is represented by values: the economy snapshot, the map view and
 * the pylon positions are read-only inputs; Math.random is a function from
 * draw number to value; the placement check is an oracle function; the two
 * requests the step sends (the placement check and the build order) are
 * appended to an action log.
 */
module Controller {
  import opened Geometry
  import opened Seqs
  import opened SupplyGap
  import opened Placement

  /** Supply one pylon provides. */
  const SupplyPerPylon: int := 8
  /** The supply cap never rises above this. */
  const SupplyCeiling: int := 200
  /** At most this many candidate cells go to the placement check. */
  const ProbeLimit: nat := 20

  /** What the agent knows of its economy this step. */
  datatype Economy = Economy(
    foodUsed: nat,        // supply in use
    foodCap: int,         // supply cap of finished structures
    inProgress: nat,      // pylons under construction
    pendingOrders: nat,   // units holding an order to build a pylon
    canAfford: bool,      // a pylon is affordable now
    baseCount: nat)       // the agent's own town halls

  /** Everything a step reads. */
  datatype World = World(economy: Economy, view: MapView, pylons: seq<Point>)

  /** The requests a step sends to the game. */
  datatype Action =
    | CanPlace(probes: seq<Point>)  // placement check over a list of cells
    | Build(at: Point)              // build order for a pylon at a cell

  /** A candidate cell with its random sort key. */
  datatype Tagged = Tagged(pos: Point, rand: real)

  /** Supply cap counting pylons under construction and ordered ones. */
  function ProjectedCap(e: Economy): int {
    e.foodCap + e.inProgress * SupplyPerPylon + e.pendingOrders * SupplyPerPylon
  }

  /** The gate of onStep: under the ceiling, short of the gap, affordable, nothing ordered yet. */
  predicate WantsPylon(e: Economy) {
    && ProjectedCap(e) < SupplyCeiling
    && ProjectedCap(e) - e.foodUsed < CalculateSupplyGap(e.foodUsed, e.baseCount)
    && e.canAfford
    && e.pendingOrders <= 0
  }

  /** The oracle only ever confirms a cell of the list it was given. */
  ghost predicate AnswersFromProbes(canPlace: seq<Point> -> Option<Point>) {
    forall probes :: canPlace(probes).Some? ==> canPlace(probes).value in probes
  }

  function Positions(ts: seq<Tagged>): (ps: seq<Point>)
    ensures |ps| == |ts|
    ensures forall i :: 0 <= i < |ts| ==> ps[i] == ts[i].pos
  {
    seq(|ts|, i requires 0 <= i < |ts| => ts[i].pos)
  }

  lemma PositionsAppend(a: seq<Tagged>, b: seq<Tagged>)
    ensures Positions(a + b) == Positions(a) + Positions(b)
  {
  }

  /** Reordering tagged cells reorders their positions the same way. */
  lemma {:induction false} PositionsPreservePermutation(a: seq<Tagged>, b: seq<Tagged>)
    requires multiset(a) == multiset(b)
    ensures multiset(Positions(a)) == multiset(Positions(b))
    decreases |a|
  {
    if a != [] {
      var x := a[0];
      assert x in multiset(b);
      var k :| 0 <= k < |b| && b[k] == x;
      var rest := b[..k] + b[k + 1..];
      assert b == b[..k] + [x] + b[k + 1..];
      assert a == [x] + a[1..];
      assert multiset(b) == multiset(b[..k]) + multiset{x} + multiset(b[k + 1..]);
      assert multiset(rest) == multiset(b[..k]) + multiset(b[k + 1..]);
      assert multiset(a) == multiset{x} + multiset(a[1..]);
      assert multiset(a[1..]) == multiset(a) - multiset{x};
      assert multiset(rest) == multiset(b) - multiset{x};
      PositionsPreservePermutation(a[1..], rest);
      PositionsAppend([x], a[1..]);
      PositionsAppend(b[..k] + [x], b[k + 1..]);
      PositionsAppend(b[..k], [x]);
      PositionsAppend(b[..k], b[k + 1..]);
    }
  }

  /**
   * The random sample: tag each cell with the draw rand(i), sort by the tag,
   * and keep the first 20.
   */
  function RandomPositions(positions: seq<Point>, rand: nat -> real): (probes: seq<Point>)
    ensures |probes| == if |positions| < ProbeLimit then |positions| else ProbeLimit
    ensures multiset(probes) <= multiset(positions)
  {
    var tagged := seq(|positions|, i requires 0 <= i < |positions| => Tagged(positions[i], rand(i)));
    var sorted := SortBy(tagged, (t: Tagged) => t.rand);
    var shuffled := Positions(sorted);
    PositionsPreservePermutation(sorted, tagged);
    assert Positions(tagged) == positions;
    assert |sorted| == |multiset(sorted)| == |multiset(tagged)| == |positions|;
    var n := if |shuffled| < ProbeLimit then |shuffled| else ProbeLimit;
    assert shuffled == shuffled[..n] + shuffled[n..];
    shuffled[..n]
  }

  /** Every cell sent to the placement check comes from the map's own cell sets. */
  lemma ProbesWithinTopology(m: MapView, pylons: seq<Point>, labels: set<nat>,
                             areEqual: (Point, Point) -> bool, rand: nat -> real, p: Point)
    requires p in RandomPositions(FindSupplyPositions(m, pylons, labels, areEqual).candidates, rand)
    ensures InTopology(m, p)
  {
    var candidates := FindSupplyPositions(m, pylons, labels, areEqual).candidates;
    assert p in multiset(RandomPositions(candidates, rand));
    CandidatesWithinTopology(m, pylons, labels, areEqual);
  }

  /** The requests of one attempt: the placement check, then a build order if a cell was confirmed. */
  function Attempt(probes: seq<Point>, found: Option<Point>): seq<Action> {
    [CanPlace(probes)] + (if found.Some? then [Build(found.value)] else [])
  }

  /** The agent's pylon logic: the attemptedBML labels it has set and the requests it has sent. */
  class SupplySystem {
    var labels: set<nat>
    var actions: seq<Action>

    constructor ()
      ensures labels == {} && actions == []
    {
      labels := {};
      actions := [];
    }

    /** Number of build orders among the given actions. */
    static function Builds(log: seq<Action>): nat {
      if log == [] then 0 else (if log[0].Build? then 1 else 0) + Builds(log[1..])
    }

    /** onStep for one game step. */
    method OnStep(w: World, rand: nat -> real, canPlace: seq<Point> -> Option<Point>,
                  areEqual: (Point, Point) -> bool)
      requires AnswersFromProbes(canPlace)
      modifies this
      ensures ProjectedCap(w.economy) >= SupplyCeiling ==> actions == old(actions) && labels == old(labels)
      ensures !WantsPylon(w.economy) ==> actions == old(actions) && labels == old(labels)
      ensures w.economy.pendingOrders > 0 ==> actions == old(actions)
      ensures old(labels) <= labels
      ensures WantsPylon(w.economy) ==>
                var sel := FindSupplyPositions(w.view, w.pylons, old(labels), areEqual);
                var probes := RandomPositions(sel.candidates, rand);
                && labels == sel.labels
                && actions == old(actions) + Attempt(probes, canPlace(probes))
      ensures Builds(actions) <= Builds(old(actions)) + 1
      ensures |old(actions)| <= |actions| <= |old(actions)| + 2
      ensures |actions| == |old(actions)| + 2 ==>
                var probe, build := actions[|actions| - 2], actions[|actions| - 1];
                && probe.CanPlace? && build.Build?
                && build.at in probe.probes
                && InTopology(w.view, build.at)
    {
      var e := w.economy;
      // supply cap including pylons in construction and orders to build them
      var supplyCap := e.foodCap + e.inProgress * SupplyPerPylon + e.pendingOrders * SupplyPerPylon;
      if supplyCap >= SupplyCeiling {
        return;
      }
      var needMoreGap := supplyCap - e.foodUsed < CalculateSupplyGap(e.foodUsed, e.baseCount);
      var affordable := e.canAfford;
      var noPendingOrder := e.pendingOrders <= 0;
      if needMoreGap && affordable && noPendingOrder {
        var selection := FindSupplyPositions(w.view, w.pylons, labels, areEqual);
        var randomPositions := RandomPositions(selection.candidates, rand);
        var foundPosition := canPlace(randomPositions);
        AttemptFacts(actions, w.view, w.pylons, labels, areEqual, rand, foundPosition);
        labels := selection.labels;
        actions := actions + [CanPlace(randomPositions)];
        if foundPosition.Some? {
          actions := actions + [Build(foundPosition.value)];
        }
      }
    }

    /** What one attempt adds to the log: one placement check, at most one build, on a probed map cell. */
    static lemma AttemptFacts(log: seq<Action>, m: MapView, pylons: seq<Point>, labels: set<nat>,
                              areEqual: (Point, Point) -> bool, rand: nat -> real, found: Option<Point>)
      requires var probes := RandomPositions(FindSupplyPositions(m, pylons, labels, areEqual).candidates, rand);
               found.Some? ==> found.value in probes
      ensures var probes := RandomPositions(FindSupplyPositions(m, pylons, labels, areEqual).candidates, rand);
              && Builds(log + Attempt(probes, found)) <= Builds(log) + 1
              && (found.Some? ==> InTopology(m, found.value))
    {
      var probes := RandomPositions(FindSupplyPositions(m, pylons, labels, areEqual).candidates, rand);
      BuildsAppend(log, Attempt(probes, found));
      BuildsAppend([CanPlace(probes)], if found.Some? then [Build(found.value)] else []);
      if found.Some? {
        ProbesWithinTopology(m, pylons, labels, areEqual, rand, found.value);
      }
    }

    static lemma {:induction false} BuildsAppend(a: seq<Action>, b: seq<Action>)
      ensures Builds(a + b) == Builds(a) + Builds(b)
      decreases |a|
    {
      if a != [] {
        assert (a + b)[1..] == a[1..] + b;
        BuildsAppend(a[1..], b);
      } else {
        assert a + b == b;
      }
    }
  }

  /**
   * Two consecutive steps on any two worlds, each with its own placement
   * check: labels only accumulate, and when the second step wants a pylon and
   * its strategy is the behind-mineral-line one, it labels exactly one more
   * expansion, one that carried no label after the first step.
   */
  method TwoSteps(system: SupplySystem, w1: World, w2: World, rand1: nat -> real, rand2: nat -> real,
                  canPlace1: seq<Point> -> Option<Point>, canPlace2: seq<Point> -> Option<Point>,
                  areEqual: (Point, Point) -> bool)
    returns (afterFirst: set<nat>)
    requires AnswersFromProbes(canPlace1) && AnswersFromProbes(canPlace2)
    modifies system
    ensures old(system.labels) <= afterFirst <= system.labels
    ensures WantsPylon(w2.economy) ==>
              system.labels == FindSupplyPositions(w2.view, w2.pylons, afterFirst, areEqual).labels
    ensures var s := ChooseStrategy(w2.view, w2.pylons, afterFirst, areEqual);
            WantsPylon(w2.economy) && s.BehindMineralLine? ==>
              && w2.view.occupied[s.target].id !in afterFirst
              && system.labels == afterFirst + {w2.view.occupied[s.target].id}
    ensures var s := ChooseStrategy(w2.view, w2.pylons, afterFirst, areEqual);
            !(WantsPylon(w2.economy) && s.BehindMineralLine?) ==> system.labels == afterFirst
  {
    system.OnStep(w1, rand1, canPlace1, areEqual);
    afterFirst := system.labels;
    system.OnStep(w2, rand2, canPlace2, areEqual);
  }

  /** The economy of the opening step: 13 of 15 supply in use, one base, affordable, nothing ordered. */
  lemma OpeningEconomyWantsPylon()
    ensures CalculateSupplyGap(13, 1) == 4
    ensures WantsPylon(Economy(13, 15, 0, 0, true, 1))
  {
  }

  /** With no pylon, a main whose only fill cell is 3 from the town hall proposes exactly that cell. */
  lemma OpeningCandidates(view: MapView, areEqual: (Point, Point) -> bool)
    requires view.main.base == Point(0.0, 0.0) && view.main.areaFill == [Point(3.0, 0.0)]
    requires view.main.mineralLine == [] && view.main.geysers == []
    ensures FindSupplyPositions(view, [], {}, areEqual) == Selection([Point(3.0, 0.0)], {})
  {
    assert InMainCluster(view.main, Point(3.0, 0.0));
    assert MainCluster(view.main) == [Point(3.0, 0.0)];
  }

  /** A single candidate is always the whole sample. */
  lemma SingleProbe(cell: Point, rand: nat -> real)
    ensures RandomPositions([cell], rand) == [cell]
  {
    var probes := RandomPositions([cell], rand);
    assert probes[0] in multiset(probes);
  }

  /**
   * The opening step: the gap is 4 and the buffer 2, so the step probes the
   * main-base cluster and builds where the host accepts.
   */
  method OpeningStep() {
    var cell := Point(3.0, 0.0);
    var main := Expansion(0, Point(0.0, 0.0), [cell], [], [], [], []);
    var natural := Expansion(1, Point(30.0, 0.0), [], [], [], [], []);
    var w := World(Economy(13, 15, 0, 0, true, 1), MapView(main, natural, [], [], [main]), []);
    var system := new SupplySystem();
    var firstOf := (ps: seq<Point>) => if |ps| > 0 then Some(ps[0]) else None;
    var rand := (i: nat) => 0.0;
    var sameCell := (a: Point, b: Point) => a == b;
    OpeningEconomyWantsPylon();
    OpeningCandidates(w.view, sameCell);
    SingleProbe(cell, rand);
    system.OnStep(w, rand, firstOf, sameCell);
    assert system.actions == [CanPlace([cell]), Build(cell)];
    assert system.labels == {};
  }

  /** At the supply ceiling nothing is sent, whatever else holds. */
  method CeilingStep(w: World, rand: nat -> real, areEqual: (Point, Point) -> bool)
    requires ProjectedCap(w.economy) == SupplyCeiling
  {
    var system := new SupplySystem();
    system.OnStep(w, rand, (ps: seq<Point>) => if |ps| > 0 then Some(ps[0]) else None, areEqual);
    assert system.actions == [];
  }
}
