# Protoss supply system: pylon placement model

This project models the supply system of a node-sc2 StarCraft II agent
(`system.js`). On every game step the system decides whether the agent
needs another pylon. If it does, it picks candidate cells with one of five
placement strategies, sends a random sample of at most 20 of them to the
game's placement check, and orders a build at the cell the check confirms.

The model has five modules:

- `Geometry` (`geometry.dfy`): points with real coordinates. Every distance
  test of the source is decided on squared distances. `avgPoints` is the
  arithmetic mean `Centroid`.
- `Seqs` (`seqs.dfy`): the array steps the source is written with.
  `Filter` is `filter`, `FirstIndex` is `find` (it returns the position
  found), and `SortBy` is `sort` with a numeric comparator.
- `SupplyGap` (`supply_gap.dfy`): `calculateSupplyGap`.
- `Placement` (`placement.dfy`): `findSupplyPositions`. It is split into
  `ChooseStrategy` (the if-chain that picks one of five strategies) and
  `FindSupplyPositions` (the candidates of the chosen strategy). The
  "attemptedBML" label is a set of expansion ids. It goes into the selector,
  and the selector returns the updated set.
- `Controller` (`controller.dfy`): `onStep`, as the method `OnStep` of the
  class `SupplySystem`. The class holds the label set and a log of the
  requests sent to the game: `CanPlace(probes)` and `Build(at)`.

Two facts about the code shape the model:

- The placement stage is `myPylons.length`, the number of pylons that
  exist now (system.js:29-51).
- The attemptedBML label is set before the placement check, whether or
  not a pylon is built (system.js:105-106).

## Model

| member | source | states |
|---|---|---|
| SupplyGap.CalculateSupplyGap | system.js:10-18 | The gap is never negative. It is 4 per base, counting at most 4 bases, while at most 40 supply is in use. From 40 supply on it is floor(min(bases,4) * supply / 10). |
| SupplyGap.GapMonotoneInSupply | system.js:12-17 | More supply in use never gives a smaller gap. |
| SupplyGap.GapMonotoneInBases | system.js:14-17 | More bases never give a smaller gap. |
| SupplyGap.GapSaturatesAtFourBases | system.js:14 | With 4 or more bases, the gap equals the 4-base gap. |
| SupplyGap.GapExamples | system.js:10-18 | gap(0,1)=4, gap(13,1)=4, gap(80,1)=8, gap(0,4)=16, gap(0,10)=16, gap(200,10)=80. |
| Geometry.DistanceComparisons | system.js:40-44 | For every radius r >= 0, each squared-distance test (<=, <, >, >=) agrees with the same test on the true distance. |
| Geometry.CentroidWithinBounds | system.js:108 | The mean of the behind-mineral-line cells lies inside every axis-aligned box that holds all the cells. |
| Seqs.Filter | system.js:37-46 | `filter` (also at system.js:55, 63, 70, 85 and 110) keeps exactly the elements that pass the test, as a sub-multiset of its input. It returns its input unchanged exactly when every element passes, and returns nothing exactly when none does. |
| Seqs.FilterCount | system.js:63-66 | `filter` keeps every occurrence of each element that passes the test, and no occurrence of any other element. |
| Seqs.FilterAppend | system.js:63-66 | Filtering a concatenation gives the filtered parts, in order. |
| Seqs.FirstIndex | system.js:76-80 | `find` gives the first index whose element satisfies the test. It gives None exactly when no element does. |
| Seqs.SortBy | system.js:146 | `sort` with a numeric comparator returns a permutation of its input, ascending in the key (the comparator at system.js:69 sorts descending, as the key negated). |
| Placement.Coverage | system.js:63-66 | A cell's coverage is at most the wall's length. It equals the wall's length exactly when the cell covers every wall cell (distance 1 to 6.5), and it is 0 exactly when the cell covers none. |
| Placement.CoverageAppend | system.js:63-66 | Coverage adds up over the parts of a wall. With `CoverageSingle` this makes it exactly the number of wall cells covered. |
| Placement.CoverageSingle | system.js:63-66 | A single wall cell adds 1 to the coverage if it lies at distance 1 to 6.5, and 0 otherwise. |
| Placement.ChooseStrategy | system.js:32-113 | The priority order. 0 pylons: main cluster. 1 pylon: natural front. Otherwise the first occupied expansion with no pylon strictly within 6.5 of its base. Failing that, the first one with neither a pylon on a behind-mineral-line cell nor the label. Failing that, the fallback. Each case holds exactly when its condition holds. |
| Placement.FindSupplyPositions | system.js:24-115 | Labels only grow. They grow by at most one id: that of an occupied expansion that was not labelled before. Only the behind-mineral-line strategy adds it. |
| Placement.FirstPylonCandidates | system.js:32-48 | With no pylon, the candidates are exactly the main's fill cells that meet three tests: within 6.5 of the main base, more than 2 from every mineral-line cell, and more than 3 from every geyser. Labels are unchanged. |
| Placement.MostCoverageIsMaximal | system.js:61-70 | The sort-and-filter fallback keeps exactly the front cells that no other front cell out-covers. It returns some cell whenever the front has one. |
| Placement.NaturalFrontWallBand | system.js:54-58 | When some front cell has every wall cell at distance 3 to 6.5, the natural-front result is exactly those cells. |
| Placement.NaturalFrontCoverage | system.js:60-71 | When no front cell is in that band, the result is exactly the front cells of maximal coverage. It is non-empty when the front is. |
| Placement.SecondPylonWallBand | system.js:51-58 | With one pylon, and some front cell in the wall band: the candidates are exactly the front cells in the band. Labels are unchanged. |
| Placement.SecondPylonMostCoverage | system.js:51-74 | With one pylon, and no front cell in the band: the candidates are exactly the maximal-coverage front cells. Labels are unchanged. |
| Placement.SuperPylonCandidates | system.js:76-91 | With two or more pylons, take the first occupied expansion with no pylon strictly within 6.5 of its base. The candidates are exactly its grid cells at distance strictly between 3.5 and 6.5 from that base. No label is set. |
| Placement.BehindMineralLineCandidates | system.js:94-110 | Take the first expansion with no behind-mineral-line pylon and no label. Exactly its id is added to the labels. The candidates are exactly its behind-mineral-line cells strictly within 5 of their centroid. |
| Placement.FallbackCandidates | system.js:111-113 | With nothing left to cover: the main's grid cells, then the natural's grid cells. Labels are unchanged. |
| Placement.CandidatesWithinTopology | system.js:32-113 | Every candidate is a cell of the map's own sets. The selector never makes up a coordinate. |
| Placement.BehindMineralLineIsOneShot | system.js:100-106 | Once the behind-mineral-line strategy has taken an expansion, that expansion carries the label. The selector, run again on the updated labels, never takes it again. |
| Placement.LabelledNeverChosen | system.js:94-103 | For any map and pylons, an expansion whose id carries the label is never taken by the behind-mineral-line strategy. |
| Placement.LabelBlocksOnlyItsExpansion | system.js:101-106 | With distinct expansion ids, the new label blocks the expansion it was set for, and every other expansion needs a behind-mineral-line pylon after the step exactly when it did before. |
| Controller.RandomPositions | system.js:143-148 | For every sequence of random draws, the sample has min(n, 20) cells and is a sub-multiset of the candidates. |
| Controller.ProbesWithinTopology | system.js:141-151 | Every cell sent to the placement check is a cell of the map. |
| Controller.SupplySystem.AttemptFacts | system.js:150-155 | One attempt adds at most one build order. A confirmed cell is a cell of the map. |
| Controller.SupplySystem.OnStep | system.js:116-157 | At or above 200 projected supply nothing changes. Nothing changes unless all three tests hold: the buffer is short of the gap, a pylon is affordable, and no pylon order is pending. Labels never shrink. When a pylon is wanted, labels become the selector's labels, and the log gains one placement check over the sample, then a build only at a confirmed cell. At most one build per step, at a probed map cell. |
| Controller.TwoSteps | system.js:94-106 | Two consecutive steps on any two worlds, each with its own placement check. Labels only accumulate, and the second step selects with the labels the first left. When the second step wants a pylon and uses the behind-mineral-line strategy, it adds exactly the id of its target, which was unlabelled after the first step. Otherwise the second step leaves the labels unchanged. |
| Controller.OpeningEconomyWantsPylon | system.js:126-140 | Opening economy (13 of 15 supply, one base): gap 4, buffer 2, so a pylon is wanted. |
| Controller.OpeningCandidates | system.js:32-48 | With no pylon, a fill cell 3 from the main base, with no minerals or geysers, is the only candidate. |
| Controller.SingleProbe | system.js:144-148 | A single candidate is the whole sample, whatever the draws. |

`Controller.OpeningStep` walks through the opening step; the verifier proves
it ends with one placement check and one build at the only candidate. `Controller.CeilingStep`
shows that a step at exactly 200 projected supply sends nothing.

## Left out

- Registration through `createSystem`, the `debug`/`debugSilly` logging and the `resources.get()` plumbing (system.js:3-8, 16, 20-25, 117): framework wiring.
- The asynchronous `actions.canPlace` and `actions.build` calls (system.js:151-154). The placement check is an oracle function. Its only promise is that a confirmed cell is one of the cells it was given. A build order is an entry in the log. The real placement check and what the build command does in the game are not modelled.
- `frontOfGrid`, `map.getExpansions`, `map.getNatural().getWall()`, `map.getOccupiedExpansions`, `units.getById`, `units.getBases`, `units.inProgress`, `units.withCurrentOrders`, `data.getUnitTypeData`, `agent.canAfford` and the `SupplyUnitRace` mapping: library queries. Their results are the inputs `MapView`, the pylon positions and `Economy`.
- `map.getNatural()` and the second entry of `map.getExpansions()` are separate inputs. The first gives the front cells and the wall; the second gives the fallback grid. The model does not assume they are the same expansion.
- `Math.random` (system.js:145): the draws are a parameter `rand`, and every property holds for every choice of draws. The model does not show that every permutation of the candidates can come out of the sort.
- Seqs.SortBy: an insertion sort. It is proved to return a sorted permutation. Its stability and the JavaScript engine's own sort algorithm are not modelled. Among cells with equal keys, the order may differ from the engine's.
- Floating-point `distance` (a square root) and the epsilon of `areEqual`. Distances are exact reals compared through their squares. `areEqual` is a parameter.
- The `point.coverage` field written on shared point objects (system.js:63). Coverage is a function, and the points are not changed.
- The `gameLoop` argument of `calculateSupplyGap`, which is unused.
- Integer widths: supply values are unbounded integers. JavaScript numbers are exact at these sizes.
- Errors the source does not handle. An expansion without a town hall would make `getBase().pos` throw. A map with fewer than two expansions leaves `natural` undefined at system.js:113. In the model every expansion has a base position, and the map always has a main and a natural.
- `avgPoints` of an empty list. For an expansion with no behind-mineral-line cells the model returns no candidates, because filtering an empty list gives an empty list whatever the centroid is. The label is still set.
- Expansion ids: labels are keyed by expansion id, and ids are not required to be distinct. Two occupied expansions with the same id would share one label, while system.js:101 keeps labels per expansion object. `Placement.DistinctIds` names the condition under which the two agree, and `Placement.LabelBlocksOnlyItsExpansion` is stated under it.
- Labels other than "attemptedBML". The label set lives in the `SupplySystem` object, keyed by expansion id, rather than on the shared expansion objects.
