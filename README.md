# ElementSim core in Dafny

ElementSim is a falling-sand sandbox. A fixed grid of 256 by 128 particle records is
advanced frame by frame. In each frame the dispatcher visits every cell, column by
column, and calls the rule of the material found there. The rules are:

- liquids fall, slide and spread, displacing lighter liquids;
- moveable solids fall, slide and slip, and wake their neighbours;
- gases rise and drift;
- fire burns and spreads.

A paint tool stamps a square brush of one material into the grid.

This project models that core:

- the particle record and its material tables;
- the grid store with `get_p`, `in_bounds`, `swap`, `set_empty` and the initial reset;
- every material rule, with the density, lava, corrosion and flammability checks;
- the frame dispatcher `run_simulation` / `inner_sim_loop`;
- the brush `add_particles`.

The grid is a `Simulation` object. It owns an `array<Particle>` that the rules update
in place. `rand()` is a separate `Rng` object whose k-th call returns `rolls(k)` for an
arbitrary function `rolls`. So every property below holds for every sequence of random
numbers.

Modules follow the source:

| module | models |
|---|---|
| `Particles` | `particles.h` |
| `SimConfig` | the constants and colours of `simulation.h` |
| `Grid` | the store part of `simulation.cpp` |
| `Velocity` | particle speeds as fixed-point arithmetic |
| `Reactions` | the tables and the check helpers of `particles.cpp` |
| `Liquids`, `LiquidRules` | `update_liquid` and the four liquid wrappers |
| `Solids` | `update_moveable_solid`, sand and gunpowder |
| `Gases` | `update_gas`, toxic gas, steam and smoke |
| `Fire` | `update_fire` |
| `Frame` | `run_simulation` and `inner_sim_loop` |
| `Paint` | `add_particles` |

Each rule method is tied to its effect on the grid and the random source in one of two
ways:

- its `ensures` equals a pure function of the old grid (the reactions, fire, the brush,
  the gases, the liquids, the horizontal pass of the solids);
- or it states a predicate of the old grid, the grids the rule passes through, the new
  grid and the final position of the moving record that says which case of the rule
  ran, which cells it tested in which order, and what is kept (the fall, the slip and
  the settling of the moveable solids).

Lemmas about those functions and predicates state what the source promises of them.

Every motion rule satisfies these:

- it keeps the multiset of materials;
- it changes only a bounded neighbourhood;
- it never displaces what the source forbids it to displace.

Velocities are fixed point in tenths of a cell per frame. Gravity is 1, the cap 30,
friction 5, the sand spread 15 and the gunpowder spread 20. `round` rounds halves away
from zero, as C's `round` does.

Where the documented behaviour of ElementSim and its code differ, the model follows the code:

- Water, acid and lava run their reactions around the position the rule was called
  with, not around where the liquid ended up after moving. An acid that moved
  therefore turns whatever now sits in its starting cell into toxic gas.
- Water only looks for lava. It turns the first lava neighbour in the order below,
  above, right, left into stone, and its own starting cell into steam. Other
  neighbours are never petrified.
- Free fall is passed to every solid-flagged neighbour that is not in free fall. In
  the model only moveable solids carry the field. See "Left out".
- The frame parity starts true and is flipped before each frame. So the first frame
  scans the columns right to left.

## Model

| member | source | states |
|---|---|---|
| `Particles.Ordinal` | particles.h:4-19 | the enumerator values 0..12; a value is 12 exactly for empty |
| `Particles.OrdinalInjective` | particles.h:4-19 | distinct materials have distinct ordinals, so ordinal comparisons order materials |
| `Particles.FlagOf` | simulation.cpp:286-351 | the phase each creation site gives a material: liquid exactly for oil, water, acid and lava; gas exactly for toxic gas, steam and smoke; empty exactly for empty |
| `Particles.LiquidOrdinals` | particles.h:6-9 | the liquids are exactly the ordinals 0..3, in the density order oil < water < acid < lava |
| `Particles.DefaultPayload` | particles.h:37-51 | the union part of a record built without initialising it: a fire/gas payload for materials with health, a resting motion payload for moveable solids |
| `SimConfig.Created` | simulation.cpp:276-351 | a freshly built record of a material: its phase and colour, zero speed, marker clear, well formed |
| `SimConfig.WithHealth` | particles.cpp:459-463 | a record of a health-carrying material with the given health and its own colour |
| `SimConfig.GridDimensions` | simulation.h:7-8 | the grid holds 32768 cells and is twice as wide as high |
| `Grid.Index` | simulation.cpp:371-373 | the row-major index x + y * WIDTH of an in-bounds position lies in the grid and gives x and y back |
| `Grid.IndexInjective` | simulation.cpp:371-373 | two in-bounds positions with the same index are the same position |
| `Grid.IndexOnto` | simulation.cpp:376-382 | every grid index is the index of an in-bounds position |
| `Grid.Swapped` | simulation.cpp:384-389 | a swap exchanges two cells and leaves every other cell alone |
| `Grid.SwapTwice` | simulation.cpp:384-389 | swapping the same two cells twice restores the grid |
| `Grid.SwapKeepsTypes` | simulation.cpp:384-389 | a swap keeps the multiset of materials |
| `Grid.Emptied` | simulation.cpp:391-397 | set_empty rewrites material, phase and colour to empty and keeps every other field |
| `Grid.Rng.Next` | particles.cpp:207 | one call of rand() returns the next roll and advances the roll count by one |
| `Grid.Simulation.Init` | simulation.cpp:48-57 | after allocation and the reset loop, every cell is empty in material, phase and colour, and every record is well formed |
| `Grid.Simulation.Swap` | simulation.cpp:384-389 | the grid becomes the swapped grid; the material multiset is kept |
| `Grid.Simulation.SetEmpty` | simulation.cpp:391-397 | only the given cell changes, to its emptied record |
| `Grid.Simulation.Write` | simulation.cpp:371-373 | storing through get_p changes exactly one cell |
| `Velocity.Round` | particles.cpp:328 | round on tenths: the result is within half a cell of the speed, halves away from zero |
| `Velocity.Accelerated` | particles.cpp:212 | gravity adds 0.1 and caps at 3.0: the result is positive, at most the cap, and either the sum or the cap |
| `Velocity.FallSteps` | particles.cpp:213 | a fall loop of round(yVel) + 1 passes under the cap runs one to four times, and once from rest |
| `Velocity.SlideVelocity` | particles.cpp:360 | the sideways speed a landing gives has the slide direction's sign and magnitude at most yVel / spread |
| `Reactions.TablesByOrdinal` | particles.cpp:16-34 | the corrosion, flammability and base fire health functions agree entry by entry with the tables indexed by ordinal |
| `Reactions.CorrodibleMaterials` | particles.cpp:16 | acid can eat exactly sand, gunpowder, wood and stone |
| `Reactions.FlammabilityCodes` | particles.cpp:33 | code -2 is exactly water, -1 exactly acid; the flammable materials are exactly oil, gunpowder, wood and toxic gas |
| `Reactions.DensityDisplacesOnlyLighterLiquids` | particles.cpp:285-288 | for a liquid mover, density_check holds exactly for lighter liquids, never a solid, gas, fire or empty cell |
| `Reactions.DensityOrderOfLiquids` | particles.cpp:285-288 | lava outweighs acid, acid water, water oil; oil outweighs nothing |
| `Reactions.Ignited` | particles.cpp:473-483 | a set-alight record is solid fire with the burnt material's base health and its old material, phase and colour |
| `Reactions.FlammabilityRolls` | particles.cpp:442-491 | flammability_check draws at most one roll: exactly one for a flammable material, none for a material of code 0, and none for water or acid without steam |
| `Reactions.FlammabilityOutcome` | particles.cpp:446-487 | true exactly when steam is set, the material is water or acid and the roll passes 1 in 20; water then becomes steam; a flammable material on a passing roll becomes fire; nothing else changes |
| `Reactions.WoodIgnites` | particles.cpp:469-485 | wood on a passing roll becomes fire with health 200 remembering wood, and the check reports false |
| `Reactions.LavaModeNeverExtinguishes` | particles.cpp:450-468 | without steam the check never reports true and the cell keeps its material or becomes fire |
| `Reactions.Corrodes` | particles.cpp:307-308 | a corrosion roll can pass only on the four corrodible materials, and does for wood on a roll of 1 modulo 30 |
| `Reactions.LavaCheck` | particles.cpp:290-303 | true exactly when the in-bounds cell is lava; that cell then becomes stone and nothing else changes |
| `Reactions.CorrosionProbe` | particles.cpp:305-315 | corrosion_check as a value: true only on a corrodible in-bounds cell with a passing roll, using one roll; no roll off the grid or on an incorrodible cell |
| `Reactions.CorrosionCheck` | particles.cpp:305-315 | the result and roll count equal CorrosionProbe; on true the cell is emptied, otherwise the grid is unchanged |
| `Reactions.FlammabilityProbe` | particles.cpp:442-491 | flammability_check as a value: off the grid nothing happens; on it only the probed cell changes, to FlammabilityOutcome, using FlammabilityRolls rolls |
| `Reactions.LavaProbeOnlyIgnites` | particles.cpp:442-491 | without steam a probe reports false and its only possible change is a flammable cell set alight |
| `Reactions.FlammabilityCheck` | particles.cpp:442-491 | the result, grid and roll count equal FlammabilityProbe of the old grid |
| `Liquids.FallLoop` | particles.cpp:213-231 | the grid and the row become FallFrom of the old grid: the loop as written, with round(yVel) + 1 re-read after each pass, yVel zeroed before a density displacement, and a blocked step zeroing yVel and ending the loop |
| `Liquids.FallFromPath` | particles.cpp:213-231 | the fall loop passes only empty cells, the last entered empty or a lighter liquid, at most the passes left; it stops early without a displacement only above a cell it may not enter; the record keeps its yVel only after using every pass without a displacement at the end, and otherwise carries zero |
| `Liquids.LiquidFall` | particles.cpp:211-231 | the grid and the row become LiquidFallen of the old grid: yVel accelerated and capped, then the fall loop from its first pass |
| `Liquids.LiquidFallenFacts` | particles.cpp:211-231 | a fall is FellStraight for the accelerated speed (empty cells passed, the last one empty or a displaced lighter liquid, at most round(yVel) + 1 rows, an early stop only above a cell it may not enter) and leaves the record with SpeedAfter; without a fall the cell below was closed and only yVel became zero |
| `Liquids.LiquidSpread` | particles.cpp:253-263 | the grid and the column become SpreadFrom of the old grid from pass 1: step toward s while fewer than spreadDist cells are done and the next cell may be entered |
| `Liquids.SpreadFromInv` | particles.cpp:250-263 | a spread goes toward its side only, at least one and at most spreadDist cells, stops short of spreadDist only at a cell it may not enter, displaces no solid or gas and keeps the material multiset |
| `Liquids.SpreadFromRecord` | particles.cpp:253-263 | the spread carries the liquid record unchanged to where it stops |
| `Liquids.LiquidSlide` | particles.cpp:236-247 | it slides down toward dir, else down the other way, each only when it may enter; it stays exactly when it may enter neither |
| `Liquids.LiquidLateral` | particles.cpp:248-281 | the grid and the column become LateralFrom toward dir when that cell may be entered, else LateralFrom the other way, which changes nothing when that side is closed too |
| `Liquids.LiquidSideways` | particles.cpp:234-282 | the grid and the position become LiquidShifted of the old grid: down toward dir, else down the other way, else sideways toward dir and spread, else sideways the other way and spread |
| `Liquids.LiquidShiftedFacts` | particles.cpp:234-282 | with the cell below closed and yVel zeroed, the branches end in a one-cell diagonal slide taking the rolled side whenever it is open (SlidDiagonally), or, all three cells below closed, a spread taking the rolled side whenever it is open (SpreadSideways), or staying put with only yVel reset (Stuck); no solid or gas is displaced and the multiset is kept |
| `Liquids.LiquidMotionRecord` | particles.cpp:205-283 | wherever the liquid ends, its record is the original with only yVel changed, to SpeedAfter: the accelerated speed after a full fall that displaced nothing at the end, zero after a displacement, a blocked step, a slide, a spread or staying put |
| `Liquids.LiquidMotionUpdated` | particles.cpp:205-283 | LiquidMotion of a liquid in a well-formed grid satisfies LiquidUpdated |
| `Liquids.UpdateLiquid` | particles.cpp:205-283 | one roll picks the side (even: +1); then LiquidUpdated: the grid and the final position are exactly LiquidMotion of the old grid for that side, the record is the original with yVel SpeedAfter, exactly one of a straight fall, a diagonal slide, a sideways spread or staying put happened, each as its predicate states, only the liquid's neighbourhood changed, no solid or gas was displaced and the material multiset is kept |
| `LiquidRules.FirstLavaFinds` | particles.cpp:64-65 | the short-circuit chain stops at the first probed neighbour holding lava and none before it does |
| `LiquidRules.WaterReaction` | particles.cpp:64-73 | water's reaction as a value on the grid, of full size |
| `LiquidRules.WaterWithoutLavaChangesNothing` | particles.cpp:64-65 | with no lava below, above, right or left, the reaction changes nothing |
| `LiquidRules.WaterQuenchesOneLava` | particles.cpp:64-72 | when some neighbour is lava, exactly one lava record disappears from the grid |
| `LiquidRules.WaterLeavesSteam` | particles.cpp:66-72 | when some neighbour is lava, the water's starting cell holds fresh steam with health 300 |
| `LiquidRules.WaterReactionCases` | particles.cpp:64-73 | the reaction case by case in the source's order: the first lava neighbour becomes stone and the starting cell steam |
| `LiquidRules.WaterReact` | particles.cpp:64-73 | the grid becomes WaterReaction of the old grid, with no rolls |
| `LiquidRules.UpdateWater` | particles.cpp:60-74 | LiquidUpdated with water's spread and the rolled side, so the intermediate grid is exactly LiquidMotion of the old one, then WaterReaction of that grid at the called position |
| `LiquidRules.AcidReaction` | particles.cpp:80-88 | acid's reaction as a value; unless it fires, the grid is unchanged; it draws at most three rolls |
| `LiquidRules.NothingToCorrode` | particles.cpp:80-81 | with nothing corrodible below, right or left, nothing changes and no roll is drawn |
| `LiquidRules.AcidEatsOneSolid` | particles.cpp:80-88 | when the reaction fires, one probed corrodible neighbour was emptied on a passing roll and the starting cell became toxic gas |
| `LiquidRules.AcidReact` | particles.cpp:80-88 | the grid and roll count equal AcidReaction of the old ones |
| `LiquidRules.UpdateAcid` | particles.cpp:76-89 | LiquidUpdated with acid's spread and the rolled side, so the intermediate grid is exactly LiquidMotion of the old one, then AcidReaction of that grid at the called position |
| `LiquidRules.LavaBurn` | particles.cpp:95-97 | lava's three flammability checks without steam, as a value, drawing at most three rolls and keeping every record well formed |
| `LiquidRules.LavaOnlyIgnites` | particles.cpp:95-97 | lava changes only flammable neighbours below, right or left, and only by setting them alight |
| `LiquidRules.LavaAmongNonFlammables` | particles.cpp:95-97 | with no flammable neighbour, lava changes nothing and draws no roll |
| `LiquidRules.LavaReact` | particles.cpp:95-97 | the grid and roll count equal LavaBurn of the old ones |
| `LiquidRules.UpdateLava` | particles.cpp:91-98 | LiquidUpdated with lava's spread and the rolled side, so the intermediate grid is exactly LiquidMotion of the old one, then LavaBurn of that grid at the called position |
| `LiquidRules.UpdateOil` | particles.cpp:55-58 | LiquidUpdated with water's spread distance 4 and the rolled side, so the grid is LiquidMotion of the old one; one roll |
| `Solids.HorizontalPass` | particles.cpp:330-342 | one pass: the grid and the column become HorizontalPassed of the old grid; it enters the next non-solid cell, losing at most one friction step, or zeroes the speed and stays |
| `Solids.HorizontalPassed` | particles.cpp:330-342 | one pass as a value: the solid enters cell cx + sign exactly when that cell is in the grid and not solid, and otherwise only its xVel becomes zero |
| `Solids.HorizontalHeading` | particles.cpp:327-343 | over the whole loop the solid ends where it started or in the direction of the sign it started with |
| `Solids.HorizontalFreeRun` | particles.cpp:327-343 | over cells in the grid, not solid and not above solid ground, the solid goes exactly the magnitude of round(xVel) cells and keeps its speed |
| `Solids.HorizontalMotion` | particles.cpp:327-343 | the grid and the column become Horizontal of the grid (the loop as written, bound re-read after each pass); the solid moves only across non-solid cells of its row, in the sign of its speed, and for rightward speed at most round(xVel) cells |
| `Solids.FallLoop` | particles.cpp:348-364 | it falls only through non-solid cells, each record it passes moving up one row and nothing else changing; on landing the fall speed becomes SlideVelocity and yVel zero; if it never lands it fell exactly round(v) + 1 rows |
| `Solids.RaiseStep` | particles.cpp:350-355 | one swap of the falling solid with the untouched record below it keeps every passed record one row higher and nothing else changed |
| `Solids.SolidFall` | particles.cpp:346-364 | SolidFell: acceleration then the fall loop; at most round(a) + 1 rows for the accelerated speed a, only through non-solid cells, each passed record raised one row; stopping short only above a solid or the edge, with the landing slide speed and yVel zero; otherwise the speed a is kept |
| `Solids.SolidSlip` | particles.cpp:367-381 | a slip is tried in free fall, or else on a passing 1 in slipChance roll drawn only then; it goes diagonally toward dir, else the other way, each only into a non-solid cell |
| `Solids.DiagonalSlip` | particles.cpp:369-380 | a tried slip moves to the first non-solid of the two lower diagonals, in the source's order, or stays with the grid unchanged |
| `Solids.Nudged` | particles.cpp:395-400 | one neighbour test: only a solid at rest there can change |
| `Solids.PropagationOnlyWakes` | particles.cpp:391-401 | propagation only sets the free-fall value of resting solids below, right or left, to the rolled value, and leaves the solid itself alone |
| `Solids.PropagationWakesAllTouching` | particles.cpp:391-401 | every resting solid below, right or left ends with the rolled free-fall value |
| `Solids.PropagationKeepsTypes` | particles.cpp:391-401 | propagation keeps every material and every record well formed |
| `Solids.Propagate` | particles.cpp:391-401 | the grid becomes Propagated of the old grid |
| `Solids.WithLast` | particles.cpp:322-324 | recording the last position changes only the motion payload's coordinates |
| `Solids.SolidMotion` | particles.cpp:326-381 | SolidMoved, through the grids it passes: the horizontal phase is exactly Horizontal of the start grid, the fall is SolidFell of that grid, a solid that fell ends there without another roll, and one that did not slips as SolidSlipped for the rolled side, drawing the slip roll only when it was not in free fall; the material multiset is kept |
| `Solids.SetFreeFall` | particles.cpp:383-388 | free fall is set exactly when the solid ended somewhere other than its start |
| `Solids.Settle` | particles.cpp:383-401 | after free fall is set, propagation runs with the rolled value only when the solid moved |
| `Solids.MoveAndSettle` | particles.cpp:322-401 | SolidSettled: the last position recorded, the motion is SolidMoved, free fall is set exactly when the solid moved, it moved only into a cell that was not solid, only rows y..y+4 changed with no other solid displaced, and a moving solid passes the result of one more roll to its resting neighbours (Propagated) |
| `Solids.UpdateMoveableSolid` | particles.cpp:317-402 | SolidUpdated: one roll picks the side (even: +1), then SolidSettled for that side: the horizontal pass, the fall and the slip as SolidMoved states them, free fall set exactly when the solid moved, the destination not solid, only rows y..y+4 changed, and propagation with the last roll exactly when it moved; one to three rolls |
| `Solids.UpdateSand` | particles.cpp:100-103 | SolidUpdated with sand's inertial resistance 2, spread 1.5 and slip chance 1 in 1000 passed on |
| `Solids.UpdateGunpowder` | particles.cpp:105-108 | SolidUpdated with gunpowder's inertial resistance 4, spread 2.0 and slip chance 1 in 3000 passed on |
| `Gases.GasRiseDiagonal` | particles.cpp:417-430 | the grid and the gas's position become GasDiagonal of the old grid: diagonally up toward the rolled side when that cell is empty or liquid, else the other way when that one is, else no change |
| `Gases.GasRise` | particles.cpp:409-430 | the grid and the gas's position become GasRisen of the old grid: straight up when that cell is empty or liquid, then from there diagonally up toward the rolled side, else the other way |
| `Gases.GasDrift` | particles.cpp:432-439 | the grid and the gas's column become GasDrifted of the old grid: a swap toward the rolled side when open, then a swap from the unchanged column x toward the other side when open |
| `Gases.UpdateGas` | particles.cpp:404-440 | one roll picks the side (even: +1); the grid and the gas's final position are GasMotion of the old grid for that side, so the gas record stays whole, only cells one column aside and two rows up change, no solid or other gas is displaced and the material multiset is kept |
| `Gases.GasMove` | particles.cpp:409-438 | a move happens exactly when the target is in the grid and empty or liquid, and is then a swap; otherwise nothing changes |
| `Gases.GasMotionKeepsNeighbourhood` | particles.cpp:404-440 | GasMotion keeps the gas record whole, displaces no solid or other gas, changes only cells one column aside and two rows up, keeps the materials, and rises exactly when one of the three cells above is open |
| `Gases.GasRiseKeepsNeighbourhood` | particles.cpp:409-430 | the rising half keeps the same facts, and a gas that does not rise leaves the grid as it was |
| `Gases.GasDriftKeepsNeighbourhood` | particles.cpp:432-439 | the sideways half keeps the gas record whole in its row, displaces no solid or other gas, changes only the neighbourhood and keeps the materials |
| `Gases.GasFlutters` | particles.cpp:409-423 | with the cell above and the cell diagonally above that toward the rolled side both open, the gas ends two rows up and one column toward that side, and the two records it passed each move one step down its path |
| `Gases.GasDriftQuirk` | particles.cpp:432-439 | a gas that cannot rise, both sides open, ends one column toward the rolled side, and the record it displaced is swapped on to the far side because the column is not advanced |
| `Gases.UpdateToxicGas` | particles.cpp:110-113 | update_gas: one roll, and the grid and position are GasMotion of the old grid for the rolled side |
| `Gases.Decayed` | particles.cpp:135 | one health lower, same material |
| `Gases.Aged` | particles.cpp:121-136 | the record at (x, y) is marked updated and one health lower, every other cell unchanged |
| `Gases.UpdateDecayingGas` | particles.cpp:115-157 | an already updated record changes nothing and draws no roll; spent health gives the replacement without a roll; otherwise one roll, and the grid and position are GasMotion of the grid with the record marked and decayed (Aged) |
| `Gases.UpdateSteam` | particles.cpp:115-138 | updated steam is skipped; spent steam becomes fresh water; otherwise one roll, and the grid and position are GasMotion of Aged of the old grid |
| `Gases.UpdateSmoke` | particles.cpp:140-157 | updated smoke is skipped; spent smoke is emptied (marked updated); otherwise one roll, and the grid and position are GasMotion of Aged of the old grid |
| `Fire.FireChecks` | particles.cpp:172-175 | the short-circuit chain over the eight neighbours, of full size, keeping records well formed |
| `Fire.FireChecksEffect` | particles.cpp:172-175 | the chain only ignites flammable neighbours or turns one water neighbour to steam; if it stops, that neighbour was water or acid |
| `Fire.NothingDousesFire` | particles.cpp:172-175 | with no water or acid around, the chain never puts the fire out and only ignites |
| `Fire.Reverted` | particles.cpp:177-184 | a put-out fire becomes its old material, phase and colour at rest |
| `Fire.SmokeCell` | particles.cpp:196-199 | smoke goes to the empty cell above, else to the empty cell below |
| `Fire.SmokeOnlyFillsEmpty` | particles.cpp:187-200 | the smoke roll changes at most one cell, an empty one directly above or below, to fresh smoke |
| `Fire.FireStepEffect` | particles.cpp:159-201 | a burning fire leaves its cell the fire one health lower, or, only next to water or acid, what it had burnt; every other change is an ignited neighbour, water turned to steam, or smoke in an empty cell above or below |
| `Fire.FireReact` | particles.cpp:172-175 | the chain's result, grid and roll count equal FireChecks of the old ones |
| `Fire.UpdateFire` | particles.cpp:159-201 | a fire with no health is emptied without a roll; otherwise the grid and roll count equal FireStep of the old ones |
| `Fire.Burn` | particles.cpp:169-185 | decay, the chain and the revert give Burnt of the old grid and roll count |
| `Fire.SpawnSmoke` | particles.cpp:187-200 | one roll; the grid becomes Smoked of the old grid |
| `Frame.FrameOrder` | simulation.cpp:74-83 | the positions a frame visits, one per cell |
| `Frame.ColumnScanOrder` | simulation.cpp:94 | a column is visited from the bottom row up |
| `Frame.FrameBlock` | simulation.cpp:74-83 | the frame order is column after column: left to right on a true parity, right to left on a false one |
| `Frame.FrameVisitsEachCellOnce` | simulation.cpp:68-132 | either parity visits only in-bounds positions, every one, and none twice |
| `Frame.ParitiesMirrorColumns` | simulation.cpp:74-83 | at every step, frames of opposite parity are in mirrored columns at the same row |
| `Frame.Dispatch` | simulation.cpp:96-130 | the switch calls the rule of the cell's material; empty, wood and stone change nothing; oil, sand, gunpowder and toxic gas keep the material multiset |
| `Frame.InnerSimLoop` | simulation.cpp:91-132 | the column's rows are dispatched from row HEIGHT - 1 down to 0 |
| `Frame.RunSimulation` | simulation.cpp:68-89 | the parity flips, the dispatch order is FrameOrder of the new parity, and afterwards every cell's updated marker is clear |
| `Frame.ResetUpdated` | simulation.cpp:85-88 | every cell loses its updated marker and nothing else changes |
| `Paint.Painted` | simulation.cpp:276-351 | the brush record: the material's phase and colour, zero speed, marker clear, free fall off for moveable solids, health 5 over an empty cell for fire |
| `Paint.Stamp` | simulation.cpp:362-366 | the record a stroke writes: the painted record with the stroke centre as last position for moveable solids |
| `Paint.BrushIdempotent` | simulation.cpp:354-368 | a second identical stroke changes nothing |
| `Paint.BrushRespectsOccupiedCells` | simulation.cpp:362 | painting never overwrites a non-empty cell, and erasing clears every covered cell |
| `Paint.AddParticles` | simulation.cpp:274-369 | brush size 0 writes the painted record at the brush centre; otherwise every in-bounds covered cell that is empty, or every one when erasing, gets the stamp, and every other cell is unchanged |

## Left out

- Rendering, input handling, window and surface set-up, `main` and `close_simulation`
  are not modelled. They are display and OS I/O. So are the `srand(time)` seeding and
  the allocation-failure return of `init_simulation`. The allocation is modelled as
  zero-filled memory.
- `rand()` is an oracle `rolls: nat -> nat` indexed by the number of calls so far. No
  distribution is modelled.
- Floating point: `xVel` and `yVel` are integers in tenths. The slide conversion
  `yVel * dir / spread` and the friction step are therefore exact to a tenth. The
  model truncates the conversion toward zero where the source keeps a float.
- The anonymous union is a tagged payload: a motion part for sand and gunpowder, a
  health / old-material part for steam, smoke and fire. The source's aliasing between
  the two parts is not modelled:
  - free-fall propagation reaches every solid-flagged neighbour at rest, including
    wood, stone and fire; on fire this overwrites its old phase (`oldFlag`), which
    shares storage with `freeFall`. The model only wakes moveable solids.
  - the brush stores its centre's column and row into every record it paints. For
    painted fire the column lands on its health and the row on its old type. The model
    gives painted fire health 5 over an empty cell whatever the brush size.
- Fields the source leaves uninitialised get defaults, and `add_particles` has no case
  for toxic gas, steam or smoke. The defaults are zero speed, a clear marker, the
  material's own phase and colour, and `DefaultPayload`. This touches records built by
  the reactions, by `lava_check` and by that brush path.
- `Frame.Dispatch`: states the material multiset as kept only for the rules that keep
  it. Water, acid, lava, steam, smoke and fire change materials, and their effect is
  stated by their own rule.
- `Frame.RunSimulation`: states the order of dispatch and the final marker reset, but
  not the composed effect of every rule over a frame.
