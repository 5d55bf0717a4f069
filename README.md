# perturbU in Dafny

perturbU is a set of three OpenFOAM utilities. Each one seeds a
wall-bounded flow with near-wall streaks (the Schoppa–Hussain streak model) so
that a large-eddy simulation starts to become turbulent. Each makes one pass
over the velocity field of a mesh, cell by cell, and writes the field back in
place:

- **perturbUChannel** handles a plane channel with walls at heights 0 and 2h.
  It reads two mode flags, `setBulk` and `perturb`, and the indices of the
  streamwise and spanwise axes. It rejects configurations it cannot use and
  derives the wall-normal (height) axis. In each cell it can write a laminar
  parabola along the streamwise axis, with the other components zeroed. It
  can then add a streamwise streak and overwrite the spanwise component with
  a spanwise streak.
- **perturbUGeneric** handles a duct of any shape. It takes the reference
  height as the largest wall distance. It builds a per-cell frame: the flow
  direction `Ubar/|Ubar|`, the wall normal, and the spanwise direction, which
  is their cross product scaled to unit length. It then overwrites every cell
  with a laminar profile along `Ubar` plus one streak along each of the flow
  and spanwise directions.
- **perturbUCylinder** handles a pipe of fixed radius along the x axis. It
  overwrites the axial component with a pipe parabola plus a streak, and adds
  a swirl along the tangential direction to the other two components. If the
  velocity field is missing it does nothing.

The model has six modules:
- `Vectors` holds the `vector` type, component access by axis index, dot and
  cross products.
- `Numerics` holds the elementary functions, passed in as a record of
  unconstrained functions, plus `sqr` and `mag`.
- `Streaks` holds the streak constants and formulas shared by the channel and
  generic programs.
- `Channel`, `Generic` and `Cylinder` model the three programs.

Each program is modelled in two layers:
- Its per-cell computation is a pure function `Cell`, and the new field is a
  function `Field` built from `Cell`.
- The loop is a `method` over an `array` of vectors that rewrites the cells in
  place. It is proved to leave the array equal to `Field`.

The lemmas state what the programs promise about `Cell` and `Field`:
- which components are overwritten, accumulated or preserved;
- where the profiles vanish and peak;
- that the frames are orthogonal;
- which inputs are rejected.

Configuration values, cell centres, wall distances, wall normals, the random
draws and the old field are all parameters. Real numbers stand in for
floating point.

## Model

| member | source | states |
|---|---|---|
| Vectors.Set | perturbUChannel/perturbU.C:187-188 | writing component d of a vector sets that component and leaves the other two unchanged |
| Vectors.CrossOrthogonal | perturbUGeneric/perturbU.C:144 | a cross product has zero dot product with both of its factors |
| Vectors.DotDiv | perturbUGeneric/perturbU.C:145 | dividing a vector by a non-zero scalar divides its dot products by that scalar |
| Streaks.Params | perturbUChannel/perturbU.C:152-163 | utau·h = Retau·nu; the streak amplitude utau·duplus/2 is an eighth of the streamwise bulk velocity; the wavenumbers give spacings of 200 and 500 wall units; sigma = 0.00055; epsilon·200 = bulk velocity |
| Streaks.LaminarFactorBounds | perturbUChannel/perturbU.C:188 | for y/h in [0, 1] the factor y/h − ½(y/h)² lies in [0, ½], is 0 at the wall and ½ at y = h |
| Streaks.RatioBounds | perturbUGeneric/perturbU.C:152 | helper step of `LaminarFactorOfRatio`: a wall distance between 0 and h > 0 gives a ratio y/h in [0, 1], 0 at the wall and 1 at h |
| Streaks.LaminarFactorOfRatio | perturbUGeneric/perturbU.C:66-67 | for 0 ≤ y ≤ h the laminar factor at y/h lies in [0, ½], is 0 at the wall and peaks at ½ at y = h |
| Streaks.WallUnits | perturbUChannel/perturbU.C:177-180 | definition, no contract: a length in wall units, t·Retau/h |
| Streaks.Deviation | perturbUChannel/perturbU.C:173 | definition, no contract: the jitter 1 + k·g; k is 0.2 in the channel and 0.1 in the generic program (perturbUGeneric/perturbU.C line 141) |
| Streaks.LaminarFactor | perturbUChannel/perturbU.C:188 | definition, no contract: y/h − ½·sqr(y/h) at y/h; its bounds are `LaminarFactorBounds` |
| Streaks.StreamwiseStreak | perturbUChannel/perturbU.C:194-197 | definition, no contract: (utau·duplus/2)·(yplus/40)·exp(−sigma·yplus² + 0.5)·cos(betaPlus·zplus)·deviation, as also at perturbUGeneric/perturbU.C lines 155-158 |
| Streaks.SpanwiseStreak | perturbUChannel/perturbU.C:200-205 | definition, no contract: epsilon·sin(alphaPlus·xplus)·yplus·exp(−sigma·yplus²)·deviation, as also at perturbUGeneric/perturbU.C lines 161-166 |
| Streaks.StreaksAtWallAndJitter | perturbUChannel/perturbU.C:194-205 | both streaks vanish at yplus = 0 whatever the other coordinates, and both are linear in the jitter factor |
| Streaks.NoAmplitudeNoStreaks | perturbUGeneric/perturbU.C:126-132 | with zero circulation and zero spanwise amplitude both streaks are zero |
| Channel.ToDirection | perturbUChannel/perturbU.C:74-75 | an axis label stored in the 8-bit `direction` is congruent to the label modulo 256, and equal to it for labels 0..255 |
| Channel.Validate | perturbUChannel/perturbU.C:86-102 | a run is accepted exactly when a mode flag is set and the two axes are distinct and at most 2; with both flags off the error is the flag error, which is checked first |
| Channel.HeightDirOf | perturbUChannel/perturbU.C:106-114 | the derived height axis is at most 2 and differs from the spanwise axis; for a valid pair it equals the streamwise axis exactly when streamwise = 1 and spanwise = 0, and otherwise it is the remaining axis |
| Channel.HeightDirAsWritten | perturbUChannel/perturbU.C:106-114 | the two increments of the source compute the derivation `HeightDirOf` |
| Channel.HeightDirCounterexample | perturbUChannel/perturbU.C:104-114 | streamwise 1 and spanwise 0 pass validation, but the derived height axis is the streamwise axis and not the remaining axis |
| Channel.HeightDir | perturbUChannel/perturbU.C:104-105 | the corrected derivation, as the comment describes it: for a valid pair, the height axis is at most 2 and differs from both the streamwise and the spanwise axis |
| Channel.WallDistance | perturbUChannel/perturbU.C:178 | the wall distance is the smaller of c and 2h − c: at most h, and non-negative for points between the walls |
| Channel.WallDistanceMirror | perturbUChannel/perturbU.C:178 | the wall distance is unchanged by mirroring c to 2h − c |
| Channel.SetupOf | perturbUChannel/perturbU.C:70-114 | an accepted configuration gives the streamwise and spanwise axes from the labels, the height axis derived as at lines 106-114, and the flags; its three axes are distinct exactly when the pair is not streamwise 1, spanwise 0 |
| Channel.IntendedSetupOf | perturbUChannel/perturbU.C:104-105 | the evidently intended setup differs from the program's only in the height axis; its three axes are always distinct, and it is the program's setup for every other valid pair |
| Channel.CollidedAxesMoveHeight | perturbUChannel/perturbU.C:94-197 | streamwise 1 and spanwise 0 with perturb alone are accepted; the height axis is then axis 1, the streamwise axis; the wall distance is measured along c.y; and the streak is added to the height component |
| Channel.CellWallDistance | perturbUChannel/perturbU.C:178 | definition, no contract: the wall distance of a centre along the height axis |
| Channel.Baseline | perturbUChannel/perturbU.C:187-188 | definition, no contract: 3·Ubar[streamDir]·LaminarFactor(y/h) |
| Channel.CellStreamwiseStreak | perturbUChannel/perturbU.C:173-197 | definition, no contract: the streamwise streak at the cell's yplus and zplus, with jitter 1 + 0.2·g |
| Channel.CellSpanwiseStreak | perturbUChannel/perturbU.C:173-205 | definition, no contract: the spanwise streak at the cell's yplus and xplus, with jitter 1 + 0.2·g |
| Channel.Assemble | perturbUChannel/perturbU.C:182-206 | definition, no contract: the zeroing and write of setBulk, then the += and = of perturb, on given ingredients; described by `AssembleComponents` |
| Channel.Cell | perturbUChannel/perturbU.C:173-206 | definition, no contract: `Assemble` of the cell's baseline and streaks; described by `CellComponents` |
| Channel.Field | perturbUChannel/perturbU.C:170-207 | definition, no contract: cell i from centre i, jitter draw i and old value i |
| Channel.AssembleComponents | perturbUChannel/perturbU.C:182-206 | the streamwise component is the baseline (setBulk) or its old value, plus the streak (perturb); the spanwise component is overwritten with the spanwise streak (perturb), else zeroed (setBulk) or kept; every other component is zeroed (setBulk) or kept |
| Channel.AssembleAtRest | perturbUChannel/perturbU.C:182-206 | with nothing to add, setBulk gives the zero vector; without setBulk the streamwise and height components are kept and perturb zeroes the spanwise one |
| Channel.CellComponents | perturbUChannel/perturbU.C:173-206 | the same component-by-component description for a whole cell, with the cell's wall distance, streaks and jitter 1 + 0.2·g |
| Channel.PerturbKeepsHeight | perturbUChannel/perturbU.C:191-206 | with three distinct axes and no setBulk, the height component of every cell is left exactly as it was |
| Channel.IntendedKeepsHeight | perturbUChannel/perturbU.C:104-105 | with the intended setup and no setBulk, every accepted run leaves the height component of every cell as it was |
| Channel.BaselineShape | perturbUChannel/perturbU.C:187-188 | the laminar parabola is 0 at the wall and 1.5·Ubar[s] at y = h, with a factor in [0, ½] in between |
| Channel.BulkProfile | perturbUChannel/perturbU.C:182-189 | with setBulk alone a cell becomes zero except its streamwise component, the parabola; that component is 0 on both walls and 1.5·Ubar[s] on the mid-plane |
| Channel.CellAtWall | perturbUChannel/perturbU.C:178-206 | on either wall a cell is at rest with setBulk; without setBulk its streamwise and height components are kept and perturb zeroes its spanwise component |
| Channel.CellAtWallAssembles | perturbUChannel/perturbU.C:178-206 | a cell on either wall is assembled from a zero baseline and zero streaks |
| Channel.CellStreaksAtWall | perturbUChannel/perturbU.C:178-179 | a cell centre on either wall has wall distance 0, so both of its streaks vanish |
| Channel.BulkOnlyIgnoresPriorField | perturbUChannel/perturbU.C:182-189 | with setBulk alone the new value of a cell does not depend on its old value |
| Channel.BulkOnlyIdempotent | perturbUChannel/perturbU.C:182-189 | with setBulk alone, running the pass on its own output gives the same field |
| Channel.PerturbCells | perturbUChannel/perturbU.C:170-207 | the loop leaves cell i equal to the cell function of centre i, jitter draw i and old value i, for every i |
| Channel.Run | perturbUChannel/perturbU.C:86-207 | the outcome is the validation result; a rejected run leaves the field unchanged; an accepted run leaves the field of the loop, computed with the setup of `SetupOf`, whose height axis is derived as in the source |
| Generic.MaxOf | perturbUGeneric/perturbU.C:74 | h is an element of the wall distances and no wall distance exceeds it |
| Generic.SetupOf | perturbUGeneric/perturbU.C:73-132 | the reference height is one of the wall distances and bounds them all; the flow direction is Ubar / \|Ubar\|; the constants are computed from Ubar.x |
| Generic.ParamsUseOnlyX | perturbUGeneric/perturbU.C:126-132 | two bulk velocities with the same x component give the same constants, whatever the flow direction |
| Generic.FrameOrthogonal | perturbUGeneric/perturbU.C:144-145 | xDir ^ yDir, before and after scaling to unit length, has zero dot product with xDir and with yDir |
| Generic.ZDir | perturbUGeneric/perturbU.C:144-145 | definition, no contract: xDir ^ yDir divided by its magnitude; its orthogonality is `FrameOrthogonal` |
| Generic.Baseline | perturbUGeneric/perturbU.C:152 | definition, no contract: 3·Ubar·LaminarFactor(yw/h), the whole vector |
| Generic.CellStreamwiseStreak | perturbUGeneric/perturbU.C:141-158 | definition, no contract: the streamwise streak at yplus and zplus = (c & zDir)·Retau/h, with jitter 1 + 0.1·g |
| Generic.CellSpanwiseStreak | perturbUGeneric/perturbU.C:141-166 | definition, no contract: the spanwise streak at yplus and xplus = (c & xDir)·Retau/h, with jitter 1 + 0.1·g |
| Generic.Assemble | perturbUGeneric/perturbU.C:152-166 | definition, no contract: the baseline plus a streak along xDir plus a streak along zDir; described by `AssembleIncrement` |
| Generic.Cell | perturbUGeneric/perturbU.C:141-166 | definition, no contract: `Assemble` of the cell's baseline, streaks and frame; described by `CellIncrement` |
| Generic.Field | perturbUGeneric/perturbU.C:138-168 | definition, no contract: cell i from centre i, wall distance i, wall normal i and jitter draw i |
| Generic.AssembleIncrement | perturbUGeneric/perturbU.C:152-166 | the new vector minus the baseline is a·xDir + b·zDir; when zDir ⟂ yDir, its component along yDir is a·(xDir & yDir) |
| Generic.CellIncrement | perturbUGeneric/perturbU.C:141-166 | a cell minus its baseline is the streamwise streak along xDir plus the spanwise streak along zDir; the spanwise part is orthogonal to yDir and xDir; if xDir ⟂ yDir the whole increment is orthogonal to yDir |
| Generic.BaselineShape | perturbUGeneric/perturbU.C:152 | for 0 ≤ yw ≤ h the laminar factor lies in [0, ½]; the baseline is zero at the wall and 1.5·Ubar at yw = h |
| Generic.BaselineOfFactor | perturbUGeneric/perturbU.C:152 | helper step of `BaselineShape`: a laminar factor of 0 gives a zero baseline, and ½ gives 1.5·Ubar |
| Generic.TripleScale | perturbUGeneric/perturbU.C:152 | helper step of `BaselineOfFactor`: scaling by 3·0 gives the zero vector, and by 3·½ the vector times 1.5 |
| Generic.BaselinePeaksAtFarthestCell | perturbUGeneric/perturbU.C:66-74 | with non-negative wall distances, some cell has the baseline 1.5·Ubar, and every cell's laminar factor is in [0, ½] |
| Generic.CellAtWall | perturbUGeneric/perturbU.C:147-166 | a cell at wall distance 0 is at rest |
| Generic.CellAtWallAssembles | perturbUGeneric/perturbU.C:147-166 | a cell at wall distance 0 is assembled from a zero baseline and zero streaks |
| Generic.CellStreaksAtWall | perturbUGeneric/perturbU.C:148-166 | both streak amplitudes vanish at wall distance 0 |
| Generic.NoStreaksWithoutX | perturbUGeneric/perturbU.C:126-132 | a bulk velocity with Ubar.x = 0 gives no streaks: every cell equals its baseline |
| Generic.AssembleUnchanged | perturbUGeneric/perturbU.C:152-166 | zero streak amplitudes leave the baseline as it is |
| Generic.PerturbCell | perturbUGeneric/perturbU.C:141-166 | the loop body, with zDir scaled in place, computes the cell function of the cell's inputs and does not read the old value |
| Generic.PerturbCells | perturbUGeneric/perturbU.C:138-168 | the loop leaves cell i equal to the cell function of centre i, wall distance i, wall normal i and jitter draw i (deviation 1 + 0.1·g), for every i |
| Generic.Run | perturbUGeneric/perturbU.C:73-168 | on a non-empty mesh the field ends as the field function of the derived setup, whatever it held before |
| Cylinder.CylinderParams | perturbUCylinder/perturbU.C:71-103 | utau·d = 300·nu with d = 7.54/2000; the axial streak amplitude utau·duplus/2 is a quarter of Ubar.x; the wavenumbers give spacings of 200 and 800 wall units; sigma = 0.0002; epsilon·20 = Ubar.x |
| Cylinder.PipeProfileShape | perturbUCylinder/perturbU.C:110 | for 0 ≤ r ≤ d the factor 1 − (r/d)² lies in [0, 1]; the parabola is 2·\|Ubar\| on the axis and 0 at r = d |
| Cylinder.ProfileOfFactor | perturbUCylinder/perturbU.C:110 | helper step of `PipeProfileShape`: the factor is 1 on the axis and 0 at the wall, and so is the parabola's share of 2·\|Ubar\| |
| Cylinder.TangentialFrame | perturbUCylinder/perturbU.C:125-130 | (0,y,z) ^ (1,0,0) = (0, z, −y); it is orthogonal to the radial vector and to the axis, and its length is the radius |
| Cylinder.TangentialDir | perturbUCylinder/perturbU.C:125-130 | the unit tangential direction has no axial component and is orthogonal to the radial vector (0, y, z) |
| Cylinder.PerturbationsAtWall | perturbUCylinder/perturbU.C:119-123 | the axial streak and the swirl both vanish at wall distance 0 |
| Cylinder.Radius | perturbUCylinder/perturbU.C:109 | definition, no contract: sqrt(sqr(y) + sqr(z)) of the centre |
| Cylinder.PipeProfile | perturbUCylinder/perturbU.C:110 | definition, no contract: 2·\|Ubar\|·(1 − sqr(r/d)); its shape is `PipeProfileShape` |
| Cylinder.Tangential | perturbUCylinder/perturbU.C:125-129 | definition, no contract: (0, y, z) ^ (1, 0, 0); described by `TangentialFrame` |
| Cylinder.AxialStreak | perturbUCylinder/perturbU.C:119-121 | definition, no contract: (utau·duplus/2)·cos(betaPlus·theta·r)·(y/30)·exp(−sigma·y² + 0.5) |
| Cylinder.Swirl | perturbUCylinder/perturbU.C:122-123 | definition, no contract: epsilon·sin(alphaPlus·x)·y·exp(−sigma·y²) |
| Cylinder.CellAxialStreak | perturbUCylinder/perturbU.C:109-121 | definition, no contract: the axial streak at theta = atan(y/z), r·Retau/d and (d − r)·Retau/d |
| Cylinder.CellSwirl | perturbUCylinder/perturbU.C:111-123 | definition, no contract: the swirl at x·Retau/d and (d − r)·Retau/d |
| Cylinder.Assemble | perturbUCylinder/perturbU.C:107-132 | definition, no contract: the axial component overwritten, then utheta·t added to the vector; described by `AssembleComponents` |
| Cylinder.Cell | perturbUCylinder/perturbU.C:106-133 | definition, no contract: `Assemble` of the parabola plus the streak, the swirl and the unit tangential; described by `CellComponents` |
| Cylinder.Field | perturbUCylinder/perturbU.C:105-134 | definition, no contract: cell i from centre i and old value i |
| Cylinder.AssembleComponents | perturbUCylinder/perturbU.C:107-132 | with a direction that has no axial component, the axial component ends as the written value and the other two accumulate |
| Cylinder.AssembleIncrement | perturbUCylinder/perturbU.C:132 | the added increment utheta·t is orthogonal to anything t is orthogonal to |
| Cylinder.OffAxisIncrement | perturbUCylinder/perturbU.C:132 | helper step of `CellComponents`: measured against an off-axis vector, the increment over the old vector is the same as the increment over the vector with its axial component rewritten |
| Cylinder.CellComponents | perturbUCylinder/perturbU.C:107-132 | the axial component of a cell is the pipe parabola plus the streak; y and z are the old values plus utheta times the unit tangential; the change is orthogonal to the radial vector |
| Cylinder.AxialIndependentOfOld | perturbUCylinder/perturbU.C:107-110 | the axial component of a cell does not depend on its old value |
| Cylinder.CellAtWall | perturbUCylinder/perturbU.C:109-132 | a cell on the wall (r = d) gets axial component 0 and keeps its other two components |
| Cylinder.CellAtWallAssembles | perturbUCylinder/perturbU.C:109-132 | a cell on the wall is assembled from a zero axial value and a zero swirl |
| Cylinder.AssembleAtRest | perturbUCylinder/perturbU.C:107-132 | a zero axial value and a zero swirl give the old vector with axial component 0 |
| Cylinder.PerturbCell | perturbUCylinder/perturbU.C:106-133 | the loop body on cell i leaves it equal to the cell function of its centre and old value, and changes no other cell |
| Cylinder.PerturbCells | perturbUCylinder/perturbU.C:105-134 | the loop leaves cell i equal to the cell function of centre i and old value i, for every i |
| Cylinder.Run | perturbUCylinder/perturbU.C:67-141 | without a velocity field the field is unchanged; with one it ends as the field function of the fixed constants |

## Left out

- Reading dictionaries, the mesh and the field, writing the field, and logging are left out. These are I/O: configuration values, cell centres and the old field are parameters.
- `wallDist` and `wallDistReflection` are left out. They are external geometric solvers; the wall distances and wall normals are given sequences.
- The `Random` generator is left out. Its draws (`scalarNormal`, `GaussNormal`) are a given sequence with one value per cell, and the cylinder program uses no draws.
- `exp`, `sin`, `cos`, `atan` and `sqrt` are unconstrained function parameters, so nothing is proved about their values. In particular the scaled vectors are not proved to have unit length.
- Floating-point rounding, overflow and the statistical spread of the jitter are not modelled. All arithmetic is on reals.
- Divisions the source does not guard become preconditions instead of IEEE behaviour:
  - h ≠ 0 and Retau·nu ≠ 0 (channel and generic);
  - \|Ubar\| ≠ 0 and \|xDir ^ yDir\| ≠ 0 at every cell (generic);
  - nu ≠ 0, z ≠ 0 and a non-zero tangential length, that is r ≠ 0, at every cell (cylinder).
- Generic.Run: a mesh without cells is left as it is. The model does not compute `max` of the empty list, which is the most negative scalar, since no cell ever uses it.
- Channel.Run: it models the program as written, so for streamwise 1 and spanwise 0 the field is computed with the height axis equal to the streamwise axis. The intended setup is `IntendedSetupOf`; no separate method runs the loop with it.
- Generic.MaxOf: the `max` reduction is sequential. The parallel reduction over processors is not modelled.
- Channel.ToDirection: values of `readLabel` are unbounded integers. The model does not reject labels that are not integers.
- Three behaviours of the source are easy to misread; the model follows the source:
  - the generic program overwrites the whole vector with the baseline, not only its streamwise part;
  - the channel program overwrites the spanwise component with the spanwise streak instead of adding to it;
  - the cylinder program has no mode flags and no jitter, and its streak uses y/30, cos(betaPlus·theta·r) and a streamwise spacing of 800 wall units.

## Findings

| source | as written | input that shows it | evidently intended | confidence | as-written member | corrected member |
|---|---|---|---|---|---|---|
| perturbUChannel/perturbU.C:104-114 | heightDir starts at 0, steps past streamDir, then steps past spanDir. It lands on the streamwise axis only when stepping past the spanwise axis moves it there; among valid pairs that is streamwise 1, spanwise 0. | streamwise = 1, spanwise = 0: both checks of lines 94-102 pass, and heightDir becomes 1, the streamwise axis. The wall distance is then measured along the streamwise coordinate, and with perturb alone the streamwise streak is added to the component that should be left as it was. | the component normal to the streamwise and spanwise axes, 3 − streamDir − spanDir | high; not executed | Channel.CollidedAxesMoveHeight | Channel.IntendedSetupOf |
