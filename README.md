# Rho GTPase area coupling: a verified model

This project models the parts of the Rho GTPase cell simulation (built on
the Chaste cell-based framework) that its authors wrote themselves:

- **The reaction network of one cell** (`OdeSrn`). The ODE system has three
  state variables `[G, TARGET AREA, AREA]`. `EvaluateYDerivatives` is its
  right-hand side: G activates itself, the target area relaxes towards a
  G-dependent value, and AREA has derivative zero, so that slot only carries
  the cell's geometric area into the system. `OdeSystemInformation.Initialise`
  fills in the variable names, units and default initial conditions.
  `OdeSrnModel` owns the state vector as an `array<real>` of length 3. Its
  `ResetForDivision` restarts G and the target area after a division.
  Its `SimulateToCurrentTime` advances the state and publishes the three
  slots into the cell's data map.
- **The area-coupling modifier** (`AreaModifier`). Once at setup and again
  after every timestep, it writes every cell's `"volume"` data item into
  slot 2 of that cell's own ODE state, in place.
- **The XML cell writer** (`XmlFormat`, `XmlLayout`, `XmlRead`,
  `CellWriters`). `XmlCellWriter` appends text to an output buffer:
  - one `<cell .../>` record per cell;
  - `<time t=".." tau="..">` and `</time>` lines framing each sampled timestep.

  `CellRecord` is a pure function giving the exact text of a record.
  `VisitCell` is proved to append exactly that text. The lemmas then state
  the record's structure:
  - the attribute order;
  - when `area` and `CellLabel` appear;
  - the quirk that the `G` attribute holds the target area;
  - the neighbour list in ascending location-index order;
  - a parser that reads every record back, provided doubles never print a
    double quote.

Shared pieces:

- `Text` has decimal rendering of naturals with its inverse, plus ascending
  enumeration of a finite set of indices (the iteration order of
  `std::set<unsigned>`).
- `CellBased` has the cell-data map and its keys.
- `Wrappers` has `Option`.

Doubles are modelled as `real`. Double-to-text conversion is a parameter
`fmt: real -> string` of every writer operation, so nothing depends on how
numbers are printed. Integer output (`unsigned`, `int`) is rendered by the
concrete decimal function `Text.FmtNat`.

When both areas are zero the G equation divides 0 by 0, which yields NaN in
the code (ODE/ODESRNCoupledArea.hpp:81); the model returns `None` for `dG` in
exactly that case.

## Model

| member | source | states |
|---|---|---|
| OdeSrn.EvaluateYDerivatives | ODE/ODESRNCoupledArea.hpp:75-86 | for every time and state of length 3, the AREA derivative is exactly 0; the G derivative is undefined (0/0) exactly when target area and AREA are both zero |
| OdeSrn.DenominatorsPositive | ODE/ODESRNCoupledArea.hpp:81-83 | the Hill denominators `1 + G^4` and `0.3^4 + G^4` are positive for every G |
| OdeSrn.AreaDenominatorZeroIff | ODE/ODESRNCoupledArea.hpp:81 | `TARGET AREA^10 + AREA^10` is zero if and only if both areas are zero |
| OdeSrn.AreaRatio | ODE/ODESRNCoupledArea.hpp:81 | the area feedback term is defined exactly when not both areas are zero, and then lies in [0, 1] |
| OdeSrn.ActivatorHill | ODE/ODESRNCoupledArea.hpp:81 | the self-activation term `G^4/(1+G^4)` lies in [0, 1) |
| OdeSrn.InhibitionHill | ODE/ODESRNCoupledArea.hpp:83 | the inhibition term `G^4/(0.3^4+G^4)` lies in [0, 1) |
| OdeSrn.TargetAreaEquilibrium | ODE/ODESRNCoupledArea.hpp:83 | the target-area derivative is zero exactly at `1.15(1 - 0.75 G^4/(0.3^4+G^4))`, and its sign is opposite to the target area minus that value |
| OdeSrn.FixedPointBounds | ODE/ODESRNCoupledArea.hpp:83 | the target-area fixed point lies in (0.2875, 1.15] and equals 1.15 exactly when G is 0 |
| OdeSrn.ActivatorFlowsInward | ODE/ODESRNCoupledArea.hpp:79-81 | with beta fixed at 0.2, wherever the G derivative is defined it is positive for G <= 0 and negative for G >= 2 |
| OdeSrn.EvenPowNonNegative | ODE/ODESRNCoupledArea.hpp:81-83 | the even powers `pow(x,4)` and `pow(x,10)` of the right-hand side are never negative |
| OdeSrn.Pow | ODE/ODESRNCoupledArea.hpp:81-83 | the integer powers the right-hand side takes are non-negative at a non-negative base |
| OdeSrn.TargetAreaFixedPoint | ODE/ODESRNCoupledArea.hpp:83 | the value the target area relaxes towards lies in (0.2875, 1.15] |
| OdeSrn.PowZeroIff | ODE/ODESRNCoupledArea.hpp:81-83 | a positive integer power is zero exactly at zero |
| OdeSrn.OdeSystemInformation.Initialise | ODE/ODESRNCoupledArea.hpp:89-105 | appends exactly three variables, named G, TARGET AREA, AREA, all dimensionless, with initial conditions 1, 0.8, 0.8, and marks the information initialised |
| OdeSrn.OdeSrnModel.constructor | ODE/ODESRNCoupledArea.hpp:121-144 | the state vector is a fresh array of exactly 3 slots holding the cell's own start values, over an ODE system whose initial conditions are those `Initialise` records |
| OdeSrn.OdeSrnModel.ResetForDivision | ODE/ODESRNCoupledArea.hpp:157-164 | slots 0 and 1 become the ODE system's initial conditions 1 and 0.8, whatever the cell was seeded with; slot 2 keeps its value |
| OdeSrn.OdeSrnModel.SimulateToCurrentTime | ODE/ODESRNCoupledArea.hpp:146-155 | the state becomes the integrator's result; then the data items "G", "target area" and "AREA" equal slots 0, 1 and 2, and every other item is unchanged |
| AreaModifier.CoupleArea | modifiers/ODEParameterAreaModifier.cpp:57 | coupling one state sets slot 2 to the volume, whatever real it is (a sentinel included), and keeps slots 0 and 1 |
| AreaModifier.CoupleAreaIdempotent | modifiers/ODEParameterAreaModifier.cpp:57 | coupling twice with the same volume equals coupling once |
| AreaModifier.CoupleAreaFixedPoint | modifiers/ODEParameterAreaModifier.cpp:57 | coupling leaves a state unchanged if and only if slot 2 already holds the volume |
| AreaModifier.CouplePopulation | modifiers/ODEParameterAreaModifier.cpp:48-58 | every cell of the population is coupled with its own volume, and the population keeps its size |
| AreaModifier.CouplePopulationIdempotent | modifiers/ODEParameterAreaModifier.cpp:48-58 | a second pass with unchanged volumes leaves every state as the first pass left it |
| AreaModifier.CouplePopulationLocal | modifiers/ODEParameterAreaModifier.cpp:53-57 | a cell's new state depends only on its own old state and its own volume, not on any other cell |
| AreaModifier.OdeParameterAreaModifier.UpdateCellData | modifiers/ODEParameterAreaModifier.cpp:36-59 | in place, every cell's state becomes its old state coupled with its own "volume" item; only the cells' state arrays are written |
| AreaModifier.OdeParameterAreaModifier.SetupSolve | modifiers/ODEParameterAreaModifier.cpp:30-34 | the population is coupled once before the first timestep |
| AreaModifier.OdeParameterAreaModifier.UpdateAtEndOfTimeStep | modifiers/ODEParameterAreaModifier.cpp:24-28 | the population is coupled again after every timestep |
| XmlFormat.CellAttributes | writers/XMLCellWriter.cpp:48-107 | a record has the ten attributes always written plus one for a volume below DBL_MAX and one for a labelled cell, starting with `cell_id` and ending with `num_edges` |
| XmlFormat.CellRecord | writers/XMLCellWriter.cpp:48-110 | the exact text of one record, which starts with `<cell ` and ends with `/>\n` |
| XmlFormat.TimeStamp | writers/XMLCellWriter.cpp:41 | the exact time stamp line, which starts with `<time t="` and ends with `>\n` |
| XmlFormat.Rank | writers/XMLCellWriter.cpp:48-107 | every attribute name has one place in the fixed emission order |
| XmlLayout.AttributeLayout | writers/XMLCellWriter.cpp:48-107 | the record's attribute names are the fixed order cell_id, x, y, area, CellLabel, target_area, ODE_area, G, perimeter, num_neighbours, neighbors, num_edges with only the absent optional ones removed |
| XmlLayout.RecordNames | writers/XMLCellWriter.cpp:48-107 | no attribute name occurs twice in a record, and a name occurs exactly when it is not one of the absent optional ones |
| XmlLayout.AbsentAttributes | writers/XMLCellWriter.cpp:58-68 | only `area` and `CellLabel` can be absent: `area` when the volume is not below DBL_MAX, `CellLabel` when the cell is unlabelled |
| XmlLayout.AreaWrittenIff | writers/XMLCellWriter.cpp:58-63 | `area` carrying the formatted volume is in the record if and only if the volume is below DBL_MAX |
| XmlLayout.LabelWrittenIff | writers/XMLCellWriter.cpp:66-68 | `CellLabel="1"` is in the record if and only if the cell has the label property |
| XmlLayout.GAttributeIsTargetArea | writers/XMLCellWriter.cpp:71-80 | the record holds both `target_area` and `G` with the formatted target area |
| XmlLayout.GAttributeOnlyTargetArea | writers/XMLCellWriter.cpp:79-80 | every `G` attribute of a record carries the formatted target area |
| XmlLayout.GItemNotWritten | writers/XMLCellWriter.cpp:79-80 | the "G" data item has no effect on the record text |
| XmlRead.NeighbourAttributes | writers/XMLCellWriter.cpp:88-102 | the record holds `num_neighbours` with the size of the neighbour set and a `neighbors` list that parses back to as many cell ids, those of the neighbours in ascending location-index order |
| XmlRead.CellRecordRoundTrip | writers/XMLCellWriter.cpp:48-110 | every record starts with `<cell `, ends with `/>\n`, and, provided doubles never print a double quote, parses back to exactly its attribute list |
| XmlRead.TimeStampRoundTrip | writers/XMLCellWriter.cpp:38-42 | the `<time t="T" tau="N">` line reads back as the formatted time and the step count it was written from |
| XmlRead.NameTextRoundTrip | writers/XMLCellWriter.cpp:48-107 | every attribute name's text parses back to that name |
| XmlRead.ParseRenderAttributes | writers/XMLCellWriter.cpp:50-107 | a rendered list of `name="value" ` items with quote-free values parses back to the same list |
| XmlRead.ParseRenderNeighbourList | writers/XMLCellWriter.cpp:95-102 | a rendered space-prefixed id list parses back to the same ids |
| XmlFormat.NeighbourIds | writers/XMLCellWriter.cpp:88-100 | the neighbour id list has one id per neighbour location index |
| CellWriters.XmlCellWriter.constructor | writers/XMLCellWriter.cpp:17-22 | the output is empty, the file is `cell_data.xml` and the VTK cell-data name is `XML_dummy_attribute` |
| CellWriters.XmlCellWriter.WriteNewline | writers/XMLCellWriter.cpp:32-36 | appends exactly `</time>\n` |
| CellWriters.XmlCellWriter.WriteTimeStamp | writers/XMLCellWriter.cpp:38-42 | appends exactly the time stamp line for the given time and step count |
| CellWriters.XmlCellWriter.WriteNeighbourIds | writers/XMLCellWriter.cpp:95-101 | the loop over the neighbour set appends one space and one cell id per neighbour, in ascending location-index order |
| CellWriters.XmlCellWriter.WriteOptional | writers/XMLCellWriter.cpp:57-68 | appends `area` only when the volume is below DBL_MAX and `CellLabel` only for a labelled cell |
| CellWriters.XmlCellWriter.WriteItems | writers/XMLCellWriter.cpp:70-80 | appends `target_area`, `ODE_area` and then `G`, the last one with the target area |
| CellWriters.XmlCellWriter.VisitCell | writers/XMLCellWriter.cpp:44-111 | appends exactly the record `CellRecord` of the cell, so every lemma above holds of the written text |
| CellWriters.XmlCellWriter.GetCellDataForVtkOutput | writers/XMLCellWriter.cpp:113-118 | always returns 0 |
| Text.ParseFmtNat | writers/XMLCellWriter.cpp:50 | the decimal rendering of an unsigned integer parses back to it |
| Text.FmtNatInjective | writers/XMLCellWriter.cpp:100 | distinct cell ids render to distinct texts |
| Text.AscendingMembers | writers/XMLCellWriter.cpp:96-98 | the ascending enumeration of a set visits exactly its members |
| Text.AscendingIncreasing | writers/XMLCellWriter.cpp:96-98 | the ascending enumeration is strictly increasing, as `std::set` iteration is |
| Text.AscendingLength | writers/XMLCellWriter.cpp:91 | the enumeration has as many entries as the set has members |

## Left out

- Integration: the Runge-Kutta solver, the solver singleton and `SetDt(0.01)` are library code. `SimulateToCurrentTime` takes the integrator as a parameter `solve`, a state-to-state function.
- Framework base classes: `AbstractOdeSrnModel` copying and `CreateSrnModel` are not part of this model. The same goes for the population `Update()` and its tessellation.
- OdeSrn.OdeSrnModel.constructor: stands for the model's construction, `SetInitialConditions` with per-cell values and the framework's `Initialise`. That the framework seeds the state from those per-cell values is assumed, as its code is not visible. The ODE system's own conditions are assumed to be the defaults `Initialise` records.
- OdeSrn.OdeSrnModel.ResetForDivision: the framework's `AbstractOdeSrnModel::ResetForDivision()` called first (ODE/ODESRNCoupledArea.hpp:158) is not modelled. It is assumed not to touch the state vector.
- UpdateCellData: assumes that `GetStateVariables()` gives write access to the stored state vector. That accessor's definition is not visible.
- UpdateCellData: requires every cell to carry an ODE-based SRN model, which is the `dynamic_cast` result dereferenced without a check. It also requires distinct state arrays and a "volume" item, which the framework's `GetItem` would otherwise reject by throwing.
- VisitCell: requires the four data items and a location-to-cell table covering the neighbour set. The framework throws when an item is missing.
- Geometry is a plain input: centroid, perimeter, neighbour index set, element node count and the vertex-population downcasts.
- The simulation clock and `OpenOutputFile` are not modelled. Time and step count are parameters of `WriteTimeStamp`.
- The order of time stamp, cell records and closing line in the file is decided by the framework's writer base class and is not modelled.
- Floating point is not modelled. Values are exact reals, and the printing of doubles is the parameter `fmt`.
- NaN and infinities have no `real` counterpart. The modifier copies any volume into slot 2 with no special case, which `CoupleArea` states for every real, DBL_MAX included. The non-finite volumes themselves are outside the model. The 0/0 case of the G equation is represented by `None`.
- WriteTimeStamp: the step count is an unbounded natural. The 32-bit `unsigned` of the framework is not modelled.
- VisitCell: `num_neighbours` and `num_edges` are naturals. The source's `int` conversion would only differ above 2^31 entries.
- Serialisation boilerplate and export macros in all files are not modelled.
- The header `writers/XMLCellWriter.hpp` holds declarations only. Its unused private string fields are not modelled.
- `multiCellsNoDivisionCoupledArea.hpp` is a simulation driver that only configures the framework, and is not part of this model.
- `scripts/GTPase_plot.py` is plotting over floats and is not part of this model. It reads the `G` attribute, which holds the target area.
