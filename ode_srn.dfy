/**
 * The Rho GTPase reaction network attached to every cell: the right-hand
 * side of its three-variable ODE system, the system's variable names and
 * default initial conditions, and the SRN (sub-cellular reaction network)
 * model that owns the state vector, resets it on division and publishes it
 * into the cell's data map.
 *
 * The state vector is [G, target area, AREA]. Slot 2 has derivative zero:
 * it only carries the cell's geometric area into the system as a parameter.
 */
module OdeSrn {
  import opened Wrappers
  import opened CellBased

  /** Number of state variables of the system. */
  const NumVariables: nat := 3

  /** Slot indices of the state vector. */
  const GSlot: nat := 0
  const TargetAreaSlot: nat := 1
  const AreaSlot: nat := 2

  /** Bifurcation parameter: a constant inside the right-hand side, not an input. */
  const Beta: real := 0.2

  const VariableNames: seq<string> := ["G", "TARGET AREA", "AREA"]
  const VariableUnits: seq<string> := ["dimensionless", "dimensionless", "dimensionless"]
  const DefaultInitialConditions: seq<real> := [1.0, 0.8, 0.8]

  /** `pow(x, n)` for the integer exponents the right-hand side uses. */
  function Pow(x: real, n: nat): (p: real)
    ensures x >= 0.0 ==> p >= 0.0
  {
    if n == 0 then 1.0 else x * Pow(x, n - 1)
  }

  /** An even power is never negative. */
  lemma {:induction false} EvenPowNonNegative(x: real, k: nat)
    ensures Pow(x, 2 * k) >= 0.0
  {
    if k > 0 {
      EvenPowNonNegative(x, k - 1);
      assert Pow(x, 2 * k) == x * x * Pow(x, 2 * (k - 1));
      assert x * x >= 0.0;
    }
  }

  /** A positive power is zero exactly at zero. */
  lemma {:induction false} PowZeroIff(x: real, n: nat)
    requires n > 0
    ensures Pow(x, n) == 0.0 <==> x == 0.0
  {
    if n > 1 {
      PowZeroIff(x, n - 1);
    }
  }

  /** Both Hill denominators of the right-hand side, `1 + G^4` and `0.3^4 + G^4`, are positive. */
  lemma DenominatorsPositive(g: real)
    ensures 1.0 + Pow(g, 4) > 0.0
    ensures Pow(0.3, 4) + Pow(g, 4) > 0.0
  {
    EvenPowNonNegative(g, 2);
    assert Pow(0.3, 4) == 0.0081;
  }

  /** `y1^10 + y2^10` vanishes only when both areas are zero: the single 0/0 case. */
  lemma AreaDenominatorZeroIff(targetArea: real, area: real)
    ensures Pow(targetArea, 10) + Pow(area, 10) == 0.0 <==> targetArea == 0.0 && area == 0.0
  {
    EvenPowNonNegative(targetArea, 5);
    EvenPowNonNegative(area, 5);
    PowZeroIff(targetArea, 10);
    PowZeroIff(area, 10);
  }

  /** Self-activation term `G^4 / (1 + G^4)`. */
  function ActivatorHill(g: real): (h: real)
    ensures 0.0 <= h < 1.0
  {
    DenominatorsPositive(g);
    EvenPowNonNegative(g, 2);
    Pow(g, 4) / (1.0 + Pow(g, 4))
  }

  /** Target-area inhibition term `G^4 / (0.3^4 + G^4)`. */
  function InhibitionHill(g: real): (h: real)
    ensures 0.0 <= h < 1.0
  {
    DenominatorsPositive(g);
    EvenPowNonNegative(g, 2);
    assert Pow(0.3, 4) == 0.0081;
    Pow(g, 4) / (Pow(0.3, 4) + Pow(g, 4))
  }

  /**
   * Area feedback term `AREA^10 / (TARGET AREA^10 + AREA^10)`. The C++
   * expression evaluates 0/0 to NaN when both areas are zero; here that
   * case is None.
   */
  function AreaRatio(targetArea: real, area: real): (q: Option<real>)
    ensures q.None? <==> targetArea == 0.0 && area == 0.0
    ensures q.Some? ==> 0.0 <= q.value <= 1.0
  {
    AreaDenominatorZeroIff(targetArea, area);
    EvenPowNonNegative(targetArea, 5);
    EvenPowNonNegative(area, 5);
    var num := Pow(area, 10);
    var den := Pow(targetArea, 10) + num;
    if den == 0.0 then None else Some(num / den)
  }

  /** The target area the second equation relaxes towards for a given G. */
  function TargetAreaFixedPoint(g: real): (t: real)
    ensures 0.2875 < t <= 1.15
  {
    1.15 * (1.0 - 0.75 * InhibitionHill(g))
  }

  /** Right-hand side values; `dG` is None where the C++ code divides 0 by 0. */
  datatype Derivatives = Derivatives(dG: Option<real>, dTargetArea: real, dArea: real)

  /** The right-hand side of the system at state `y`; `time` does not enter it. */
  function EvaluateYDerivatives(time: real, y: seq<real>): (dy: Derivatives)
    requires |y| == NumVariables
    ensures dy.dArea == 0.0
    ensures dy.dG.None? <==> y[TargetAreaSlot] == 0.0 && y[AreaSlot] == 0.0
  {
    var g := y[GSlot];
    var dG := match AreaRatio(y[TargetAreaSlot], y[AreaSlot])
      case None => None
      case Some(q) => Some(((0.1 + Beta * q + 1.5 * ActivatorHill(g)) * (2.0 - g) - g) * 0.25);
    var dTargetArea := (-0.1 * (y[TargetAreaSlot] - TargetAreaFixedPoint(g))) * 0.25;
    Derivatives(dG, dTargetArea, 0.0)
  }

  /**
   * The target-area equation is at rest exactly at the fixed point, and its
   * sign is opposite to the distance from it.
   */
  lemma TargetAreaEquilibrium(time: real, y: seq<real>)
    requires |y| == NumVariables
    ensures var d := EvaluateYDerivatives(time, y).dTargetArea;
            var p := TargetAreaFixedPoint(y[GSlot]);
            && (d == 0.0 <==> y[TargetAreaSlot] == p)
            && (d > 0.0 <==> y[TargetAreaSlot] < p)
            && (d < 0.0 <==> y[TargetAreaSlot] > p)
  {
  }

  /** The target-area fixed point lies in (1.15 * 0.25, 1.15], and is 1.15 only at G = 0. */
  lemma FixedPointBounds(g: real)
    ensures 0.2875 < TargetAreaFixedPoint(g) <= 1.15
    ensures TargetAreaFixedPoint(g) == 1.15 <==> g == 0.0
  {
    var h := InhibitionHill(g);
    DenominatorsPositive(g);
    PowZeroIff(g, 4);
    assert h == 0.0 <==> Pow(g, 4) == 0.0;
  }

  /**
   * G is pushed back into [0, 2]: where the right-hand side is defined, its
   * G component is positive for G <= 0 and negative for G >= 2.
   */
  lemma ActivatorFlowsInward(time: real, y: seq<real>)
    requires |y| == NumVariables
    requires EvaluateYDerivatives(time, y).dG.Some?
    ensures y[GSlot] <= 0.0 ==> EvaluateYDerivatives(time, y).dG.value > 0.0
    ensures y[GSlot] >= 2.0 ==> EvaluateYDerivatives(time, y).dG.value < 0.0
  {
    var g := y[GSlot];
    var q := AreaRatio(y[TargetAreaSlot], y[AreaSlot]).value;
    var a := 0.1 + Beta * q + 1.5 * ActivatorHill(g);
    assert 0.1 <= a <= 1.8;
    var dG := EvaluateYDerivatives(time, y).dG.value;
    assert dG == (a * (2.0 - g) - g) * 0.25;
    if g <= 0.0 {
      ScaleAtLeast(a, 0.1, 2.0 - g);
    }
    if g >= 2.0 {
      ScaleNonPositive(a, 2.0 - g);
    }
  }

  /** Multiplying by a non-negative factor keeps an order. */
  lemma ScaleAtLeast(a: real, b: real, c: real)
    requires a >= b && c >= 0.0
    ensures a * c >= b * c
  {
    assert a * c - b * c == (a - b) * c;
  }

  /** A non-negative number times a non-positive one is non-positive. */
  lemma ScaleNonPositive(a: real, c: real)
    requires a >= 0.0 && c <= 0.0
    ensures a * c <= 0.0
  {
    assert a * c == -(a * -c);
  }

  /** The per-system variable information, filled once by `Initialise`. */
  class OdeSystemInformation {
    var variableNames: seq<string>
    var variableUnits: seq<string>
    var initialConditions: seq<real>
    var initialised: bool

    constructor ()
      ensures variableNames == [] && variableUnits == [] && initialConditions == []
      ensures !initialised
    {
      variableNames, variableUnits, initialConditions := [], [], [];
      initialised := false;
    }

    /** Appends the three variables G, TARGET AREA and AREA with initial conditions 1, 0.8, 0.8. */
    method Initialise()
      modifies this
      ensures variableNames == old(variableNames) + VariableNames
      ensures variableUnits == old(variableUnits) + VariableUnits
      ensures initialConditions == old(initialConditions) + DefaultInitialConditions
      ensures initialised
    {
      variableNames := variableNames + ["G"];
      variableUnits := variableUnits + ["dimensionless"];
      initialConditions := initialConditions + [1.0];

      variableNames := variableNames + ["TARGET AREA"];
      variableUnits := variableUnits + ["dimensionless"];
      initialConditions := initialConditions + [0.8];

      variableNames := variableNames + ["AREA"];
      variableUnits := variableUnits + ["dimensionless"];
      initialConditions := initialConditions + [0.8];

      initialised := true;
    }
  }

  /**
   * The SRN model of one cell: its ODE state vector, the initial conditions
   * held by its ODE system, and the data map of the cell it is attached to.
   * The state may start anywhere (a simulation seeds each cell with its own
   * values); the system's conditions are the ones `Initialise` records.
   */
  class OdeSrnModel {
    const state: array<real>
    /** What `GetInitialConditions()` of the cell's ODE system returns. */
    const systemInitialConditions: seq<real>
    const cellData: CellData

    ghost predicate Valid()
    {
      state.Length == NumVariables && systemInitialConditions == DefaultInitialConditions
    }

    /**
     * A model attached to `cellData` whose state starts at the per-cell
     * values `startState`, over an ODE system with the default conditions.
     */
    constructor (startState: seq<real>, cellData: CellData)
      requires |startState| == NumVariables
      ensures Valid() && fresh(state)
      ensures state[..] == startState
      ensures this.cellData == cellData
    {
      systemInitialConditions := DefaultInitialConditions;
      this.cellData := cellData;
      state := new real[NumVariables](i requires 0 <= i < NumVariables => startState[i]);
    }

    /**
     * On division, G and the target area restart from the ODE system's
     * initial conditions (1 and 0.8), whatever the cell was seeded with;
     * AREA is kept.
     */
    method ResetForDivision()
      requires Valid()
      modifies state
      ensures state[..] == [DefaultInitialConditions[GSlot], DefaultInitialConditions[TargetAreaSlot], old(state[AreaSlot])]
      ensures state[GSlot] == 1.0 && state[TargetAreaSlot] == 0.8
    {
      var initConds := systemInitialConditions;
      for i := 0 to 2
        invariant forall k :: 0 <= k < i ==> state[k] == initConds[k]
        invariant forall k :: i <= k < NumVariables ==> state[k] == old(state[k])
      {
        state[i] := initConds[i];
      }
    }

    /**
     * Advances the state with `solve` (the framework's integrator, not
     * modelled) and then publishes the three slots into the cell's data map.
     */
    method SimulateToCurrentTime(solve: seq<real> -> seq<real>)
      requires Valid()
      requires |solve(state[..])| == NumVariables
      modifies state, cellData
      ensures state[..] == solve(old(state[..]))
      ensures cellData.items == old(cellData.items)[GKey := state[GSlot]][TargetAreaKey := state[TargetAreaSlot]][AreaKey := state[AreaSlot]]
      ensures cellData.items[GKey] == state[GSlot]
      ensures cellData.items[TargetAreaKey] == state[TargetAreaSlot]
      ensures cellData.items[AreaKey] == state[AreaSlot]
    {
      var next := solve(state[..]);
      state[0], state[1], state[2] := next[0], next[1], next[2];
      cellData.items := cellData.items[GKey := state[0]];
      cellData.items := cellData.items[TargetAreaKey := state[1]];
      cellData.items := cellData.items[AreaKey := state[2]];
    }
  }
}
