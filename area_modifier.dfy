/**
 * The simulation modifier that couples each cell's geometry to its reaction
 * network: at setup and at the end of every timestep it copies each cell's
 * "volume" data item into slot 2 (AREA) of that cell's ODE state.
 */
module AreaModifier {
  import opened CellBased
  import opened OdeSrn

  /** A cell: its data map and its SRN model (null when that model is not ODE-based). */
  class Cell {
    const data: CellData
    const srn: OdeSrnModel?

    constructor (data: CellData, srn: OdeSrnModel?)
      ensures this.data == data && this.srn == srn
    {
      this.data := data;
      this.srn := srn;
    }
  }

  /** The state after coupling one cell: slot 2 becomes its volume, slots 0 and 1 stay. */
  function CoupleArea(state: seq<real>, volume: real): (s: seq<real>)
    requires |state| == NumVariables
    ensures |s| == NumVariables
    ensures s[GSlot] == state[GSlot] && s[TargetAreaSlot] == state[TargetAreaSlot]
    ensures s[AreaSlot] == volume
  {
    state[AreaSlot := volume]
  }

  /** Coupling is idempotent: a second pass with the same volume changes nothing. */
  lemma CoupleAreaIdempotent(state: seq<real>, volume: real)
    requires |state| == NumVariables
    ensures CoupleArea(CoupleArea(state, volume), volume) == CoupleArea(state, volume)
  {
  }

  /** A state that already holds the volume in slot 2 is a fixed point of coupling. */
  lemma CoupleAreaFixedPoint(state: seq<real>, volume: real)
    requires |state| == NumVariables
    ensures CoupleArea(state, volume) == state <==> state[AreaSlot] == volume
  {
    if state[AreaSlot] == volume {
      var s := CoupleArea(state, volume);
      assert forall k :: 0 <= k < NumVariables ==> s[k] == state[k];
    }
  }

  /**
   * What `UpdateCellData` needs of the population: every cell has an
   * ODE-based SRN model with three state slots and a "volume" item, and no
   * two cells share a state vector.
   */
  ghost predicate Coupleable(cells: seq<Cell>)
    reads set i | 0 <= i < |cells| :: cells[i].data
  {
    && (forall i :: 0 <= i < |cells| ==>
          cells[i].srn != null && cells[i].srn.state.Length == NumVariables && VolumeKey in cells[i].data.items)
    && (forall i, j :: 0 <= i < j < |cells| ==> cells[i].srn.state != cells[j].srn.state)
  }

  /** The state vectors of the population, in iteration order. */
  ghost function States(cells: seq<Cell>): (r: seq<seq<real>>)
    requires Coupleable(cells)
    reads set i | 0 <= i < |cells| :: cells[i].data
    reads set i | 0 <= i < |cells| :: cells[i].srn.state
    ensures |r| == |cells|
    ensures forall i :: 0 <= i < |cells| ==> r[i] == cells[i].srn.state[..]
  {
    seq(|cells|, i requires 0 <= i < |cells| && cells[i].srn != null
                   reads if 0 <= i < |cells| && cells[i].srn != null then {cells[i].srn.state} else {} =>
                   cells[i].srn.state[..])
  }

  /** The "volume" items of the population, in iteration order. */
  ghost function Volumes(cells: seq<Cell>): (r: seq<real>)
    requires Coupleable(cells)
    reads set i | 0 <= i < |cells| :: cells[i].data
    ensures |r| == |cells|
    ensures forall i :: 0 <= i < |cells| ==> r[i] == cells[i].data.items[VolumeKey]
  {
    seq(|cells|, i requires 0 <= i < |cells| && VolumeKey in cells[i].data.items
                   reads if 0 <= i < |cells| then {cells[i].data} else {} =>
                   cells[i].data.items[VolumeKey])
  }

  ghost predicate WellSized(states: seq<seq<real>>)
  {
    forall i :: 0 <= i < |states| ==> |states[i]| == NumVariables
  }

  /** The population after one coupling pass: each state coupled with its own cell's volume. */
  function CouplePopulation(states: seq<seq<real>>, volumes: seq<real>): (r: seq<seq<real>>)
    requires WellSized(states) && |volumes| == |states|
    ensures |r| == |states| && WellSized(r)
    ensures forall i :: 0 <= i < |r| ==> r[i] == CoupleArea(states[i], volumes[i])
  {
    seq(|states|, i requires 0 <= i < |states| => CoupleArea(states[i], volumes[i]))
  }

  /** Coupling the whole population twice with unchanged volumes is the same as once. */
  lemma CouplePopulationIdempotent(states: seq<seq<real>>, volumes: seq<real>)
    requires WellSized(states) && |volumes| == |states|
    ensures CouplePopulation(CouplePopulation(states, volumes), volumes) == CouplePopulation(states, volumes)
  {
    var once := CouplePopulation(states, volumes);
    var twice := CouplePopulation(once, volumes);
    forall i | 0 <= i < |states|
      ensures twice[i] == once[i]
    {
      CoupleAreaIdempotent(states[i], volumes[i]);
    }
  }

  /**
   * Locality: a cell's coupled state depends only on its own state and its
   * own volume, whatever the other cells hold.
   */
  lemma CouplePopulationLocal(states: seq<seq<real>>, volumes: seq<real>,
                              states': seq<seq<real>>, volumes': seq<real>, i: nat)
    requires WellSized(states) && |volumes| == |states|
    requires WellSized(states') && |volumes'| == |states'|
    requires i < |states| && i < |states'|
    requires states[i] == states'[i] && volumes[i] == volumes'[i]
    ensures CouplePopulation(states, volumes)[i] == CouplePopulation(states', volumes')[i]
  {
  }

  /** The modifier; it holds no state of its own. */
  class OdeParameterAreaModifier {

    constructor ()
    {
    }

    /** Couples the population at the end of every timestep. */
    method UpdateAtEndOfTimeStep(cells: seq<Cell>)
      requires Coupleable(cells)
      modifies set i | 0 <= i < |cells| && cells[i].srn != null :: cells[i].srn.state
      ensures Coupleable(cells)
      ensures States(cells) == CouplePopulation(old(States(cells)), Volumes(cells))
    {
      UpdateCellData(cells);
    }

    /** Couples the population once before the first timestep. */
    method SetupSolve(cells: seq<Cell>, outputDirectory: string)
      requires Coupleable(cells)
      modifies set i | 0 <= i < |cells| && cells[i].srn != null :: cells[i].srn.state
      ensures Coupleable(cells)
      ensures States(cells) == CouplePopulation(old(States(cells)), Volumes(cells))
    {
      UpdateCellData(cells);
    }

    /** Writes every cell's "volume" item into slot 2 of its own ODE state. */
    method UpdateCellData(cells: seq<Cell>)
      requires Coupleable(cells)
      modifies set i | 0 <= i < |cells| && cells[i].srn != null :: cells[i].srn.state
      ensures Coupleable(cells)
      ensures States(cells) == CouplePopulation(old(States(cells)), Volumes(cells))
    {
      ghost var before := States(cells);
      for k := 0 to |cells|
        invariant Coupleable(cells)
        invariant forall i :: 0 <= i < k ==> cells[i].srn.state[..] == CoupleArea(before[i], cells[i].data.items[VolumeKey])
        invariant forall i :: k <= i < |cells| ==> cells[i].srn.state[..] == before[i]
      {
        var volume := cells[k].data.items[VolumeKey];
        var model := cells[k].srn;
        model.state[AreaSlot] := volume;
      }
    }
  }
}
