/**
 * The per-cell data map of the cell-based framework: named `double`
 * items that modifiers, SRN models and writers read and write.
 */
module CellBased {

  /** Key of the cell's geometric area, kept up to date by the volume-tracking modifier. */
  const VolumeKey: string := "volume"
  /** Keys under which the SRN model publishes its three state slots. */
  const GKey: string := "G"
  const TargetAreaKey: string := "target area"
  const AreaKey: string := "AREA"

  class CellData {
    var items: map<string, real>

    constructor (items: map<string, real>)
      ensures this.items == items
    {
      this.items := items;
    }
  }
}
