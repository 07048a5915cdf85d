/** The selection cursor (Renderers/SelectionInfo.cs, Renderers/Enums/SlotSelectionType.cs). */
module Selection {

  /** The four kinds of pile the cursor can rest on. */
  datatype SlotSelectionType = Tableau | Stock | Talon | Foundation

  /**
   * Slot, index and count of a selection without its picked flag: what
   * `MovesHandler` keeps as `lastSelection` (its copies are never picked).
   */
  datatype Position = Position(slot: SlotSelectionType, index: int, count: int)

  /**
   * Where the cursor may rest: at least one card selected, a column 0..6,
   * a foundation 0..3, and a single card anywhere but in the tableau.
   */
  predicate Placed(p: Position) {
    && 1 <= p.count
    && 0 <= p.index < 7
    && (p.slot == Foundation ==> p.index < 4)
    && (p.slot != Tableau ==> p.count == 1)
  }

  /** The cursor shared by the input handler and the moves handler, updated in place. */
  class SelectionInfo {
    var slot: SlotSelectionType
    var index: int
    var count: int
    var isCardPicked: bool

    /** Defaults to the stock, index 0, one card; never starts picked. */
    constructor (slot: SlotSelectionType := Stock, index: int := 0, count: int := 1)
      ensures this.slot == slot && this.index == index && this.count == count
      ensures !isCardPicked
    {
      this.slot := slot;
      this.index := index;
      this.count := count;
      isCardPicked := false;
    }

    function Current(): Position
      reads this
    {
      Position(slot, index, count)
    }
  }
}
