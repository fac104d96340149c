/** The game's tile grid, `game::Map`. */
module GameMap {
  import opened CellTypes
  import Vectors

  /** The grid a map of side `size` starts as: `size` rows of `size` Floor cells. */
  function FloorGrid(size: nat): seq<seq<CellType>>
  {
    Vectors.Filled(size, Vectors.Filled(size, Floor))
  }

  /**
   * What the constructor's three steps produce, read as values: `size` empty
   * rows, resized to `size` rows, each row then resized to `size` cells.
   * The result is the all-Floor square.
   */
  lemma ConstructionBuildsFloorGrid(size: nat)
    ensures Vectors.ResizeAll(Vectors.Resize(Vectors.Filled(size, []), size, []), size, ValueInitialized())
            == FloorGrid(size)
  {
    var rows := Vectors.Resize(Vectors.Filled(size, []), size, []);
    var r := Vectors.ResizeAll(rows, size, ValueInitialized());
    forall i | 0 <= i < size
      ensures r[i] == Vectors.Filled(size, Floor)
    {
      assert rows[i] == [];
    }
  }

  class Map {
    /** `data_`: the rows of the map, each a vector of cells. */
    var data: seq<seq<CellType>>

    /** Every map is square: each row is as long as there are rows. */
    ghost predicate Valid()
      reads this
    {
      forall i :: 0 <= i < |data| ==> |data[i]| == |data|
    }

    /**
     * `Map(int size)`: a `size` by `size` grid whose every cell is Floor.
     * A negative size is left out: the conversion to a vector length would
     * throw inside the standard library.
     */
    constructor (size: int)
      requires size >= 0
      ensures data == FloorGrid(size)
      ensures Valid() && RowCount() == size
      ensures size >= 1 ==> ColCount() == size
      ensures forall row, col :: 0 <= row < size && 0 <= col < size ==> Cell(row, col) == Floor
    {
      data := Vectors.Filled(size, []);
      new;
      ghost var built := data;
      Vectors.ResizeToOwnLength(data, []);
      data := Vectors.Resize(data, size, []);
      assert data == built;  // the outer resize changes nothing
      ghost var rows := data;
      var i := 0;
      while i < |data|
        invariant |data| == size && 0 <= i <= size
        invariant forall k :: 0 <= k < i ==> data[k] == Vectors.Resize(rows[k], size, ValueInitialized())
        invariant forall k :: i <= k < size ==> data[k] == rows[k]
      {
        data := data[i := Vectors.Resize(data[i], size, ValueInitialized())];
        i := i + 1;
      }
      assert data == Vectors.ResizeAll(rows, size, ValueInitialized());
      ConstructionBuildsFloorGrid(size);
    }

    /**
     * `cell(row, col)`: the cell stored at row `row`, column `col`. The
     * source checks neither index, so both must be in range.
     */
    function Cell(row: int, col: int): (c: CellType)
      reads this
      requires 0 <= row < |data| && 0 <= col < |data[row]|
      ensures c == data[row][col]
    {
      data[row][col]
    }

    /** `row_count()`: the number of rows. */
    function RowCount(): (n: int)
      reads this
      ensures n == |data|
    {
      |data|
    }

    /**
     * `col_count()`: the length of the first row, so there must be one. On a
     * square map it equals the number of rows.
     */
    function ColCount(): (n: int)
      reads this
      requires |data| >= 1
      ensures n == |data[0]|
      ensures Valid() ==> n == RowCount()
    {
      |data[0]|
    }
  }
}
