/** The kinds of terrain a map cell can hold (`game::Map::CellType`). */
module CellTypes {

  datatype Option<T> = None | Some(value: T)

  /** The enumerators, in declaration order. */
  datatype CellType = Floor | Clay | Wall | Rock | Water | Custom

  /**
   * The enumerator's numeric value: the first five count up from 0 in
   * declaration order and `Custom` is fixed at 1000.
   */
  function Value(c: CellType): (v: int)
    ensures 0 <= v <= 4 || v == 1000
  {
    match c
    case Floor => 0
    case Clay => 1
    case Wall => 2
    case Rock => 3
    case Water => 4
    case Custom => 1000
  }

  /**
   * The enumerator with numeric value `v`, if one exists: exactly 0 to 4 and
   * 1000 name an enumerator.
   */
  function FromValue(v: int): (r: Option<CellType>)
    ensures r.Some? <==> (0 <= v <= 4 || v == 1000)
    ensures r.Some? ==> Value(r.value) == v
  {
    if v == 0 then Some(Floor)
    else if v == 1 then Some(Clay)
    else if v == 2 then Some(Wall)
    else if v == 3 then Some(Rock)
    else if v == 4 then Some(Water)
    else if v == 1000 then Some(Custom)
    else None
  }

  /** Distinct enumerators have distinct numeric values. */
  lemma ValueInjective(a: CellType, b: CellType)
    ensures Value(a) == Value(b) ==> a == b
  {
  }

  /** Every enumerator is recovered from its numeric value. */
  lemma ValueRoundTrip(c: CellType)
    ensures FromValue(Value(c)) == Some(c)
  {
  }

  /**
   * A value-initialized `CellType`, as `std::vector::resize` produces it: the
   * enumerator whose numeric value is zero.
   */
  function ValueInitialized(): (c: CellType)
    ensures Value(c) == 0
  {
    Floor
  }
}
