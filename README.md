# BattleCity tile map

A model of `game::Map`, the tile grid of a small BattleCity-style game
skeleton. A map is a square grid of cells, each holding a terrain kind
(`CellType`). It is built once from a side length and then only read:

- `Map(int size)` builds `size` empty rows, resizes the outer vector to
  `size` (which changes nothing), then walks the rows and resizes each one to
  `size` cells. `resize` value-initializes the cells it adds, so every cell is
  the enumerator with value 0, `Floor`.
- `cell(row, col)` returns the stored cell without any bounds check.
- `row_count()` is the number of rows; `col_count()` is the length of row 0.

Files:

- `vectors.dfy` (module `Vectors`): the value semantics of the two
  `std::vector` operations the constructor uses, fill-construction and
  `resize`, and `ResizeAll`, the effect of the constructor's per-row loop.
- `cell_type.dfy` (module `CellTypes`): the `CellType` enumeration, its
  numeric values and what a value-initialized `CellType` is.
- `map.dfy` (module `GameMap`): class `Map`, with the rows as a
  `seq<seq<CellType>>` field. The constructor runs the per-row resize loop in
  place, and its loop invariant says the rows before the
  loop position are resized and the rest are untouched, so after the loop the
  rows are `ResizeAll` of the rows it started with. The accessors
  are functions that read the map, so they cannot change it.

Two facts about the code that shape the model:

- `cell` does no bounds check, so out-of-range indices are undefined
  behaviour in the code; the model makes in-range indices a precondition of
  `Map.Cell`.
- `Custom` is a single enumerator with value 1000.

## Model

| member | source | states |
|---|---|---|
| `CellTypes.Value` | src/game/map.h:11-18 | every enumerator's numeric value is 0 to 4 or 1000 (Floor=0 … Water=4, Custom=1000) |
| `CellTypes.FromValue` | src/game/map.h:11-18 | exactly the integers 0 to 4 and 1000 name an enumerator, and the one returned has that value |
| `CellTypes.ValueInjective` | src/game/map.h:11-18 | no two enumerators share a numeric value |
| `CellTypes.ValueRoundTrip` | src/game/map.h:11-18 | reading back an enumerator's numeric value gives the same enumerator |
| `CellTypes.ValueInitialized` | src/game/map.cpp:9 | a value-initialized cell, as `resize` adds it, is the enumerator whose value is 0 |
| `Vectors.Filled` | src/game/map.cpp:5 | `std::vector<T>(n)` holds exactly `n` elements, each the value-initialized element |
| `Vectors.Resize` | src/game/map.cpp:7-9 | `resize(n)` leaves exactly `n` elements, keeps the old ones below `n` and fills every new position with the value-initialized element |
| `Vectors.ResizeToOwnLength` | src/game/map.cpp:5-7 | resizing the outer vector to the `size` rows it was built with changes nothing |
| `Vectors.ResizeAll` | src/game/map.cpp:8-10 | the loop over the rows keeps the number of rows and leaves row `i` equal to the old row `i` resized |
| `Vectors.ResizeAllAppend` | src/game/map.cpp:8-10 | one more loop step extends the finished rows by the next row, resized |
| `GameMap.ConstructionBuildsFloorGrid` | src/game/map.cpp:5-11 | fill-construct, outer resize and per-row resize together yield `size` rows of `size` Floor cells |
| `GameMap.Map.constructor` | src/game/map.cpp:5-11 | after `Map(size)` the rows are exactly the `size` by `size` all-Floor grid: square, `row_count() == size`, `col_count() == size` when `size >= 1`, every in-range cell Floor |
| `GameMap.Map.Cell` | src/game/map.h:22-24 | returns the cell stored at row `row`, column `col`; callable only with both indices in range, as the source checks neither |
| `GameMap.Map.RowCount` | src/game/map.h:26-28 | equals the number of rows stored |
| `GameMap.Map.ColCount` | src/game/map.h:29-31 | equals the length of row 0, needs at least one row, and on a square map equals `row_count()` |

## Left out

- `src/main.cpp` is not part of this model: window setup, input callbacks,
  the render loop, the shader and program wrappers and the empty map
  renderer are graphics and I/O plumbing over foreign libraries.
- The orthographic projection in `src/main.cpp` uses floating point and a
  foreign matrix library; it is not modelled.
- `GameMap.Map.constructor`: a negative `size` is excluded by its
  precondition; in the source the conversion to a vector length would throw
  inside the standard library.
- `GameMap.Map.RowCount`: the conversion of the vector's unsigned length to
  `int` is not modelled as truncating; every length here came from an `int`
  size, so it always fits.
- `GameMap.Map.ColCount`: the conversion of the first row's unsigned length
  to `int` is not modelled as truncating; every length here came from an
  `int` size, so it always fits.
- Allocation failure inside the vector operations is not modelled.
- The map has no mutation operation in the source, so none is modelled.
