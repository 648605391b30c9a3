/** The earlier board of strategy/game.py: the `Empty` and `Lake` markers,
    the lake layout, a sparse cell map read with `Empty` as the default, and
    the `Action` record.

    The same markers, key type, lake layout and coordinate enumeration are
    used by the later board of strategy/board.py (module `Boards`).
 */
module Game {
  import opened Outcomes
  import opened Pieces
  import Arith

  // ---------------------------------------------------------------------
  // Cells and keys
  // ---------------------------------------------------------------------

  /** What a board cell holds: one of the two singleton markers, or a stored
      value, which in this game is always a piece. */
  datatype Cell = Empty | Lake | Occupant(piece: Piece)

  /** Python truthiness of a cell: both markers define `__bool__` as
      `False`; a piece defines neither `__bool__` nor `__len__`, so it is
      truthy. */
  predicate Truthy(c: Cell) {
    c.Occupant?
  }

  /** The markers are two distinct values, both falsy, while every stored
      piece is truthy. */
  lemma MarkersDistinctAndFalsy()
    ensures Empty != Lake
    ensures !Truthy(Empty) && !Truthy(Lake)
    ensures forall p: Piece :: Truthy(Occupant(p))
  {
  }

  /** A board key `(x, y)`: any pair of integers, since nothing on the read
      path restricts it. */
  type Key = (int, int)

  /** Width and height of the grid. */
  const Size: int := 10

  /** A key that addresses one of the 10x10 cells. */
  predicate InRange(k: Key) {
    0 <= k.0 < Size && 0 <= k.1 < Size
  }

  /** The lake cells, in the order the constructor writes them. */
  const LakeKeys: seq<Key> := [(2, 4), (3, 4), (2, 5), (3, 5), (6, 4), (7, 4), (6, 5), (7, 5)]

  /** The two 2x2 lake blocks: columns 2-3 and 6-7 of rows 4-5. */
  predicate IsLake(k: Key) {
    && (k.0 == 2 || k.0 == 3 || k.0 == 6 || k.0 == 7)
    && (k.1 == 4 || k.1 == 5)
  }

  /** The eight keys the constructor writes are exactly the two lake blocks,
      all inside the grid. */
  lemma LakeKeysAreTheLakeBlocks()
    ensures forall k: Key :: k in LakeKeys <==> IsLake(k)
    ensures forall k: Key :: IsLake(k) ==> InRange(k)
  {
  }

  /** `dict.get(key, Empty)`: a stored value, or `Empty` when the key is
      absent. */
  function Lookup(cells: map<Key, Cell>, k: Key): Cell {
    if k in cells then cells[k] else Empty
  }

  /** Writes `Lake` under each of `keys`, one after the other. */
  function AddLakes(cells: map<Key, Cell>, keys: seq<Key>): (r: map<Key, Cell>)
    ensures forall k :: Lookup(r, k) == if k in keys then Lake else Lookup(cells, k)
    ensures forall k :: k in r <==> k in cells || k in keys
    decreases |keys|
  {
    if |keys| == 0 then cells
    else AddLakes(cells[keys[0] := Lake], keys[1..])
  }

  // ---------------------------------------------------------------------
  // Enumerating coordinates
  // ---------------------------------------------------------------------

  /** `[(x, y) for y in range(y0, y1)]`. */
  function Column(x: int, y0: int, y1: int): (r: seq<Key>)
    requires y0 <= y1
    ensures |r| == y1 - y0
    ensures forall j :: 0 <= j < |r| ==> r[j] == (x, y0 + j)
    decreases y1 - y0
  {
    if y0 == y1 then [] else [(x, y0)] + Column(x, y0 + 1, y1)
  }

  /** `[(x, y) for x in range(x0, x1) for y in range(y0, y1)]`: x-major,
      then y. Entry `i` is column `x0 + i / h`, row `y0 + i % h` for the
      column height `h`. */
  function Sweep(x0: int, x1: int, y0: int, y1: int): (r: seq<Key>)
    requires x0 <= x1 && y0 < y1
    ensures |r| == (x1 - x0) * (y1 - y0)
    ensures forall i :: 0 <= i < |r| ==> r[i] == (x0 + i / (y1 - y0), y0 + i % (y1 - y0))
    decreases x1 - x0
  {
    if x0 == x1 then []
    else
      var column, rest := Column(x0, y0, y1), Sweep(x0 + 1, x1, y0, y1);
      var h := y1 - y0;
      assert |rest| == (x1 - x0) * h - h;
      Arith.DivModSteps(h);
      column + rest
  }

  /** Every cell of the grid, x-major and then y. This is the model's own
      enumeration, used to state what `len` counts: the boards' renderers
      walk the grid y-major, and `top()`/`bottom()` cover only the bands. */
  function Coordinates(): seq<Key> {
    Sweep(0, Size, 0, Size)
  }

  /** The enumeration lists each in-range key exactly once and nothing
      else, so it has one entry per cell. */
  lemma CoordinatesEnumerateGrid()
    ensures |Coordinates()| == Size * Size
    ensures forall k: Key :: k in Coordinates() <==> InRange(k)
    ensures forall i, j :: 0 <= i < j < |Coordinates()| ==> Coordinates()[i] != Coordinates()[j]
  {
    var c := Coordinates();
    forall k: Key | InRange(k)
      ensures k in c
    {
      var i := k.0 * Size + k.1;
      Arith.DivModUnique(i, Size, k.0, k.1);
      assert c[i] == k;
    }
    forall i, j | 0 <= i < j < |c|
      ensures c[i] != c[j]
    {
      if c[i] == c[j] {
        assert false;
      }
    }
  }

  // ---------------------------------------------------------------------
  // The board
  // ---------------------------------------------------------------------

  /** The board: a sparse map from keys to cells. */
  datatype Board = Board(cells: map<Key, Cell>)

  /** `Board()`: an empty map with the lakes written in. */
  function New(): (b: Board)
    ensures forall k :: Get(b, k) == if IsLake(k) then Lake else Empty
  {
    LakeKeysAreTheLakeBlocks();
    Board(AddLakes(map[], LakeKeys))
  }

  /** `board[key]`: no bounds check; an absent key, in range or not, reads
      as `Empty`. */
  function Get(b: Board, k: Key): Cell {
    Lookup(b.cells, k)
  }

  /** `board[key] = value` as game.py writes it. Python reads `0 > k > 9` as
      `0 > k and k > 9`, which no integer satisfies, so the write is never
      refused: it stores the value under any key, in range or not, and
      overwrites lakes as readily as empty cells. */
  function Set(b: Board, k: Key, v: Cell): (r: Result<Board>)
    ensures r.Ok?
    ensures Get(r.value, k) == v
    ensures forall k' :: k' != k ==> Get(r.value, k') == Get(b, k')
  {
    if 0 > k.0 > 9 then Err(InvalidDimensions)
    else if 0 > k.1 > 9 then Err(InvalidDimensions)
    else Ok(Board(b.cells[k := v]))
  }

  /** `len(board)`: the number of cells the grid enumerates, whatever the
      board holds. */
  function Len(b: Board): (n: nat)
    ensures n == |Coordinates()|
  {
    Size * Size
  }

  // ---------------------------------------------------------------------
  // Actions
  // ---------------------------------------------------------------------

  /** A player's requested move. */
  datatype Action = Action(source: Key, destination: Key, player: Side)

  /** The root validator `check_action`: returns the action it is given. */
  function CheckAction(action: Action): Result<Action> {
    Ok(action)
  }

  /** Building an `Action` runs the validator, which accepts every action,
      whatever its coordinates, and keeps its fields as given. */
  function MakeAction(source: Key, destination: Key, player: Side): (r: Result<Action>)
    ensures r.Ok?
    ensures r.value.source == source && r.value.destination == destination
    ensures r.value.player == player
  {
    CheckAction(Action(source, destination, player))
  }
}
