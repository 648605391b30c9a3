/** The later board of strategy/board.py: the same sparse cell map as the
    earlier board of game.py, but with bounds-checked writes, the two
    four-row bands each side starts in, and the layout of a 40-slot setup
    into one of those bands.
 */
module Boards {
  import opened Outcomes
  import opened Pieces
  import Game
  import Arith

  type Key = Game.Key
  type Cell = Game.Cell

  /** The board: a sparse map from keys to cells. */
  datatype Board = Board(cells: map<Key, Cell>)

  /** Every stored key lies on the grid. The constructor establishes this
      and `Set` keeps it, since it refuses every other key. */
  predicate Valid(b: Board) {
    forall k :: k in b.cells ==> Game.InRange(k)
  }

  /** `Board()`: an empty map with the lakes written in, exactly as in
      game.py. */
  function New(): (b: Board)
    ensures Valid(b)
    ensures forall k :: Get(b, k) == if Game.IsLake(k) then Game.Lake else Game.Empty
  {
    Game.LakeKeysAreTheLakeBlocks();
    Board(Game.AddLakes(map[], Game.LakeKeys))
  }

  /** `board[key]`: no bounds check. An absent key reads as `Empty`, so on
      a board built by `New` and `Set` every off-grid key reads as `Empty`
      rather than failing. */
  function Get(b: Board, k: Key): (c: Cell)
    ensures Valid(b) && !Game.InRange(k) ==> c == Game.Empty
  {
    Game.Lookup(b.cells, k)
  }

  /** `board[key] = value`: refused with `InvalidDimensions` exactly when a
      coordinate lies outside 0..9, in which case no new board exists and
      the caller's board is the one it had; otherwise the value is stored
      (lakes included) and nothing else changes. */
  function Set(b: Board, k: Key, v: Cell): (r: Result<Board>)
    ensures r.Err? <==> !Game.InRange(k)
    ensures r.Err? ==> r.error == InvalidDimensions
    ensures r.Ok? ==> Get(r.value, k) == v
    ensures r.Ok? ==> forall k' :: k' != k ==> Get(r.value, k') == Get(b, k')
    ensures r.Ok? && Valid(b) ==> Valid(r.value)
  {
    if k.0 < 0 || k.0 > 9 then Err(InvalidDimensions)
    else if k.1 < 0 || k.1 > 9 then Err(InvalidDimensions)
    else Ok(Board(b.cells[k := v]))
  }

  /** `len(board)`: the number of cells the grid enumerates. */
  function Len(b: Board): (n: nat)
    ensures n == |Game.Coordinates()|
  {
    10 * 10
  }

  // ---------------------------------------------------------------------
  // The two starting bands
  // ---------------------------------------------------------------------

  /** `[board[k] for k in keys]`. */
  function Read(b: Board, keys: seq<Key>): (r: seq<Cell>)
    ensures |r| == |keys|
    ensures forall i :: 0 <= i < |keys| ==> r[i] == Get(b, keys[i])
  {
    if |keys| == 0 then [] else [Get(b, keys[0])] + Read(b, keys[1..])
  }

  /** `board.top()`: the 40 cells of rows 0..3, column by column. */
  function Top(b: Board): (r: seq<Cell>)
    ensures |r| == 40
    ensures forall i :: 0 <= i < 40 ==> r[i] == Get(b, (i / 4, i % 4))
  {
    Read(b, Game.Sweep(0, 10, 0, 4))
  }

  /** `board.bottom()`: the 40 cells of rows 6..9, column by column. */
  function Bottom(b: Board): (r: seq<Cell>)
    ensures |r| == 40
    ensures forall i :: 0 <= i < 40 ==> r[i] == Get(b, (i / 4, 6 + i % 4))
  {
    Read(b, Game.Sweep(0, 10, 6, 10))
  }

  /** The row a side's setup starts on: 6 for Red, 0 otherwise. */
  function BaseRow(player: Side): int {
    if player == Red then 6 else 0
  }

  /** The four rows a side starts in. */
  predicate InBand(k: Key, player: Side) {
    0 <= k.0 <= 9 && BaseRow(player) <= k.1 < BaseRow(player) + 4
  }

  /** `top()` reads exactly Blue's band and `bottom()` exactly Red's, each
      cell once. */
  lemma BandsAreTopAndBottom(k: Key)
    ensures InBand(k, Blue) <==> exists i :: 0 <= i < 40 && (i / 4, i % 4) == k
    ensures InBand(k, Red) <==> exists i :: 0 <= i < 40 && (i / 4, 6 + i % 4) == k
    ensures forall i, j :: 0 <= i < j < 40 ==> (i / 4, i % 4) != (j / 4, j % 4)
    ensures forall i, j :: 0 <= i < j < 40 ==> (i / 4, 6 + i % 4) != (j / 4, 6 + j % 4)
  {
    if InBand(k, Blue) {
      var i := k.0 * 4 + k.1;
      Arith.DivModUnique(i, 4, k.0, k.1);
      assert (i / 4, i % 4) == k;
    }
    if InBand(k, Red) {
      var i := k.0 * 4 + (k.1 - 6);
      Arith.DivModUnique(i, 4, k.0, k.1 - 6);
      assert (i / 4, 6 + i % 4) == k;
    }
  }

  /** On a fresh board both bands are empty: the lakes lie in rows 4 and 5. */
  lemma FreshBandsAreEmpty()
    ensures forall i :: 0 <= i < 40 ==> Top(New())[i] == Game.Empty
    ensures forall i :: 0 <= i < 40 ==> Bottom(New())[i] == Game.Empty
  {
  }

  // ---------------------------------------------------------------------
  // Laying out a setup
  // ---------------------------------------------------------------------

  /** The cell setup slot `i` is written to. */
  function SlotKey(i: int, player: Side): Key {
    (i % 10, BaseRow(player) + i / 10)
  }

  /** The setup slot that lands on cell `k` of the band. */
  function SlotIndex(k: Key, player: Side): int {
    (k.1 - BaseRow(player)) * 10 + k.0
  }

  /** Slot-to-cell is a bijection between the 40 slots and the side's band. */
  lemma SlotKeyIsBijection(player: Side)
    ensures forall i :: 0 <= i < 40 ==>
      InBand(SlotKey(i, player), player) && SlotIndex(SlotKey(i, player), player) == i
    ensures forall k :: InBand(k, player) ==>
      0 <= SlotIndex(k, player) < 40 && SlotKey(SlotIndex(k, player), player) == k
  {
    forall k | InBand(k, player)
      ensures SlotKey(SlotIndex(k, player), player) == k
    {
      var i := SlotIndex(k, player);
      Arith.DivModUnique(i, 10, k.1 - BaseRow(player), k.0);
    }
  }

  /** After the first `n` slots of the layout: each band cell whose slot is
      below `n` holds that slot's piece, and every other cell is as it was. */
  ghost predicate PlacedUpTo(r: Board, b: Board, setup: seq<Piece>, player: Side, n: int)
    requires |setup| == 40
  {
    && (forall k :: InBand(k, player) && SlotIndex(k, player) < n ==>
          Get(r, k) == Game.Occupant(setup[SlotIndex(k, player)]))
    && (forall k :: !(InBand(k, player) && SlotIndex(k, player) < n) ==> Get(r, k) == Get(b, k))
  }

  /** Writing slot `n` to its cell extends the layout by one slot. */
  lemma PlaceStep(r: Board, b: Board, setup: seq<Piece>, player: Side, n: int)
    requires |setup| == 40 && 0 <= n < 40
    requires PlacedUpTo(r, b, setup, player, n)
    ensures Set(r, SlotKey(n, player), Game.Occupant(setup[n])).Ok?
    ensures PlacedUpTo(Set(r, SlotKey(n, player), Game.Occupant(setup[n])).value, b, setup, player, n + 1)
  {
    SlotKeyIsBijection(player);
  }

  /** A board that holds a piece in every cell of Red's band and matches
      `b` everywhere else has `bottom()` full and `top()` unchanged. */
  lemma RedBandFilled(b: Board, r: Board)
    requires forall k :: InBand(k, Red) ==> Get(r, k).Occupant?
    requires forall k :: !InBand(k, Red) ==> Get(r, k) == Get(b, k)
    ensures forall i :: 0 <= i < 40 ==> Bottom(r)[i].Occupant?
    ensures Top(r) == Top(b)
  {
    var top := Top(r);
    forall i | 0 <= i < 40
      ensures top[i] == Top(b)[i]
    {
      assert !InBand((i / 4, i % 4), Red);
    }
    assert top == Top(b);
  }

  /** The same for Blue: `top()` full and `bottom()` unchanged. */
  lemma BlueBandFilled(b: Board, r: Board)
    requires forall k :: InBand(k, Blue) ==> Get(r, k).Occupant?
    requires forall k :: !InBand(k, Blue) ==> Get(r, k) == Get(b, k)
    ensures forall i :: 0 <= i < 40 ==> Top(r)[i].Occupant?
    ensures Bottom(r) == Bottom(b)
  {
    var bottom := Bottom(r);
    forall i | 0 <= i < 40
      ensures bottom[i] == Bottom(b)[i]
    {
      assert !InBand((i / 4, 6 + i % 4), Blue);
    }
    assert bottom == Bottom(b);
  }

  /** The placement loop of `create_random_pieces` as intended, with the
      debug line only reporting: slot `index` of the (already shuffled)
      setup goes to column `index % 10` of the current line, which starts at
      the side's base row and advances every ten slots. So cell `k` of the
      band receives slot `SlotIndex(k)`, which by `SlotKeyIsBijection` is
      the slot that `SlotKey` sends to `k`: the band holds the 40 pieces one
      per cell, and every cell outside it is left as it was. In particular
      Red fills `bottom()` and leaves `top()` alone, and Blue the reverse. */
  method PlaceSetup(b: Board, setup: seq<Piece>, player: Side) returns (r: Board)
    requires |setup| == 40
    ensures forall k :: InBand(k, player) ==> Get(r, k) == Game.Occupant(setup[SlotIndex(k, player)])
    ensures forall k :: !InBand(k, player) ==> Get(r, k) == Get(b, k)
    ensures Valid(b) ==> Valid(r)
    ensures player == Red ==> (forall i :: 0 <= i < 40 ==> Bottom(r)[i].Occupant?) && Top(r) == Top(b)
    ensures player == Blue ==> (forall i :: 0 <= i < 40 ==> Top(r)[i].Occupant?) && Bottom(r) == Bottom(b)
  {
    var line := if player == Red then 6 else 0;
    r := b;
    var index := 0;
    while index < 40
      invariant 0 <= index <= 40
      invariant line == BaseRow(player) + (if index == 0 then 0 else (index - 1) / 10)
      invariant PlacedUpTo(r, b, setup, player, index)
      invariant Valid(b) ==> Valid(r)
    {
      if index > 0 && index % 10 == 0 {
        line := line + 1;
      }
      assert (index % 10, line) == SlotKey(index, player);
      PlaceStep(r, b, setup, player, index);
      r := Set(r, (index % 10, line), Game.Occupant(setup[index])).value;
      index := index + 1;
    }
    if player == Red {
      RedBandFilled(b, r);
    } else {
      BlueBandFilled(b, r);
    }
  }

  /** The number of leading slots whose pieces render: the slot at which the
      debug message first raises, or the length of the setup when none
      does. */
  function RenderablePrefix(setup: seq<Piece>): (n: nat)
    ensures n <= |setup|
    ensures forall j :: 0 <= j < n ==> ColourLabel(setup[j]).Ok?
    ensures n < |setup| ==> ColourLabel(setup[n]).Err?
  {
    if |setup| == 0 || ColourLabel(setup[0]).Err? then 0
    else 1 + RenderablePrefix(setup[1..])
  }

  /** The renderable prefix ends at the first slot that does not render. */
  lemma RenderablePrefixAt(setup: seq<Piece>, n: nat)
    requires n <= |setup|
    requires forall j :: 0 <= j < n ==> ColourLabel(setup[j]).Ok?
    requires n < |setup| ==> ColourLabel(setup[n]).Err?
    ensures RenderablePrefix(setup) == n
  {
  }

  /** The placement loop as written. Before each write the debug message
      renders the piece, and rendering reads the piece's colour; the first
      piece without one raises `AttributeError`. The board is updated in
      place, so the slots written before that stay written. */
  method PlaceSetupAsWritten(b: Board, setup: seq<Piece>, player: Side) returns (r: Board, raised: Option<Error>)
    requires |setup| == 40
    ensures raised.Some? <==> exists i :: 0 <= i < 40 && ColourLabel(setup[i]).Err?
    ensures raised.Some? ==> raised.value == AttributeMissing
    ensures forall k :: InBand(k, player) && SlotIndex(k, player) < RenderablePrefix(setup) ==>
      Get(r, k) == Game.Occupant(setup[SlotIndex(k, player)])
    ensures forall k :: !(InBand(k, player) && SlotIndex(k, player) < RenderablePrefix(setup)) ==>
      Get(r, k) == Get(b, k)
    ensures ColourLabel(setup[0]).Err? ==> r == b
    ensures Valid(b) ==> Valid(r)
  {
    var line := if player == Red then 6 else 0;
    r := b;
    raised := None;
    var index := 0;
    while index < 40
      invariant 0 <= index <= 40
      invariant line == BaseRow(player) + (if index == 0 then 0 else (index - 1) / 10)
      invariant PlacedUpTo(r, b, setup, player, index)
      invariant forall j :: 0 <= j < index ==> ColourLabel(setup[j]).Ok?
      invariant index == 0 ==> r == b
      invariant Valid(b) ==> Valid(r)
    {
      if index > 0 && index % 10 == 0 {
        line := line + 1;
      }
      if ColourLabel(setup[index]).Err? {
        RenderablePrefixAt(setup, index);
        raised := Some(AttributeMissing);
        return;
      }
      assert (index % 10, line) == SlotKey(index, player);
      PlaceStep(r, b, setup, player, index);
      r := Set(r, (index % 10, line), Game.Occupant(setup[index])).value;
      index := index + 1;
    }
    RenderablePrefixAt(setup, 40);
  }

  /** The layout as `create_random_pieces` runs it: every slot holds one of
      the `PIECES` objects, none of which has a colour, so the first debug
      message raises before anything is written and the board is left as it
      was. */
  method CatalogueLayoutRaises(b: Board, setup: seq<Piece>, player: Side) returns (r: Board, raised: Option<Error>)
    requires |setup| == 40
    requires forall i :: 0 <= i < 40 ==> setup[i] in Catalogue
    ensures raised == Some(AttributeMissing)
    ensures r == b
  {
    CatalogueEntriesAreDefaults();
    assert ColourLabel(setup[0]).Err?;
    r, raised := PlaceSetupAsWritten(b, setup, player);
  }

  // ---------------------------------------------------------------------
  // The two boards compared
  // ---------------------------------------------------------------------

  /** The writes the board tests expect to fail, `(-1, 9)` and `(1, 10)`,
      are refused here but accepted and stored by game.py's board, whose
      guard can never fire; an in-range write is accepted by both. */
  lemma OffGridWriteDiscrepancy(v: Cell)
    ensures Set(New(), (-1, 9), v) == Err(InvalidDimensions)
    ensures Set(New(), (1, 10), v) == Err(InvalidDimensions)
    ensures Set(New(), (1, 9), v).Ok?
    ensures Game.Get(Game.Set(Game.New(), (-1, 9), v).value, (-1, 9)) == v
    ensures Game.Get(Game.Set(Game.New(), (1, 10), v).value, (1, 10)) == v
  {
  }

  /** Lakes are not protected: a write over a lake cell is accepted and
      replaces the lake. */
  lemma LakeCanBeOverwritten(v: Cell)
    ensures Set(New(), (2, 4), v).Ok?
    ensures Get(Set(New(), (2, 4), v).value, (2, 4)) == v
  {
  }
}
