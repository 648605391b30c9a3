# Stratego rules engine: pieces, combat and the board

A Dafny model of the core of a Python Stratego engine (`strategy/`). It covers three parts:

- **Pieces and combat** (`pieces.dfy`, module `Pieces`) covers strategy/pieces.py:
  - the twelve ranks;
  - the `Piece` equality and ordering operators, including the `>` that `functools.total_ordering` derives from them;
  - `can_attack` and `attack`;
  - the part of `Piece.__str__` that can fail, reading the colour's name;
  - the 40-piece `PIECES` catalogue.
- **The earlier board** (`game.dfy`, module `Game`) covers strategy/game.py:
  - the `Empty` and `Lake` singleton markers;
  - the eight lake cells;
  - a sparse cell map that reads absent keys as `Empty`;
  - a write whose bounds guard can never fire;
  - `len`;
  - the identity validator of `Action`.
- **The later board** (`board.dfy`, module `Boards`) covers strategy/board.py:
  - the same map with bounds-checked writes;
  - `top()` and `bottom()`, the two 40-cell starting bands;
  - the deterministic part of `create_random_pieces`, which lays a 40-slot setup into a side's band, both as written and as intended (see Findings).

Failures that the Python code raises become values: `Outcomes.Result` is `Ok(value)` or `Err(error)`. The error values are `InvalidOperation`, `InvalidDimensions`, `TypeMismatch` (Python's `TypeError`) and `AttributeMissing` (Python's `AttributeError`). The three-way result of `attack` is `Ok(Some(true))` (win), `Ok(None)` (draw) or `Ok(Some(false))` (loss). A board is an immutable value. Each write returns a new board.

Where the tests expect other behaviour than the code has, the model follows the code:
- Neither board bounds-checks reads (board.py:61-63, game.py:82-84). `tests/test_board.py:63-75` expects the off-grid reads at lines 65-70 to raise. In the model they read `Empty`. On a board built only through `Boards.New` and `Boards.Set`, every off-grid key reads `Empty`.
- `board.py` picks the setup rows by comparing with `Player.RED` of player.py (board.py:38). tests/test_board.py:32-39 passes `Colour.RED`, a different enumeration, which never compares equal to it; main.py:13-14 passes `Player.RED`. The model has one `Side` type and follows the comparison as written: Red gets rows 6..9 and every other side gets rows 0..3.

The write of board.py:65-71 checks only the coordinates, so a write over a lake cell replaces the lake (`Boards.LakeCanBeOverwritten`).

## Model

| member | source | states |
|---|---|---|
| `Pieces.Equals` | strategy/pieces.py:102-106 | a piece never equals a field that is not a piece |
| `Pieces.EqualsIsEquivalence` | strategy/pieces.py:102-106 | piece equality is reflexive, symmetric and transitive, and holds exactly when the rank names agree, whatever the power, colour or position |
| `Pieces.Less` | strategy/pieces.py:108-112 | comparing with a non-piece is a type error; between pieces, "less" is decided by power alone |
| `Pieces.Greater` | strategy/pieces.py:50-51 | the `>` derived by `total_ordering` holds exactly when the names differ and the power is at least the other's, so a piece is never greater than one of its own rank |
| `Pieces.OrderingOfPieces` | strategy/pieces.py:50-112 | `<` is irreflexive and transitive; between pieces of different ranks the derived `>` holds exactly when `<` does not, and between pieces of one rank `>` never holds |
| `Pieces.EqualityAndOrderingDisagree` | strategy/pieces.py:102-112 | two pieces can be equal and ordered at once, and two pieces of equal power but different names are each greater than the other |
| `Pieces.Attack` | strategy/pieces.py:77-92 | an attack by a Bomb or a Flag fails with `InvalidOperation` whatever the defender; a mobile Miner or Spy wins against any field, piece or not, named `bomb` or `marshal` respectively; a mobile attacker facing any other non-piece field fails with `TypeMismatch`, raised by the final `>`; against a piece it wins exactly in the Miner-on-Bomb and Spy-on-Marshal cases or when the names differ and the attacker's power is at least the defender's, draws exactly when the names match outside those cases, and loses otherwise |
| `Pieces.CanAttackIffAttackSucceeds` | strategy/pieces.py:84-96 | `can_attack` holds exactly when `attack` succeeds against every piece defender |
| `Pieces.AttackDependsOnNameAndPowerOnly` | strategy/pieces.py:77-92 | between two pieces, colour, position and the seen flag never change a combat outcome |
| `Pieces.AttackExamples` | tests/test_piece.py:11-24 | the outcomes the piece tests expect, including the two `InvalidOperationError` cases, and attacks on an empty field and a lake field fail with `TypeMismatch`, while a Miner attacking an empty field named `bomb` wins |
| `Pieces.ColourLabel` | strategy/pieces.py:69-75 | rendering a piece fails with `AttributeMissing` exactly when it has no colour, and otherwise yields `blue` or `red` |
| `Pieces.CanonicalCombat` | strategy/pieces.py:115-156 | between a mobile attacker and a piece defender, both with their catalogue powers, special pairings win, equal ranks draw and otherwise the higher-ranked piece wins; a tie on power never reaches the attacker-wins rule |
| `Pieces.CanonicalCombatAntisymmetric` | strategy/pieces.py:86-92 | between catalogue-powered mobile pieces, swapping attacker and defender swaps win and loss and keeps a draw, except for the Spy and the Marshal |
| `Pieces.SpyAndMarshalBothWinAttacking` | strategy/pieces.py:88-92 | the Spy wins attacking the Marshal, and the Marshal wins attacking the Spy |
| `Pieces.CatalogueTally` | strategy/pieces.py:115-156 | the catalogue holds exactly `RankCount(r)` pieces of rank `r` |
| `Pieces.CatalogueComposition` | strategy/pieces.py:115-156 | `PIECES` has 40 pieces: 6 Bomb, 1 Marshal, 1 General, 2 Colonel, 3 Major, 4 Captain, 4 Lieutenant, 4 Sergeant, 5 Miner, 8 Scout, 1 Spy and 1 Flag |
| `Pieces.CatalogueIsGroups` | strategy/pieces.py:115-156 | the catalogue is its twelve rank groups in rank order, each `RankCount(r)` default-argument pieces of rank `r` at its canonical power |
| `Pieces.TallyGroups` | strategy/pieces.py:115-156 | the first `n` groups hold `RankCount(r)` pieces of rank `r` when that rank's group is among them, and none otherwise |
| `Pieces.CatalogueEntriesAreDefaults` | strategy/pieces.py:115-156 | every catalogue piece has the power of its rank (Bomb 11, Marshal 10 down to Spy 1, Flag 0) and no colour |
| `Game.MarkersDistinctAndFalsy` | strategy/game.py:16-47 | `Empty` and `Lake` are distinct and both falsy, while a stored piece is truthy |
| `Game.LakeKeysAreTheLakeBlocks` | strategy/game.py:94-103 | the eight keys written by `_add_lakes` are exactly columns 2-3 and 6-7 of rows 4-5, all on the grid |
| `Game.AddLakes` | strategy/game.py:94-103 | after the lake writes, each written key reads `Lake` and every other key reads as before |
| `Game.New` | strategy/game.py:59-62 | a fresh board reads `Lake` at the eight lake cells and `Empty` under every other key, on the grid or not |
| `Game.Set` | strategy/game.py:82-92 | the write never fails, for any key; reading that key through `Game.Get` (`__getitem__`) then yields the stored value, and every other key reads as before |
| `Game.Len` | strategy/game.py:78-80 | the length is the number of cells in the x-major enumeration of the grid, whatever the board holds |
| `Game.CoordinatesEnumerateGrid` | strategy/game.py:78-80 | that enumeration lists each of the 10x10 cells exactly once, so the length is 100 |
| `Game.MakeAction` | strategy/game.py:106-116 | the root validator accepts every action, whatever its coordinates, and keeps its fields as given |
| `Boards.New` | strategy/board.py:15-18 | a fresh board stores only on-grid keys, reads `Lake` exactly at the eight lake cells and `Empty` everywhere else |
| `Boards.Get` | strategy/board.py:61-63 | reads are never refused; on a board whose stored keys are all on the grid, an off-grid key reads `Empty` |
| `Boards.Set` | strategy/board.py:65-71 | the write fails with `InvalidDimensions` exactly when x or y is outside 0..9; a refused write yields no new board, so the caller's board is unchanged; otherwise that key reads the value, every other key reads as before, and only on-grid keys are ever stored |
| `Boards.Len` | strategy/board.py:57-59 | the length is the number of cells in the grid enumeration |
| `Boards.Top` | strategy/board.py:49-51 | `top()` is 40 cells, entry `i` being column `i / 4`, row `i % 4` (x-major, then y over rows 0..3) |
| `Boards.Bottom` | strategy/board.py:45-47 | `bottom()` is 40 cells, entry `i` being column `i / 4`, row `6 + i % 4` |
| `Boards.BandsAreTopAndBottom` | strategy/board.py:45-51 | `top()` reads exactly the cells of rows 0..3 and `bottom()` exactly those of rows 6..9, each cell once |
| `Boards.FreshBandsAreEmpty` | strategy/board.py:45-51 | on a fresh board every cell of both bands is `Empty` |
| `Boards.SlotKeyIsBijection` | strategy/board.py:38-43 | slot `i` maps to column `i % 10` of row `base + i / 10`, and this is a bijection between the 40 slots and the side's four-row band |
| `Boards.PlaceSetup` | strategy/board.py:38-43 | the placement loop as intended, with its line counter advancing every ten slots, gives each cell of the side's band (rows 6..9 for Red, 0..3 otherwise) the piece of the slot `SlotKeyIsBijection` maps to it and leaves every cell outside the band as it was; so after Red's layout every `bottom()` cell holds a piece and `top()` is unchanged, and after Blue's the reverse |
| `Boards.RedBandFilled` | strategy/board.py:45-51 | a board full in Red's band and otherwise unchanged has a full `bottom()` and an unchanged `top()` |
| `Boards.BlueBandFilled` | strategy/board.py:45-51 | a board full in Blue's band and otherwise unchanged has a full `top()` and an unchanged `bottom()` |
| `Boards.RenderablePrefix` | strategy/board.py:39-42 | the number of leading slots whose pieces render: each of them renders, and the slot after them, if any, does not |
| `Boards.PlaceSetupAsWritten` | strategy/board.py:38-43 | the loop as written raises `AttributeMissing` exactly when some slot's piece has no colour; the slots before the first such one are written into the band as in the intended layout, every other cell is unchanged, only on-grid keys are ever stored, and when slot 0 fails the board is untouched |
| `Boards.CatalogueLayoutRaises` | strategy/board.py:30-43 | when every slot holds a `PIECES` entry, as the shuffle guarantees, the layout raises `AttributeMissing` at slot 0 and leaves the board as it was |
| `Boards.OffGridWriteDiscrepancy` | strategy/game.py:86-92 | the off-grid writes `(-1, 9)` and `(1, 10)` are refused by board.py but stored by game.py, and an on-grid write is accepted |
| `Boards.LakeCanBeOverwritten` | strategy/board.py:65-71 | a write over a lake cell is accepted and replaces the lake |

## Left out

- The random shuffle of `create_random_pieces` (board.py:32-37). It draws from `randrange` and its retry loop ends only with probability 1. The model takes the shuffled 40-slot sequence as an input (`Boards.PlaceSetup`). Its first draw uses `randrange(39)` while the retries use `randrange(40)`; that bias lies in the unmodelled random part.
- `Boards.PlaceSetup` requires exactly 40 slots. The source always builds the setup list with 40 entries (board.py:32).
- The `PIECES` objects are shared between both sides' setups, and no colour is ever assigned to them. Aliasing and colour assignment are not modelled.
- The placement loop's debug message is modelled only through its one effect on the board: formatting the piece reads its colour and raises when there is none (`Boards.PlaceSetupAsWritten`). The text of the message and the logging itself are not modelled.
- board.py imports `log` from `strategy.game`, which does not define that name. The module-level import is not modelled; the model treats board.py as if it loaded.
- Reachability, Scout line of sight, move and combat application, win detection, `get` with a default, `red()`/`blue()` and chess-notation coordinates are not modelled. The tests exercise them, but their implementations are not among the files modelled here. strategy/main.py is only a script.
- Separate `Player` and `Colour` enumerations: the model uses one `Side` type. The mismatch is described above.
- strategy/stratego.py (the text UI) and strategy/main.py (the script entry point) are not modelled.
- `__str__`/`__repr__` rendering is not modelled, except the colour read of `Piece.__str__` that can raise (`Pieces.ColourLabel`).
- `Pieces.Attack` takes any pieces.py `Field` as defender, wider than the `Piece` its `other` annotation asks for, so that the non-piece error path is modelled. game.py's `Empty` and `Lake` markers are not `Field`s and have no `name`; passed as a defender they would raise `AttributeError` for a Miner or a Spy and `TypeError` otherwise. That path is not modelled.
- The pydantic machinery behind `Action` belongs to a foreign library. Only the identity validator is modelled. Field type checking is carried by Dafny's types.
- The `name` of a `Piece` is a free string in Python. The model restricts it to the twelve rank names. The names of non-piece fields stay free strings.
- A board cell may hold any Python value. The model allows the two markers and pieces.

## Findings

| source | as written | input that shows it | evidently intended | confidence | as-written member | corrected member |
|---|---|---|---|---|---|---|
| strategy/board.py:38-43 | the debug line at board.py:42 formats `{piece}` before the write at board.py:43; `Piece.__str__` (pieces.py:69-75) reads `self.colour.name`, and every `PIECES` entry is built without a colour | `create_random_pieces(player)` with any shuffle: slot 0 holds a `PIECES` entry whose colour is `None`, so `AttributeError` is raised before any write and neither band is filled | lay the 40 pieces into the side's band, as tests/test_board.py:32-39 expects | high; not executed | `Boards.PlaceSetupAsWritten`, `Boards.CatalogueLayoutRaises` | `Boards.PlaceSetup` |
| strategy/game.py:86-92 | `if 0 > key[0] > 9` and `if 0 > key[1] > 9`; Python reads each as `0 > k and k > 9`, which no integer satisfies | `board[-1, 9] = v` or `board[1, 10] = v` is stored instead of raising `InvalidDimensionsError` | raise when a coordinate is below 0 or above 9, as board.py:65-71 later does | high; not executed | `Game.Set`, `Boards.OffGridWriteDiscrepancy` | `Boards.Set` |
