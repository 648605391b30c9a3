/** The pieces of the game (strategy/pieces.py): ranks, the equality and
    ordering operators of `Piece`, combat resolution and the 40-piece
    catalogue each side starts with.
 */
module Pieces {
  import opened Outcomes

  /** The two players. The source has three distinct two-valued
      enumerations whose members never compare equal to each other's:
      `Colour` (colour.py), `Player` (player.py, which board.py compares
      against) and a second `Player` in game.py (the type of
      `Action.player`). One `Side` type stands for all three. */
  datatype Side = Blue | Red

  /** The twelve rank names. */
  datatype Rank =
    | Bomb | Marshal | General | Colonel | Major | Captain
    | Lieutenant | Sergeant | Miner | Scout | Spy | Flag

  /** A piece carries a rank name and a combat power that are independent of
      each other: nothing stops a caller from building a Miner of power 6.
      Colour, position and the `seen` flag are optional extras that default
      to absent. */
  datatype Piece = Piece(
    name: Rank,
    power: int,
    colour: Option<Side>,
    x: Option<int>,
    y: Option<int>,
    seen: bool)

  /** `Piece(name, power)` with every optional argument left at its default. */
  function MakePiece(name: Rank, power: int): Piece {
    Piece(name, power, None, None, None, false)
  }

  /** The name string of a rank, as the module constants spell it. */
  function RankName(name: Rank): string {
    match name
    case Bomb => "bomb"
    case Marshal => "marshal"
    case General => "general"
    case Colonel => "colonel"
    case Major => "major"
    case Captain => "captain"
    case Lieutenant => "lieutenant"
    case Sergeant => "sergeant"
    case Miner => "miner"
    case Scout => "scout"
    case Spy => "spy"
    case Flag => "flag"
  }

  /** The `Field` hierarchy: an empty field, a lake field or a piece. This is
      what a piece may be compared against. A non-piece field's name is a
      free string: the tests build them as `empty` and `lake`, but nothing
      stops a caller from naming one `bomb`. */
  datatype Field =
    | EmptyField(name: string, x: int, y: int)
    | LakeField(name: string, x: int, y: int)
    | PieceField(piece: Piece)

  /** The `name` attribute of any field. */
  function FieldName(f: Field): string {
    match f
    case PieceField(p) => RankName(p.name)
    case EmptyField(name, _, _) => name
    case LakeField(name, _, _) => name
  }

  // ---------------------------------------------------------------------
  // Comparison operators
  // ---------------------------------------------------------------------

  /** `Piece.__eq__`: pieces are equal when their rank names agree, and a
      piece never equals a field that is not a piece. */
  function Equals(p: Piece, other: Field): (r: bool)
    ensures r ==> other.PieceField?
  {
    match other
    case PieceField(q) => p.name == q.name
    case _ => false
  }

  /** `Piece.__lt__`: compares power only; a non-piece operand is a type error. */
  function Less(p: Piece, other: Field): (r: Result<bool>)
    ensures r.Err? <==> !other.PieceField?
    ensures r.Err? ==> r.error == TypeMismatch
    ensures r.Ok? ==> (r.value <==> p.power < other.piece.power)
  {
    match other
    case PieceField(q) => Ok(p.power < q.power)
    case _ => Err(TypeMismatch)
  }

  /** `>` as `functools.total_ordering` derives it from `__lt__` and
      `__eq__`: not less and not equal. Because the two operators look at
      different attributes, a piece is never greater than one of its own
      rank however weak, and two pieces with equal power but different
      names are each greater than the other. */
  function Greater(p: Piece, other: Field): (r: Result<bool>)
    ensures r.Err? <==> !other.PieceField?
    ensures r.Ok? ==>
      (r.value <==> p.name != other.piece.name && p.power >= other.piece.power)
  {
    match Less(p, other)
    case Err(e) => Err(e)
    case Ok(lt) => Ok(!lt && !Equals(p, other))
  }

  /** Piece equality is an equivalence relation on pieces, blind to power,
      colour, position and the seen flag. */
  lemma EqualsIsEquivalence(p: Piece, q: Piece, s: Piece)
    ensures Equals(p, PieceField(p))
    ensures Equals(p, PieceField(q)) == Equals(q, PieceField(p))
    ensures Equals(p, PieceField(q)) && Equals(q, PieceField(s)) ==> Equals(p, PieceField(s))
    ensures Equals(p, PieceField(q)) <==> p.name == q.name
  {
  }

  /** `<` is a strict order on pieces, and the derived `>` is its converse
      only between pieces of different ranks: between two pieces of one rank
      `>` never holds, whatever their powers. */
  lemma OrderingOfPieces(p: Piece, q: Piece, s: Piece)
    ensures Less(p, PieceField(p)) == Ok(false)
    ensures Less(p, PieceField(q)) == Ok(true) && Less(q, PieceField(s)) == Ok(true)
      ==> Less(p, PieceField(s)) == Ok(true)
    ensures p.name != q.name ==>
      (Greater(p, PieceField(q)) == Ok(true) <==> Less(p, PieceField(q)) == Ok(false))
    ensures p.name == q.name ==> Greater(p, PieceField(q)) == Ok(false)
  {
  }

  /** Equality and ordering disagree: a Marshal of power 10 equals a Marshal
      of power 11 and is also less than it, and a Miner and a Scout of equal
      power are each greater than the other. */
  lemma EqualityAndOrderingDisagree()
    ensures Equals(MakePiece(Marshal, 10), PieceField(MakePiece(Marshal, 11)))
    ensures Less(MakePiece(Marshal, 10), PieceField(MakePiece(Marshal, 11))) == Ok(true)
    ensures Greater(MakePiece(Miner, 3), PieceField(MakePiece(Scout, 3))) == Ok(true)
    ensures Greater(MakePiece(Scout, 3), PieceField(MakePiece(Miner, 3))) == Ok(true)
  {
  }

  // ---------------------------------------------------------------------
  // Combat
  // ---------------------------------------------------------------------

  /** `Piece.can_attack`: Bombs and Flags never attack. */
  function CanAttack(p: Piece): bool {
    p.name != Bomb && p.name != Flag
  }

  /** The two pairings that override the power comparison. They look only
      at the defender's name, so they fire against any field so named. */
  predicate SpecialWin(attacker: Rank, defender: string) {
    || (attacker == Miner && defender == RankName(Bomb))
    || (attacker == Spy && defender == RankName(Marshal))
  }

  /** `Piece.attack`: `Ok(Some(true))` when the attacker wins,
      `Ok(None)` on a draw, `Ok(Some(false))` when it loses, and
      `Err(InvalidOperation)` when the attacker is immobile. The two special
      pairings read only the defender's name, so they also win against a
      non-piece field bearing that name. Against any other non-piece field
      the equality test is false and the final `>` falls back on `__lt__`,
      which raises: `Err(TypeMismatch)`. */
  function Attack(a: Piece, d: Field): (r: Result<Option<bool>>)
    ensures r.Err? <==> !CanAttack(a) || (!d.PieceField? && !SpecialWin(a.name, FieldName(d)))
    ensures r.Err? ==> r.error == if CanAttack(a) then TypeMismatch else InvalidOperation
    ensures r == Ok(Some(true)) <==>
      && CanAttack(a)
      && (|| SpecialWin(a.name, FieldName(d))
          || (d.PieceField? && a.name != d.piece.name && a.power >= d.piece.power))
    ensures r == Ok(None) <==>
      && CanAttack(a) && d.PieceField?
      && !SpecialWin(a.name, FieldName(d)) && a.name == d.piece.name
    ensures r == Ok(Some(false)) <==>
      && CanAttack(a) && d.PieceField?
      && !SpecialWin(a.name, FieldName(d)) && a.name != d.piece.name && a.power < d.piece.power
  {
    if !CanAttack(a) then Err(InvalidOperation)
    else if a.name == Miner && FieldName(d) == RankName(Bomb) then Ok(Some(true))
    else if a.name == Spy && FieldName(d) == RankName(Marshal) then Ok(Some(true))
    else if Equals(a, d) then Ok(None)
    else
      match Greater(a, d)
      case Ok(g) => Ok(Some(g))
      case Err(e) => Err(e)
  }

  /** `can_attack` is exactly the condition under which `attack` does not
      raise, whatever piece defends. */
  lemma CanAttackIffAttackSucceeds(a: Piece)
    ensures CanAttack(a) <==> forall d: Piece :: Attack(a, PieceField(d)).Ok?
  {
    if !CanAttack(a) {
      assert !Attack(a, PieceField(MakePiece(Flag, 0))).Ok?;
    }
  }

  /** Combat ignores colour, position and the seen flag: only the two rank
      names and the two powers decide it. */
  lemma AttackDependsOnNameAndPowerOnly(a: Piece, d: Piece, a': Piece, d': Piece)
    requires a.name == a'.name && a.power == a'.power
    requires d.name == d'.name && d.power == d'.power
    ensures Attack(a, PieceField(d)) == Attack(a', PieceField(d'))
  {
  }

  /** The outcomes the piece tests expect. */
  lemma AttackExamples()
    ensures Attack(MakePiece(Marshal, 10), PieceField(MakePiece(Flag, 0))) == Ok(Some(true))
    ensures Attack(MakePiece(Miner, 6), PieceField(MakePiece(Bomb, 11))) == Ok(Some(true))
    ensures Attack(MakePiece(Scout, 2), PieceField(MakePiece(Marshal, 10))) == Ok(Some(false))
    ensures Attack(MakePiece(Marshal, 10), PieceField(MakePiece(Bomb, 11))) == Ok(Some(false))
    ensures Attack(MakePiece(Spy, 1), PieceField(MakePiece(Bomb, 11))) == Ok(Some(false))
    ensures Attack(MakePiece(Spy, 1), PieceField(MakePiece(Marshal, 10))) == Ok(Some(true))
    ensures Attack(MakePiece(Spy, 1), PieceField(MakePiece(Spy, 1))) == Ok(None)
    ensures Attack(MakePiece(Marshal, 10), PieceField(MakePiece(Marshal, 10))) == Ok(None)
    ensures Attack(MakePiece(Bomb, 0), PieceField(MakePiece(Miner, 10))) == Err(InvalidOperation)
    ensures Attack(MakePiece(Flag, 0), PieceField(MakePiece(Bomb, 10))) == Err(InvalidOperation)
    ensures Attack(MakePiece(Miner, 3), EmptyField("empty", 0, 0)) == Err(TypeMismatch)
    ensures Attack(MakePiece(Scout, 2), LakeField("lake", 2, 4)) == Err(TypeMismatch)
    ensures Attack(MakePiece(Miner, 3), EmptyField("bomb", 0, 0)) == Ok(Some(true))
  {
  }

  // ---------------------------------------------------------------------
  // Rendering
  // ---------------------------------------------------------------------

  /** The part of `Piece.__str__` that can fail: `self.colour.name.lower()`.
      A piece built without a colour holds `None` there, which has no
      `name`, so rendering it raises `AttributeError`. The rest of the text
      is not modelled. */
  function ColourLabel(p: Piece): (r: Result<string>)
    ensures r.Err? <==> p.colour.None?
    ensures r.Err? ==> r.error == AttributeMissing
    ensures r.Ok? ==> r.value in {"blue", "red"}
  {
    match p.colour
    case None => Err(AttributeMissing)
    case Some(Blue) => Ok("blue")
    case Some(Red) => Ok("red")
  }

  // ---------------------------------------------------------------------
  // Canonical powers and the catalogue
  // ---------------------------------------------------------------------

  /** The power the catalogue gives each rank. */
  function Power(name: Rank): int {
    match name
    case Bomb => 11
    case Marshal => 10
    case General => 9
    case Colonel => 8
    case Major => 7
    case Captain => 6
    case Lieutenant => 5
    case Sergeant => 4
    case Miner => 3
    case Scout => 2
    case Spy => 1
    case Flag => 0
  }

  /** A piece whose power is the one the catalogue gives its rank. */
  predicate Canonical(p: Piece) {
    p.power == Power(p.name)
  }

  /** Distinct ranks have distinct canonical powers. */
  lemma PowerInjective(r: Rank, s: Rank)
    ensures Power(r) == Power(s) ==> r == s
  {
  }

  /** Between canonical pieces combat is decided by rank alone: the special
      pairings win, equal ranks draw, and otherwise the higher-ranked piece
      wins. The equal-power-goes-to-the-attacker case cannot arise. */
  lemma CanonicalCombat(a: Piece, d: Piece)
    requires Canonical(a) && Canonical(d) && CanAttack(a)
    ensures Attack(a, PieceField(d)) == Ok(Some(true)) <==>
      SpecialWin(a.name, RankName(d.name)) || Power(a.name) > Power(d.name)
    ensures Attack(a, PieceField(d)) == Ok(None) <==> a.name == d.name
    ensures Attack(a, PieceField(d)) == Ok(Some(false)) <==>
      !SpecialWin(a.name, RankName(d.name)) && Power(a.name) < Power(d.name)
  {
    PowerInjective(a.name, d.name);
  }

  /** Between two canonical mobile pieces, swapping attacker and defender
      swaps winning and losing, except for the Spy and the Marshal, each of
      which wins when it attacks the other. */
  lemma CanonicalCombatAntisymmetric(a: Piece, d: Piece)
    requires Canonical(a) && Canonical(d) && CanAttack(a) && CanAttack(d)
    requires !(a.name == Spy && d.name == Marshal) && !(a.name == Marshal && d.name == Spy)
    ensures Attack(a, PieceField(d)) == Ok(Some(true)) <==> Attack(d, PieceField(a)) == Ok(Some(false))
    ensures Attack(a, PieceField(d)) == Ok(None) <==> Attack(d, PieceField(a)) == Ok(None)
  {
    CanonicalCombat(a, d);
    CanonicalCombat(d, a);
  }

  /** The Spy and the Marshal each win when they strike first. */
  lemma SpyAndMarshalBothWinAttacking(spy: Piece, marshal: Piece)
    requires spy.name == Spy && marshal.name == Marshal
    requires Canonical(spy) && Canonical(marshal)
    ensures Attack(spy, PieceField(marshal)) == Ok(Some(true))
    ensures Attack(marshal, PieceField(spy)) == Ok(Some(true))
  {
  }

  /** `n` copies of one piece. */
  function Copies(p: Piece, n: nat): (r: seq<Piece>)
    ensures |r| == n
    ensures forall i :: 0 <= i < n ==> r[i] == p
  {
    if n == 0 then [] else [p] + Copies(p, n - 1)
  }

  /** `PIECES`, in the order the source lists them. */
  const Catalogue: seq<Piece> :=
    Copies(MakePiece(Bomb, 11), 6)
    + Copies(MakePiece(Marshal, 10), 1)
    + Copies(MakePiece(General, 9), 1)
    + Copies(MakePiece(Colonel, 8), 2)
    + Copies(MakePiece(Major, 7), 3)
    + Copies(MakePiece(Captain, 6), 4)
    + Copies(MakePiece(Lieutenant, 5), 4)
    + Copies(MakePiece(Sergeant, 4), 4)
    + Copies(MakePiece(Miner, 3), 5)
    + Copies(MakePiece(Scout, 2), 8)
    + Copies(MakePiece(Spy, 1), 1)
    + Copies(MakePiece(Flag, 0), 1)

  /** How many pieces of each rank one side fields. */
  function RankCount(name: Rank): nat {
    match name
    case Bomb => 6
    case Marshal => 1
    case General => 1
    case Colonel => 2
    case Major => 3
    case Captain => 4
    case Lieutenant => 4
    case Sergeant => 4
    case Miner => 5
    case Scout => 8
    case Spy => 1
    case Flag => 1
  }

  /** The number of pieces of rank `name` in `s`. */
  function Tally(s: seq<Piece>, name: Rank): nat {
    if |s| == 0 then 0
    else (if s[0].name == name then 1 else 0) + Tally(s[1..], name)
  }

  lemma {:induction false} TallyAppend(a: seq<Piece>, b: seq<Piece>, name: Rank)
    ensures Tally(a + b, name) == Tally(a, name) + Tally(b, name)
    decreases |a|
  {
    if |a| == 0 {
      assert a + b == b;
    } else {
      assert (a + b)[1..] == a[1..] + b;
      TallyAppend(a[1..], b, name);
    }
  }

  lemma {:induction false} TallyCopies(p: Piece, n: nat, name: Rank)
    ensures Tally(Copies(p, n), name) == if p.name == name then n else 0
  {
    if n > 0 {
      assert Copies(p, n)[1..] == Copies(p, n - 1);
      TallyCopies(p, n - 1, name);
    }
  }

  /** The rank of the `i`-th group of `PIECES`: the source lists the ranks
      in the order of `Rank`. */
  function GroupRank(i: nat): Rank
    requires i < 12
  {
    match i
    case 0 => Bomb
    case 1 => Marshal
    case 2 => General
    case 3 => Colonel
    case 4 => Major
    case 5 => Captain
    case 6 => Lieutenant
    case 7 => Sergeant
    case 8 => Miner
    case 9 => Scout
    case 10 => Spy
    case _ => Flag
  }

  /** The position of a rank's group in `PIECES`. */
  function GroupIndex(name: Rank): nat {
    match name
    case Bomb => 0
    case Marshal => 1
    case General => 2
    case Colonel => 3
    case Major => 4
    case Captain => 5
    case Lieutenant => 6
    case Sergeant => 7
    case Miner => 8
    case Scout => 9
    case Spy => 10
    case Flag => 11
  }

  /** The `i`-th group: `RankCount` default-argument pieces of one rank, at
      that rank's power. */
  function Group(i: nat): seq<Piece>
    requires i < 12
  {
    Copies(MakePiece(GroupRank(i), Power(GroupRank(i))), RankCount(GroupRank(i)))
  }

  /** The first `n` groups of the catalogue. */
  function Groups(n: nat): seq<Piece>
    requires n <= 12
  {
    if n == 0 then [] else Groups(n - 1) + Group(n - 1)
  }

  /** `GroupRank` and `GroupIndex` are inverse. */
  lemma GroupIndexing()
    ensures forall i: nat :: i < 12 ==> GroupIndex(GroupRank(i)) == i
    ensures forall name: Rank :: GroupIndex(name) < 12 && GroupRank(GroupIndex(name)) == name
  {
  }

  /** The first four groups: the Bombs, the Marshal, the General and the
      Colonels. */
  lemma FirstGroups()
    ensures Groups(4) ==
      Copies(MakePiece(Bomb, 11), 6) + Copies(MakePiece(Marshal, 10), 1)
      + Copies(MakePiece(General, 9), 1) + Copies(MakePiece(Colonel, 8), 2)
  {
    assert Groups(1) == Copies(MakePiece(Bomb, 11), 6);
    assert Groups(2) == Groups(1) + Copies(MakePiece(Marshal, 10), 1);
    assert Groups(3) == Groups(2) + Copies(MakePiece(General, 9), 1);
  }

  /** The next four: Majors, Captains, Lieutenants and Sergeants. */
  lemma MiddleGroups()
    ensures Groups(8) ==
      Groups(4) + Copies(MakePiece(Major, 7), 3) + Copies(MakePiece(Captain, 6), 4)
      + Copies(MakePiece(Lieutenant, 5), 4) + Copies(MakePiece(Sergeant, 4), 4)
  {
    assert Groups(5) == Groups(4) + Copies(MakePiece(Major, 7), 3);
    assert Groups(6) == Groups(5) + Copies(MakePiece(Captain, 6), 4);
    assert Groups(7) == Groups(6) + Copies(MakePiece(Lieutenant, 5), 4);
  }

  /** The last four: Miners, Scouts, the Spy and the Flag. */
  lemma LastGroups()
    ensures Groups(12) ==
      Groups(8) + Copies(MakePiece(Miner, 3), 5) + Copies(MakePiece(Scout, 2), 8)
      + Copies(MakePiece(Spy, 1), 1) + Copies(MakePiece(Flag, 0), 1)
  {
    assert Groups(9) == Groups(8) + Copies(MakePiece(Miner, 3), 5);
    assert Groups(10) == Groups(9) + Copies(MakePiece(Scout, 2), 8);
    assert Groups(11) == Groups(10) + Copies(MakePiece(Spy, 1), 1);
  }

  /** The catalogue is its twelve groups, in order. */
  lemma CatalogueIsGroups()
    ensures Catalogue == Groups(12)
  {
    FirstGroups();
    MiddleGroups();
    LastGroups();
  }

  /** The first `n` groups hold `RankCount(name)` pieces of rank `name` when
      that rank's group is among them, and none otherwise. */
  lemma {:induction false} TallyGroups(n: nat, name: Rank)
    requires n <= 12
    ensures Tally(Groups(n), name) == if GroupIndex(name) < n then RankCount(name) else 0
  {
    if n > 0 {
      var rank := GroupRank(n - 1);
      TallyGroups(n - 1, name);
      TallyAppend(Groups(n - 1), Group(n - 1), name);
      TallyCopies(MakePiece(rank, Power(rank)), RankCount(rank), name);
      GroupIndexing();
    }
  }

  /** The catalogue has 40 pieces, with exactly `RankCount(r)` of each
      rank `r`. */
  lemma CatalogueComposition()
    ensures |Catalogue| == 40
    ensures forall name: Rank :: Tally(Catalogue, name) == RankCount(name)
  {
    CatalogueLength();
    forall name: Rank
      ensures Tally(Catalogue, name) == RankCount(name)
    {
      CatalogueTally(name);
    }
  }

  lemma CatalogueLength()
    ensures |Catalogue| == 40
  {
  }

  lemma CatalogueTally(name: Rank)
    ensures Tally(Catalogue, name) == RankCount(name)
  {
    calc {
      Tally(Catalogue, name);
      { CatalogueIsGroups(); }
      Tally(Groups(12), name);
      { TallyGroups(12, name); GroupIndexing(); }
      RankCount(name);
    }
  }

  /** A piece exactly as `PIECES` builds it: `Piece(name, power)` at its
      rank's power, every optional argument left at its default. */
  predicate Default(p: Piece) {
    p == MakePiece(p.name, Power(p.name))
  }

  lemma {:induction false} GroupsAreDefaults(n: nat)
    requires n <= 12
    ensures forall i :: 0 <= i < |Groups(n)| ==> Default(Groups(n)[i])
  {
    if n > 0 {
      GroupsAreDefaults(n - 1);
      var a, b := Groups(n - 1), Group(n - 1);
      forall i | 0 <= i < |a + b|
        ensures Default((a + b)[i])
      {
        if i >= |a| {
          assert (a + b)[i] == b[i - |a|];
        }
      }
    }
  }

  /** Every catalogue piece carries its rank's canonical power, so no two
      catalogue pieces of different ranks ever tie on power; and none has a
      colour, since nothing passes one. */
  lemma CatalogueEntriesAreDefaults()
    ensures forall i :: 0 <= i < |Catalogue| ==> Canonical(Catalogue[i])
    ensures forall i :: 0 <= i < |Catalogue| ==> Catalogue[i].colour.None?
  {
    CatalogueIsGroups();
    GroupsAreDefaults(12);
  }
}
