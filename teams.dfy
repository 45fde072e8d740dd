/**
 * TeamManager.cs: the manual team builder. For each of the 16 fixed slots the
 * player picks one of the templates of that slot's type; the pick is placed
 * by counting the already selected pieces of the same type. The console is
 * modelled as the sequence of numbers the player types (parsing the text is
 * not modelled); GetValidChoice skips every number outside the range.
 */
module TeamManager {
  import opened Wrappers
  import opened Pieces
  import opened Squares
  import MonsterDatabase

  /** The 16 slots: eight pawns, two knights, two bishops, two rooks, a queen and a king. */
  function PieceTypes(): seq<string> {
    ["Pawn", "Pawn", "Pawn", "Pawn", "Pawn", "Pawn", "Pawn", "Pawn",
     "Knight", "Knight", "Bishop", "Bishop", "Rook", "Rook", "Queen", "King"]
  }

  /** The type of slot k, by ranges. */
  function SlotType(k: nat): string {
    if k < 8 then "Pawn" else if k < 10 then "Knight" else if k < 12 then "Bishop"
    else if k < 14 then "Rook" else if k == 14 then "Queen" else "King"
  }

  lemma PieceTypeAt(k: nat)
    requires k < 16
    ensures PieceTypes()[k] == SlotType(k)
  {
    PieceTypesBySlot();
  }

  lemma PieceTypesBySlot()
    ensures |PieceTypes()| == 16
    ensures forall k :: 0 <= k < 16 ==> PieceTypes()[k] == SlotType(k)
  {
  }

  /**
   * existingPieces.Count(p => p.Type == pieceType). It has the shape of
   * BoardRules.PackCount but counts a different field (Type, not Pack) for a
   * different caller (the starting-position layout), so each is kept beside
   * the code it models.
   */
  function CountOfType(ps: seq<PieceData>, pieceType: string): (n: nat)
    ensures n <= |ps|
  {
    if ps == [] then 0
    else CountOfType(ps[..|ps| - 1], pieceType) + (if ps[|ps| - 1].pieceType == pieceType then 1 else 0)
  }

  /** The count-based placement: the database layout at index "pieces of this type so far". */
  function AssignStartingPosition(existing: seq<PieceData>, piece: PieceData, team: string): string
    requires |existing| <= MonsterDatabase.MaxCount
  {
    MonsterDatabase.AssignStartingPosition(piece.pieceType, team, CountOfType(existing, piece.pieceType))
  }

  /** PieceTemplates.Values.Where(p => p.Type == pieceType), in table order. */
  function OfType(templates: seq<(string, PieceData)>, pieceType: string): (r: seq<PieceData>)
    ensures forall k :: 0 <= k < |r| ==> r[k].pieceType == pieceType
    ensures |r| == 0 <==> forall j :: 0 <= j < |templates| ==> templates[j].1.pieceType != pieceType
  {
    if templates == [] then []
    else (if templates[0].1.pieceType == pieceType then [templates[0].1] else []) + OfType(templates[1..], pieceType)
  }

  /**
   * GetValidChoice(min, max) over the numbers typed: the first one within
   * min..max and how many numbers were read, or None when the input runs
   * out first (the C# loop then keeps waiting).
   */
  function GetValidChoice(inputs: seq<int>, min: int, max: int): (r: Option<(int, nat)>)
    ensures r.Some? ==> min <= r.value.0 <= max
    ensures r.Some? ==> 1 <= r.value.1 <= |inputs| && inputs[r.value.1 - 1] == r.value.0
    ensures r.Some? ==> forall j :: 0 <= j < r.value.1 - 1 ==> !(min <= inputs[j] <= max)
    ensures r.None? <==> forall j :: 0 <= j < |inputs| ==> !(min <= inputs[j] <= max)
  {
    if inputs == [] then None
    else if min <= inputs[0] <= max then Some((inputs[0], 1))
    else match GetValidChoice(inputs[1..], min, max)
      case None => None
      case Some((c, used)) => Some((c, used + 1))
  }

  /** One slot: read a valid choice among the templates of the slot's type and place the copy. */
  function SelectStep(db: MonsterDatabase.Catalog, team: string, inputs: seq<int>,
                      selected: seq<PieceData>, used: nat, slot: nat): (r: Result<(seq<PieceData>, nat), string>)
    requires slot < 16 && |selected| == slot && used <= |inputs|
    ensures r.Ok? ==> |r.value.0| == slot + 1 && used < r.value.1 <= |inputs|
    ensures r.Ok? ==> r.value.0[..slot] == selected
  {
    var available := OfType(db.templates, SlotType(slot));
    var answer := GetValidChoice(inputs[used..], 1, |available|);
    if answer.None? then Err(SlotType(slot))
    else
      var piece := available[answer.value.0 - 1].(team := team);
      Ok((selected + [piece.(position := AssignStartingPosition(selected, piece, team))], used + answer.value.1))
  }

  /** The pieces of the first n slots and the number of inputs read, or the type whose slot never got a choice. */
  function Selection(db: MonsterDatabase.Catalog, team: string, inputs: seq<int>, n: nat)
    : (r: Result<(seq<PieceData>, nat), string>)
    requires n <= 16
    ensures r.Ok? ==> |r.value.0| == n && r.value.1 <= |inputs|
  {
    if n == 0 then Ok(([], 0))
    else
      var prev := Selection(db, team, inputs, n - 1);
      if prev.Err? then prev else SelectStep(db, team, inputs, prev.value.0, prev.value.1, n - 1)
  }

  function CreatedTeam(db: MonsterDatabase.Catalog, team: string, inputs: seq<int>): Result<seq<PieceData>, string> {
    var r := Selection(db, team, inputs, 16);
    if r.Err? then Err(r.error) else Ok(r.value.0)
  }

  method PlayerCreateTeam(db: MonsterDatabase.Catalog, team: string, inputs: seq<int>)
    returns (r: Result<seq<PieceData>, string>)
    ensures r == CreatedTeam(db, team, inputs)
  {
    var selectedPieces := [];
    var used := 0;
    var pieceTypes := PieceTypes();
    var s := 0;
    while s < |pieceTypes|
      invariant 0 <= s <= 16
      invariant Selection(db, team, inputs, s) == Ok((selectedPieces, used))
    {
      SelectionNext(db, team, inputs, s);
      PieceTypeAt(s);
      var step := SelectPiece(db, team, inputs, selectedPieces, used, s, pieceTypes[s]);
      if step.Err? {
        SelectionErrSticks(db, team, inputs, s + 1, 16);
        return Err(step.error);
      }
      selectedPieces, used := step.value.0, step.value.1;
      s := s + 1;
    }
    return Ok(selectedPieces);
  }

  /** The body of the slot loop: list the templates of the type, read a choice, place the copy. */
  method SelectPiece(db: MonsterDatabase.Catalog, team: string, inputs: seq<int>,
                     selectedPieces: seq<PieceData>, used: nat, s: nat, pieceType: string)
    returns (r: Result<(seq<PieceData>, nat), string>)
    requires s < 16 && |selectedPieces| == s && used <= |inputs| && pieceType == SlotType(s)
    ensures r == SelectStep(db, team, inputs, selectedPieces, used, s)
  {
    var availablePieces := OfType(db.templates, pieceType);
    var answer := GetValidChoice(inputs[used..], 1, |availablePieces|);
    if answer.None? {
      return Err(pieceType);
    }
    var choice := answer.value.0 - 1;
    var selectedPiece := availablePieces[choice];
    selectedPiece := selectedPiece.(team := team);
    ghost var chosen := selectedPiece;
    selectedPiece := selectedPiece.(position := AssignStartingPosition(selectedPieces, selectedPiece, team));
    StepIs(db, team, inputs, selectedPieces, used, s, answer.value, chosen);
    return Ok((selectedPieces + [selectedPiece], used + answer.value.1));
  }

  lemma SelectionNext(db: MonsterDatabase.Catalog, team: string, inputs: seq<int>, n: nat)
    requires n < 16 && Selection(db, team, inputs, n).Ok?
    ensures var prev := Selection(db, team, inputs, n).value;
            Selection(db, team, inputs, n + 1) == SelectStep(db, team, inputs, prev.0, prev.1, n)
  {
  }

  /** Unfolds one successful step, naming its choice and copy. */
  lemma StepIs(db: MonsterDatabase.Catalog, team: string, inputs: seq<int>,
               selected: seq<PieceData>, used: nat, slot: nat, answer: (int, nat), piece: PieceData)
    requires slot < 16 && |selected| == slot && used <= |inputs|
    requires GetValidChoice(inputs[used..], 1, |OfType(db.templates, SlotType(slot))|) == Some(answer)
    requires piece == OfType(db.templates, SlotType(slot))[answer.0 - 1].(team := team)
    ensures SelectStep(db, team, inputs, selected, used, slot)
            == Ok((selected + [piece.(position := AssignStartingPosition(selected, piece, team))], used + answer.1))
  {
  }

  lemma {:induction false} SelectionErrSticks(db: MonsterDatabase.Catalog, team: string, inputs: seq<int>, n: nat, m: nat)
    requires n <= m <= 16
    requires Selection(db, team, inputs, n).Err?
    ensures Selection(db, team, inputs, m) == Selection(db, team, inputs, n)
    decreases m - n
  {
    if n < m {
      SelectionErrSticks(db, team, inputs, n + 1, m);
    }
  }

  /** Slot k is the SlotIndex(k)-th slot of its type. */
  function SlotIndex(k: nat): nat {
    if k < 8 then k else if k < 10 then k - 8 else if k < 12 then k - 10 else if k < 14 then k - 12 else 0
  }

  /** The number of slots before n with the given type. */
  function Tally(pieceType: string, n: nat): nat {
    if n == 0 then 0 else Tally(pieceType, n - 1) + (if SlotType(n - 1) == pieceType then 1 else 0)
  }

  /** Across slots of other types the tally does not move; across slots of the type it counts them. */
  lemma {:induction false} TallySpan(pieceType: string, lo: nat, hi: nat, same: bool)
    requires lo <= hi
    requires forall j :: lo <= j < hi ==> (SlotType(j) == pieceType) == same
    ensures Tally(pieceType, hi) == Tally(pieceType, lo) + (if same then hi - lo else 0)
    decreases hi - lo
  {
    if lo < hi {
      TallySpan(pieceType, lo, hi - 1, same);
    }
  }

  lemma TallyIsSlotIndex(k: nat)
    requires k < 16
    ensures Tally(SlotType(k), k) == SlotIndex(k)
  {
    var t := SlotType(k);
    if k < 8 {
      TallySpan(t, 0, k, true);
    } else if k < 10 {
      TallySpan(t, 0, 8, false);
      TallySpan(t, 8, k, true);
    } else if k < 12 {
      TallySpan(t, 0, 10, false);
      TallySpan(t, 10, k, true);
    } else if k < 14 {
      TallySpan(t, 0, 12, false);
      TallySpan(t, 12, k, true);
    } else {
      TallySpan(t, 0, k, false);
    }
  }

  /** The full tallies: 8, 2, 2, 2, 1, 1. */
  lemma TallyTotals()
    ensures Tally("Pawn", 16) == 8 && Tally("Knight", 16) == 2 && Tally("Bishop", 16) == 2
    ensures Tally("Rook", 16) == 2 && Tally("Queen", 16) == 1 && Tally("King", 16) == 1
  {
    TallySpan("Pawn", 0, 8, true);
    TallySpan("Pawn", 8, 16, false);
    TallySpan("Knight", 0, 8, false);
    TallySpan("Knight", 8, 10, true);
    TallySpan("Knight", 10, 16, false);
    TallySpan("Bishop", 0, 10, false);
    TallySpan("Bishop", 10, 12, true);
    TallySpan("Bishop", 12, 16, false);
    TallySpan("Rook", 0, 12, false);
    TallySpan("Rook", 12, 14, true);
    TallySpan("Rook", 14, 16, false);
    TallySpan("Queen", 0, 14, false);
    TallySpan("Queen", 14, 15, true);
    TallySpan("Queen", 15, 16, false);
    TallySpan("King", 0, 15, false);
    TallySpan("King", 15, 16, true);
  }

  /** Counting the selected pieces of a type is counting the earlier slots of that type. */
  lemma {:induction false} CountIsTally(ps: seq<PieceData>, pieceType: string)
    requires |ps| <= 16
    requires forall k :: 0 <= k < |ps| ==> ps[k].pieceType == SlotType(k)
    ensures CountOfType(ps, pieceType) == Tally(pieceType, |ps|)
    decreases |ps|
  {
    if ps != [] {
      CountIsTally(ps[..|ps| - 1], pieceType);
    }
  }

  /** The square of slot k for a team. */
  function SlotSquare(team: string, k: nat): string
    requires k < 16
  {
    MonsterDatabase.AssignStartingPosition(SlotType(k), team, SlotIndex(k))
  }

  /**
   * A completed selection: slot k holds a template of the slot's type with
   * Team = team, on the layout square of its slot.
   */
  lemma {:induction false} SelectionLayout(db: MonsterDatabase.Catalog, team: string, inputs: seq<int>, n: nat)
    requires n <= 16
    requires Selection(db, team, inputs, n).Ok?
    ensures var ps := Selection(db, team, inputs, n).value.0;
            forall k :: 0 <= k < n ==>
              ps[k].pieceType == SlotType(k) && ps[k].team == team && ps[k].position == SlotSquare(team, k)
  {
    if n > 0 {
      PieceTypesBySlot();
      SelectionLayout(db, team, inputs, n - 1);
      var prev := Selection(db, team, inputs, n - 1).value;
      StepLayout(db, team, inputs, prev.0, prev.1, n - 1);
    }
  }

  lemma StepLayout(db: MonsterDatabase.Catalog, team: string, inputs: seq<int>,
                   selected: seq<PieceData>, used: nat, slot: nat)
    requires slot < 16 && |selected| == slot && used <= |inputs|
    requires forall k :: 0 <= k < slot ==>
               selected[k].pieceType == SlotType(k) && selected[k].team == team && selected[k].position == SlotSquare(team, k)
    requires SelectStep(db, team, inputs, selected, used, slot).Ok?
    ensures var ps := SelectStep(db, team, inputs, selected, used, slot).value.0;
            forall k :: 0 <= k <= slot ==>
              ps[k].pieceType == SlotType(k) && ps[k].team == team && ps[k].position == SlotSquare(team, k)
  {
    var available := OfType(db.templates, SlotType(slot));
    var answer := GetValidChoice(inputs[used..], 1, |available|);
    var piece := available[answer.value.0 - 1].(team := team);
    SlotCountIsIndex(selected, slot);
    assert AssignStartingPosition(selected, piece, team) == SlotSquare(team, slot);
  }

  /** Before slot k, a selection in slot order holds SlotIndex(k) pieces of slot k's type. */
  lemma SlotCountIsIndex(selected: seq<PieceData>, slot: nat)
    requires slot < 16 && |selected| == slot
    requires forall k :: 0 <= k < slot ==> selected[k].pieceType == SlotType(k)
    ensures CountOfType(selected, SlotType(slot)) == SlotIndex(slot)
  {
    CountIsTally(selected, SlotType(slot));
    TallyIsSlotIndex(slot);
  }

  /** The Player's squares: pawns on A2..H2, then B1, G1, C1, F1, A1, H1, D1, E1. */
  function PlayerSquares(): seq<string> {
    ["A2", "B2", "C2", "D2", "E2", "F2", "G2", "H2", "B1", "G1", "C1", "F1", "A1", "H1", "D1", "E1"]
  }

  lemma PlayerSlotSquares()
    ensures forall k :: 0 <= k < 16 ==> SlotSquare("Player", k) == PlayerSquares()[k]
    ensures forall a, b :: 0 <= a < b < 16 ==> PlayerSquares()[a] != PlayerSquares()[b]
  {
    forall k | 0 <= k < 16
      ensures SlotSquare("Player", k) == PlayerSquares()[k]
    {
      if k < 8 {
        assert SlotSquare("Player", k) == [(65 + k) as char] + "2";
      }
    }
    PlayerSquaresDistinct();
  }

  lemma PlayerSquaresDistinct()
    ensures forall a, b :: 0 <= a < b < 16 ==> PlayerSquares()[a] != PlayerSquares()[b]
  {
  }

  /**
   * A created team has 16 pieces of the slot types with Team = team; for the
   * Player they stand on the 16 distinct squares of PlayerSquares().
   */
  lemma CreatedTeamLayout(db: MonsterDatabase.Catalog, team: string, inputs: seq<int>)
    requires CreatedTeam(db, team, inputs).Ok?
    ensures var ps := CreatedTeam(db, team, inputs).value;
            |ps| == 16 &&
            (forall k :: 0 <= k < 16 ==> ps[k].pieceType == SlotType(k) && ps[k].team == team) &&
            (team == "Player" ==> forall k :: 0 <= k < 16 ==> ps[k].position == PlayerSquares()[k])
  {
    SelectionLayout(db, team, inputs, 16);
    PlayerSlotSquares();
  }

  /** The type counts of a created team: 8 pawns, 2 knights, 2 bishops, 2 rooks, 1 queen, 1 king. */
  lemma CreatedTeamCounts(db: MonsterDatabase.Catalog, team: string, inputs: seq<int>)
    requires CreatedTeam(db, team, inputs).Ok?
    ensures var ps := CreatedTeam(db, team, inputs).value;
            CountOfType(ps, "Pawn") == 8 && CountOfType(ps, "Knight") == 2 && CountOfType(ps, "Bishop") == 2 &&
            CountOfType(ps, "Rook") == 2 && CountOfType(ps, "Queen") == 1 && CountOfType(ps, "King") == 1
  {
    var ps := CreatedTeam(db, team, inputs).value;
    CreatedTeamLayout(db, team, inputs);
    CountIsTally(ps, "Pawn");
    CountIsTally(ps, "Knight");
    CountIsTally(ps, "Bishop");
    CountIsTally(ps, "Rook");
    CountIsTally(ps, "Queen");
    CountIsTally(ps, "King");
    TallyTotals();
  }

  /** The shipped catalogue has no King template, so no input ever completes a team. */
  lemma ShippedTeamNeverCompletes(team: string, inputs: seq<int>)
    ensures CreatedTeam(MonsterDatabase.Shipped(), team, inputs).Err?
  {
    var db := MonsterDatabase.Shipped();
    MonsterDatabase.ShippedHasNoKing();
    assert |OfType(db.templates, "King")| == 0;
    var prev := Selection(db, team, inputs, 15);
    if prev.Err? {
      SelectionErrSticks(db, team, inputs, 15, 16);
    } else {
      assert SelectStep(db, team, inputs, prev.value.0, prev.value.1, 15).Err?;
    }
  }
}
