/**
 * MovementValidator.cs: per-type move legality over 1-based coordinates
 * (row = rank 1..8, col = file index + 1) and the list of legal targets.
 * Occupancy of the destination is never consulted except by the pawn rule,
 * and any piece, alive or not, blocks a sliding move.
 */
module MovementValidator {
  import opened Wrappers
  import opened Text
  import opened Squares
  import opened Pieces

  // ---------------------------------------------------------------------
  // The position dictionary and the private coordinate-to-square codec

  /** The coordinates GeneratePositionMap stores for a square: (rank, file index + 1). */
  function MapCoordinates(square: string): (rc: (int, int))
    requires ValidLabel(square)
    ensures 1 <= rc.0 <= 8 && 1 <= rc.1 <= 8
  {
    (square[1] as int - '0' as int, square[0] as int - 'A' as int + 1)
  }

  /** The dictionary after inserting `keys` in order, each with its coordinates. */
  function MapOf(keys: seq<string>): map<string, (int, int)>
    requires forall k :: 0 <= k < |keys| ==> ValidLabel(keys[k])
  {
    if keys == [] then map[]
    else
      var last := keys[|keys| - 1];
      MapOf(keys[..|keys| - 1])[last := MapCoordinates(last)]
  }

  /** The dictionary's contents once GeneratePositionMap has finished. */
  function PositionMap(): map<string, (int, int)> {
    AllLabelsShape();
    MapOf(AllLabels())
  }

  predicate InBoard(row: int, col: int) {
    1 <= row <= 8 && 1 <= col <= 8
  }

  /**
   * The private CoordinatesToPosition: files[col - 1] followed by the row in
   * decimal. An index outside "ABCDEFGH" throws in C#; that is None here.
   */
  function CoordinatesToPosition(row: int, col: int): (r: Option<string>)
    ensures r.Some? <==> 1 <= col <= 8
    ensures InBoard(row, col) ==> r == Some(Label(col - 1, row))
  {
    if 1 <= col <= 8 then
      SingleDigitLabel(row, col);
      Some([Files[col - 1]] + IntToString(row))
    else None
  }

  lemma SingleDigitLabel(row: int, col: int)
    requires 1 <= col <= 8
    ensures InBoard(row, col) ==> [Files[col - 1]] + IntToString(row) == Label(col - 1, row)
  {
    if InBoard(row, col) {
      SingleDigitToString(row);
    }
  }

  /**
   * GeneratePositionMap: a Dictionary filled rank by rank. The dictionary is
   * modelled by its key enumeration order and its contents.
   */
  method GeneratePositionMap() returns (keys: seq<string>, m: map<string, (int, int)>)
    ensures keys == AllLabels()
    ensures m == PositionMap()
  {
    AllLabelsShape();
    keys, m := [], map[];
    var row := 1;
    while row <= 8
      invariant 1 <= row <= 9
      invariant keys == AllLabels()[..(row - 1) * 8]
      invariant m == MapOf(keys)
    {
      var col := 0;
      while col < 8
        invariant 0 <= col <= 8
        invariant keys == AllLabels()[..(row - 1) * 8 + col]
        invariant m == MapOf(keys)
      {
        SingleDigitToString(row);
        AllLabelsAt(col, row);
        InsertStep(keys, row, col);
        var pos := [Files[col]] + IntToString(row);
        assert pos == Label(col, row);
        if pos !in m {
          keys := keys + [pos];
        }
        m := m[pos := (row, col + 1)];
        col := col + 1;
      }
      row := row + 1;
    }
    assert keys == AllLabels()[..64];
  }

  /** One insertion of GeneratePositionMap: a new key, and the dictionary grows by it. */
  lemma InsertStep(keys: seq<string>, row: int, col: int)
    requires 1 <= row <= 8 && 0 <= col < 8
    requires keys == AllLabels()[..(row - 1) * 8 + col]
    ensures forall k :: 0 <= k < |keys| ==> ValidLabel(keys[k])
    ensures Label(col, row) !in MapOf(keys)
    ensures keys + [Label(col, row)] == AllLabels()[..(row - 1) * 8 + col + 1]
    ensures MapOf(keys + [Label(col, row)]) == MapOf(keys)[Label(col, row) := (row, col + 1)]
  {
    AllLabelsShape();
    AllLabelsAt(col, row);
    var k := (row - 1) * 8 + col;
    assert AllLabels()[..k + 1] == AllLabels()[..k] + [AllLabels()[k]];
    AllLabelsDistinct();
    assert Label(col, row) !in keys;
    MapOfKeys(keys);
    MapOfSnoc(keys, Label(col, row));
  }

  lemma {:induction false} MapOfKeys(keys: seq<string>)
    requires forall k :: 0 <= k < |keys| ==> ValidLabel(keys[k])
    ensures forall l :: l in MapOf(keys) <==> l in keys
  {
    if keys != [] {
      MapOfKeys(keys[..|keys| - 1]);
      assert keys == keys[..|keys| - 1] + [keys[|keys| - 1]];
    }
  }

  lemma MapOfSnoc(keys: seq<string>, x: string)
    requires forall k :: 0 <= k < |keys| ==> ValidLabel(keys[k])
    requires ValidLabel(x)
    ensures MapOf(keys + [x]) == MapOf(keys)[x := MapCoordinates(x)]
  {
    assert (keys + [x])[..|keys|] == keys;
  }

  /** Every key inserted maps to its own coordinates. */
  lemma {:induction false} MapOfValues(keys: seq<string>)
    requires forall k :: 0 <= k < |keys| ==> ValidLabel(keys[k])
    ensures forall l :: l in MapOf(keys) ==> ValidLabel(l) && MapOf(keys)[l] == MapCoordinates(l)
  {
    if keys != [] {
      MapOfValues(keys[..|keys| - 1]);
    }
  }

  /** Distinct keys give a dictionary of as many entries. */
  lemma {:induction false} MapOfSize(keys: seq<string>)
    requires forall k :: 0 <= k < |keys| ==> ValidLabel(keys[k])
    requires forall i, j :: 0 <= i < j < |keys| ==> keys[i] != keys[j]
    ensures |MapOf(keys)| == |keys|
  {
    if keys != [] {
      var init := keys[..|keys| - 1];
      var last := keys[|keys| - 1];
      MapOfSize(init);
      MapOfKeys(init);
      assert last !in init;
      assert last !in MapOf(init);
      assert MapOf(keys).Keys == MapOf(init).Keys + {last};
    }
  }

  /**
   * Inserting distinct labels yields a dictionary with exactly those keys,
   * each mapped to its coordinates.
   */
  lemma MapOfContents(keys: seq<string>)
    requires forall k :: 0 <= k < |keys| ==> ValidLabel(keys[k])
    requires forall i, j :: 0 <= i < j < |keys| ==> keys[i] != keys[j]
    ensures forall l :: l in MapOf(keys) <==> l in keys
    ensures forall l :: l in MapOf(keys) ==> ValidLabel(l) && MapOf(keys)[l] == MapCoordinates(l)
    ensures |MapOf(keys)| == |keys|
  {
    MapOfKeys(keys);
    MapOfValues(keys);
    MapOfSize(keys);
  }

  /** The dictionary has exactly the 64 labels as keys, each mapped to its coordinates. */
  lemma PositionMapShape()
    ensures forall l :: l in PositionMap() <==> ValidLabel(l)
    ensures forall l :: l in PositionMap() ==> PositionMap()[l] == MapCoordinates(l)
    ensures |PositionMap()| == 64
  {
    AllLabelsShape();
    AllLabelsDistinct();
    MapOfContents(AllLabels());
    forall l ensures l in PositionMap() <==> ValidLabel(l) {
      AllLabelsExactlyValid(l);
    }
  }

  /** The private codec inverts the dictionary: label to coordinates and back. */
  lemma LabelCoordinatesRoundTrip(l: string)
    requires ValidLabel(l)
    ensures InBoard(MapCoordinates(l).0, MapCoordinates(l).1)
    ensures CoordinatesToPosition(MapCoordinates(l).0, MapCoordinates(l).1) == Some(l)
  {
    var rc := MapCoordinates(l);
    assert Label(rc.1 - 1, rc.0) == l;
  }

  /** ... and coordinates to a dictionary key and back. */
  lemma CoordinatesLabelRoundTrip(row: int, col: int)
    requires InBoard(row, col)
    ensures CoordinatesToPosition(row, col).Some?
    ensures ValidLabel(CoordinatesToPosition(row, col).value)
    ensures MapCoordinates(CoordinatesToPosition(row, col).value) == (row, col)
  {
  }

  // ---------------------------------------------------------------------
  // Occupancy

  /** Index of the first piece of the list whose Position is `square`. */
  function FirstOn(square: string, all: seq<PieceData>): (r: Option<nat>)
    ensures r.Some? ==> r.value < |all| && all[r.value].position == square
    ensures r.Some? ==> forall j :: 0 <= j < r.value ==> all[j].position != square
    ensures r.None? <==> forall j :: 0 <= j < |all| ==> all[j].position != square
  {
    if all == [] then None
    else if all[0].position == square then Some(0)
    else match FirstOn(square, all[1..])
      case None => None
      case Some(k) => Some(k + 1)
  }

  /** PieceAtPosition: the first piece of the list standing on (row, col). */
  function PieceAtPosition(row: int, col: int, all: seq<PieceData>): (r: Option<nat>)
    requires 1 <= col <= 8
  {
    FirstOn(CoordinatesToPosition(row, col).value, all)
  }

  /** Some piece of the list stands on (row, col); only on-board squares are ever asked. */
  predicate Occupied(row: int, col: int, all: seq<PieceData>) {
    1 <= col <= 8 && PieceAtPosition(row, col, all).Some?
  }

  // ---------------------------------------------------------------------
  // Per-type geometry

  function Abs(x: int): nat {
    if x < 0 then -x else x
  }

  predicate IsKingMoveLegal(startRow: int, startCol: int, targetRow: int, targetCol: int) {
    Abs(startRow - targetRow) <= 1 && Abs(startCol - targetCol) <= 1
  }

  predicate IsKnightMoveLegal(startRow: int, startCol: int, targetRow: int, targetCol: int) {
    var rowDiff := Abs(startRow - targetRow);
    var colDiff := Abs(startCol - targetCol);
    (rowDiff == 2 && colDiff == 1) || (rowDiff == 1 && colDiff == 2)
  }

  /** x lies strictly between a and b. */
  predicate Between(x: int, a: int, b: int) {
    (a < x < b) || (b < x < a)
  }

  /**
   * A straight move: same row or same column, not the start square itself,
   * and no piece on any square strictly between.
   */
  predicate StraightLegal(startRow: int, startCol: int, targetRow: int, targetCol: int, all: seq<PieceData>)
    requires InBoard(startRow, startCol) && InBoard(targetRow, targetCol)
  {
    if startRow == targetRow then
      startCol != targetCol
      && forall c :: 1 <= c <= 8 && Between(c, startCol, targetCol) ==> !Occupied(startRow, c, all)
    else
      startCol == targetCol
      && forall r :: 1 <= r <= 8 && Between(r, startRow, targetRow) ==> !Occupied(r, startCol, all)
  }

  /** One step from a toward b, i steps out. */
  function Toward(a: int, b: int, i: int): int {
    if b > a then a + i else a - i
  }

  /**
   * A diagonal move: equal row and column distance and no piece on any
   * square strictly between; the start square itself qualifies.
   */
  predicate DiagonalLegal(startRow: int, startCol: int, targetRow: int, targetCol: int, all: seq<PieceData>)
    requires InBoard(startRow, startCol) && InBoard(targetRow, targetCol)
  {
    Abs(startRow - targetRow) == Abs(startCol - targetCol)
    && forall i :: 1 <= i < Abs(startRow - targetRow) ==>
         !Occupied(Toward(startRow, targetRow, i), Toward(startCol, targetCol, i), all)
  }

  /**
   * The straight ray scan. The C# loop never terminates normally when the
   * target is the start square (see StraightAsWritten); this version treats
   * that zero-length move as illegal.
   */
  method IsStraightMoveLegal(startRow: int, startCol: int, targetRow: int, targetCol: int, all: seq<PieceData>)
    returns (legal: bool)
    requires InBoard(startRow, startCol) && InBoard(targetRow, targetCol)
    ensures legal == StraightLegal(startRow, startCol, targetRow, targetCol, all)
  {
    if startRow == targetRow && startCol == targetCol {
      return false;
    }
    if startRow == targetRow {
      var step := if startCol < targetCol then 1 else -1;
      var col := startCol + step;
      while col != targetCol
        invariant step == 1 ==> startCol < col <= targetCol
        invariant step == -1 ==> targetCol <= col < startCol
        invariant forall c :: 1 <= c <= 8 && Between(c, startCol, col) ==> !Occupied(startRow, c, all)
        decreases if step == 1 then targetCol - col else col - targetCol
      {
        if PieceAtPosition(startRow, col, all).Some? {
          assert Between(col, startCol, targetCol) && Occupied(startRow, col, all);
          return false;
        }
        col := col + step;
      }
      return true;
    }
    if startCol == targetCol {
      var step := if startRow < targetRow then 1 else -1;
      var row := startRow + step;
      while row != targetRow
        invariant step == 1 ==> startRow < row <= targetRow
        invariant step == -1 ==> targetRow <= row < startRow
        invariant forall r :: 1 <= r <= 8 && Between(r, startRow, row) ==> !Occupied(r, startCol, all)
        decreases if step == 1 then targetRow - row else row - targetRow
      {
        if PieceAtPosition(row, startCol, all).Some? {
          assert Between(row, startRow, targetRow) && Occupied(row, startCol, all);
          return false;
        }
        row := row + step;
      }
      return true;
    }
    return false;
  }

  /** i unit steps from a toward b, as the diagonal scan computes them. */
  lemma StepTimes(a: int, b: int, step: int, i: int)
    requires step == if b > a then 1 else -1
    ensures a + i * step == Toward(a, b, i)
  {
    if b > a {
      assert i * step == i;
    } else {
      assert i * step == -i;
    }
  }

  /** Every square strictly inside a diagonal lies on the board. */
  lemma DiagonalStepInBoard(startRow: int, startCol: int, targetRow: int, targetCol: int, i: int)
    requires InBoard(startRow, startCol) && InBoard(targetRow, targetCol)
    requires Abs(startRow - targetRow) == Abs(startCol - targetCol)
    requires 1 <= i < Abs(startRow - targetRow)
    ensures InBoard(Toward(startRow, targetRow, i), Toward(startCol, targetCol, i))
  {
  }

  /** The diagonal scan, stepping i squares from the start toward the target. */
  method IsDiagonalMoveLegal(startRow: int, startCol: int, targetRow: int, targetCol: int, all: seq<PieceData>)
    returns (legal: bool)
    requires InBoard(startRow, startCol) && InBoard(targetRow, targetCol)
    ensures legal == DiagonalLegal(startRow, startCol, targetRow, targetCol, all)
  {
    var rowDiff := Abs(startRow - targetRow);
    var colDiff := Abs(startCol - targetCol);
    if rowDiff != colDiff {
      return false;
    }
    var rowStep: int := if targetRow > startRow then 1 else -1;
    var colStep: int := if targetCol > startCol then 1 else -1;
    var i := 1;
    while i < rowDiff
      invariant 1 <= i && (i <= rowDiff || i == 1)
      invariant forall j :: 1 <= j < i ==>
        !Occupied(Toward(startRow, targetRow, j), Toward(startCol, targetCol, j), all)
    {
      var blocked := DiagonalSquareTaken(startRow, startCol, targetRow, targetCol, rowStep, colStep, i, all);
      if blocked {
        return false;
      }
      i := i + 1;
    }
    return true;
  }

  /** The body of the diagonal scan: whether the i-th square toward the target holds a piece. */
  method DiagonalSquareTaken(startRow: int, startCol: int, targetRow: int, targetCol: int,
                             rowStep: int, colStep: int, i: int, all: seq<PieceData>) returns (taken: bool)
    requires InBoard(startRow, startCol) && InBoard(targetRow, targetCol)
    requires Abs(startRow - targetRow) == Abs(startCol - targetCol) && 1 <= i < Abs(startRow - targetRow)
    requires rowStep == (if targetRow > startRow then 1 else -1) && colStep == (if targetCol > startCol then 1 else -1)
    ensures taken == Occupied(Toward(startRow, targetRow, i), Toward(startCol, targetCol, i), all)
  {
    DiagonalStepInBoard(startRow, startCol, targetRow, targetCol, i);
    StepTimes(startRow, targetRow, rowStep, i);
    StepTimes(startCol, targetCol, colStep, i);
    taken := PieceAtPosition(startRow + i * rowStep, startCol + i * colStep, all).Some?;
  }

  method IsStraightOrDiagonalMoveLegal(startRow: int, startCol: int, targetRow: int, targetCol: int, all: seq<PieceData>)
    returns (legal: bool)
    requires InBoard(startRow, startCol) && InBoard(targetRow, targetCol)
    ensures legal == (StraightLegal(startRow, startCol, targetRow, targetCol, all)
                      || DiagonalLegal(startRow, startCol, targetRow, targetCol, all))
  {
    legal := IsStraightMoveLegal(startRow, startCol, targetRow, targetCol, all);
    if !legal {
      legal := IsDiagonalMoveLegal(startRow, startCol, targetRow, targetCol, all);
    }
  }

  /**
   * The pawn rule, moving up the board for "Player" and down for every other
   * team: one step forward onto an empty square; two steps from row 2
   * ("Player") or row 7 ("AI") over an empty square onto an empty square; one
   * step diagonally forward onto a square whose first piece is of another team.
   */
  predicate IsPawnMoveLegal(pawn: PieceData, startRow: int, startCol: int, targetRow: int, targetCol: int,
                            all: seq<PieceData>)
    requires InBoard(startRow, startCol) && InBoard(targetRow, targetCol)
  {
    var direction := if pawn.team == "Player" then 1 else -1;
    var rowDiff := targetRow - startRow;
    var colDiff := Abs(startCol - targetCol);
    if colDiff == 0 then
      (rowDiff == direction && !Occupied(targetRow, targetCol, all))
      || (((startRow == 2 && pawn.team == "Player") || (startRow == 7 && pawn.team == "AI"))
          && rowDiff == 2 * direction
          && !Occupied(startRow + direction, startCol, all)
          && !Occupied(targetRow, targetCol, all))
    else if colDiff == 1 && rowDiff == direction then
      var at := PieceAtPosition(targetRow, targetCol, all);
      at.Some? && all[at.value].team != pawn.team
    else
      false
  }

  // ---------------------------------------------------------------------
  // IsMoveLegal and GetLegalMoves

  /** IsMoveLegal: dispatch on Type; an unknown type moves nowhere. */
  predicate MoveLegal(piece: PieceData, target: string, all: seq<PieceData>)
    requires ValidLabel(piece.position) && ValidLabel(target)
  {
    var (sr, sc) := MapCoordinates(piece.position);
    var (tr, tc) := MapCoordinates(target);
    if piece.pieceType == "King" then IsKingMoveLegal(sr, sc, tr, tc)
    else if piece.pieceType == "Queen" then StraightLegal(sr, sc, tr, tc, all) || DiagonalLegal(sr, sc, tr, tc, all)
    else if piece.pieceType == "Rook" then StraightLegal(sr, sc, tr, tc, all)
    else if piece.pieceType == "Bishop" then DiagonalLegal(sr, sc, tr, tc, all)
    else if piece.pieceType == "Knight" then IsKnightMoveLegal(sr, sc, tr, tc)
    else if piece.pieceType == "Pawn" then IsPawnMoveLegal(piece, sr, sc, tr, tc, all)
    else false
  }

  method IsMoveLegal(piece: PieceData, targetPosition: string, allPieces: seq<PieceData>) returns (legal: bool)
    requires ValidLabel(piece.position) && ValidLabel(targetPosition)
    ensures legal == MoveLegal(piece, targetPosition, allPieces)
  {
    var (startRow, startCol) := MapCoordinates(piece.position);
    var (targetRow, targetCol) := MapCoordinates(targetPosition);
    match piece.pieceType
    case "King" => legal := IsKingMoveLegal(startRow, startCol, targetRow, targetCol);
    case "Queen" => legal := IsStraightOrDiagonalMoveLegal(startRow, startCol, targetRow, targetCol, allPieces);
    case "Rook" => legal := IsStraightMoveLegal(startRow, startCol, targetRow, targetCol, allPieces);
    case "Bishop" => legal := IsDiagonalMoveLegal(startRow, startCol, targetRow, targetCol, allPieces);
    case "Knight" => legal := IsKnightMoveLegal(startRow, startCol, targetRow, targetCol);
    case "Pawn" => legal := IsPawnMoveLegal(piece, startRow, startCol, targetRow, targetCol, allPieces);
    case _ => legal := false;
  }

  /** The labels of `labels` that the piece may move to, in order. */
  function LegalAmong(piece: PieceData, all: seq<PieceData>, labels: seq<string>): (r: seq<string>)
    requires ValidLabel(piece.position)
    requires forall k :: 0 <= k < |labels| ==> ValidLabel(labels[k])
    ensures forall k :: 0 <= k < |r| ==> ValidLabel(r[k])
    decreases |labels|
  {
    if labels == [] then []
    else
      var last := labels[|labels| - 1];
      LegalAmong(piece, all, labels[..|labels| - 1]) + (if MoveLegal(piece, last, all) then [last] else [])
  }

  /** GetLegalMoves: the board's labels, in dictionary order, that pass IsMoveLegal. */
  function LegalMoves(piece: PieceData, all: seq<PieceData>): (r: seq<string>)
    requires ValidLabel(piece.position)
    ensures forall k :: 0 <= k < |r| ==> ValidLabel(r[k])
  {
    AllLabelsShape();
    LegalAmong(piece, all, AllLabels())
  }

  method GetLegalMoves(piece: PieceData, allPieces: seq<PieceData>) returns (legalMoves: seq<string>)
    requires ValidLabel(piece.position)
    ensures legalMoves == LegalMoves(piece, allPieces)
  {
    var keys, positionMap := GeneratePositionMap();
    AllLabelsShape();
    legalMoves := [];
    var k := 0;
    while k < |keys|
      invariant 0 <= k <= |keys|
      invariant legalMoves == LegalAmong(piece, allPieces, keys[..k])
    {
      var legal := IsMoveLegal(piece, keys[k], allPieces);
      assert keys[..k + 1][..k] == keys[..k];
      if legal {
        legalMoves := legalMoves + [keys[k]];
      }
      k := k + 1;
    }
    assert keys[..k] == AllLabels();
  }

  // ---------------------------------------------------------------------
  // Properties of the corrected engine

  lemma {:induction false} LegalAmongMembership(piece: PieceData, all: seq<PieceData>, labels: seq<string>)
    requires ValidLabel(piece.position)
    requires forall k :: 0 <= k < |labels| ==> ValidLabel(labels[k])
    ensures forall t :: t in LegalAmong(piece, all, labels) <==> t in labels && MoveLegal(piece, t, all)
    decreases |labels|
  {
    if labels != [] {
      var init := labels[..|labels| - 1];
      LegalAmongMembership(piece, all, init);
      assert labels == init + [labels[|labels| - 1]];
    }
  }

  /** GetLegalMoves lists exactly the squares IsMoveLegal accepts. */
  lemma LegalMovesMembership(piece: PieceData, all: seq<PieceData>, t: string)
    requires ValidLabel(piece.position)
    ensures t in LegalMoves(piece, all) <==> ValidLabel(t) && MoveLegal(piece, t, all)
  {
    AllLabelsShape();
    LegalAmongMembership(piece, all, AllLabels());
    AllLabelsExactlyValid(t);
  }

  /** The result of LegalAmong is a subsequence of its input, in order. */
  lemma {:induction false} LegalAmongIncreasing(piece: PieceData, all: seq<PieceData>, labels: seq<string>)
    requires ValidLabel(piece.position)
    requires forall k :: 0 <= k < |labels| ==> ValidLabel(labels[k])
    requires forall i, j :: 0 <= i < j < |labels| ==> LabelIndex(labels[i]) < LabelIndex(labels[j])
    ensures forall i, j :: 0 <= i < j < |LegalAmong(piece, all, labels)| ==>
      LabelIndex(LegalAmong(piece, all, labels)[i]) < LabelIndex(LegalAmong(piece, all, labels)[j])
    decreases |labels|
  {
    if labels != [] {
      var init := labels[..|labels| - 1];
      var last := labels[|labels| - 1];
      LegalAmongIncreasing(piece, all, init);
      LegalAmongMembership(piece, all, init);
      var r := LegalAmong(piece, all, init);
      forall i | 0 <= i < |r| ensures LabelIndex(r[i]) < LabelIndex(last) {
        assert r[i] in init;
        var k :| 0 <= k < |init| && init[k] == r[i];
      }
      var full := LegalAmong(piece, all, labels);
      assert full == r + (if MoveLegal(piece, last, all) then [last] else []);
      forall i, j | 0 <= i < j < |full| ensures LabelIndex(full[i]) < LabelIndex(full[j]) {
        if j < |r| {
          assert full[i] == r[i] && full[j] == r[j];
        } else {
          assert full[i] == r[i] && full[j] == last;
        }
      }
    }
  }

  /**
   * GetLegalMoves lists its squares in dictionary order (A1, B1, ..., H8),
   * hence each at most once.
   */
  lemma LegalMovesOrdered(piece: PieceData, all: seq<PieceData>)
    requires ValidLabel(piece.position)
    ensures forall i, j :: 0 <= i < j < |LegalMoves(piece, all)| ==>
      LabelIndex(LegalMoves(piece, all)[i]) < LabelIndex(LegalMoves(piece, all)[j])
    ensures forall i, j :: 0 <= i < j < |LegalMoves(piece, all)| ==>
      LegalMoves(piece, all)[i] != LegalMoves(piece, all)[j]
  {
    AllLabelsShape();
    LegalAmongIncreasing(piece, all, AllLabels());
  }

  /** A piece of a type the dispatcher does not know has no moves. */
  lemma UnknownTypeHasNoMoves(piece: PieceData, all: seq<PieceData>)
    requires ValidLabel(piece.position)
    requires piece.pieceType !in ["King", "Queen", "Rook", "Bishop", "Knight", "Pawn"]
    ensures LegalMoves(piece, all) == []
  {
    if LegalMoves(piece, all) != [] {
      var t := LegalMoves(piece, all)[0];
      LegalMovesMembership(piece, all, t);
    }
  }

  /**
   * A king may go to any square at most one step away, its own square and
   * squares held by its own side included; occupancy plays no part.
   */
  lemma KingMoves(piece: PieceData, t: string, all: seq<PieceData>)
    requires ValidLabel(piece.position) && ValidLabel(t) && piece.pieceType == "King"
    ensures MoveLegal(piece, t, all) <==>
      Abs(MapCoordinates(piece.position).0 - MapCoordinates(t).0) <= 1
      && Abs(MapCoordinates(piece.position).1 - MapCoordinates(t).1) <= 1
    ensures MoveLegal(piece, piece.position, all)
  {
  }

  /** A knight's move is an L, indifferent to what stands anywhere. */
  lemma KnightMoves(piece: PieceData, t: string, all: seq<PieceData>, other: seq<PieceData>)
    requires ValidLabel(piece.position) && ValidLabel(t) && piece.pieceType == "Knight"
    ensures MoveLegal(piece, t, all) <==>
      var dr := Abs(MapCoordinates(piece.position).0 - MapCoordinates(t).0);
      var dc := Abs(MapCoordinates(piece.position).1 - MapCoordinates(t).1);
      (dr == 2 && dc == 1) || (dr == 1 && dc == 2)
    ensures MoveLegal(piece, t, all) == MoveLegal(piece, t, other)
  {
  }

  /**
   * A rook never lists its own square, moves only along a rank or a file,
   * and is stopped exactly by a piece - of either side, alive or not -
   * strictly between.
   */
  lemma RookMoves(piece: PieceData, t: string, all: seq<PieceData>)
    requires ValidLabel(piece.position) && ValidLabel(t) && piece.pieceType == "Rook"
    ensures MoveLegal(piece, t, all) ==> t != piece.position
    ensures MoveLegal(piece, t, all) ==> t[0] == piece.position[0] || t[1] == piece.position[1]
    ensures MoveLegal(piece, t, all) <==> StraightLegal(
      MapCoordinates(piece.position).0, MapCoordinates(piece.position).1, MapCoordinates(t).0, MapCoordinates(t).1, all)
  {
  }

  /** A bishop stays on its diagonals and may "move" to its own square. */
  lemma BishopMoves(piece: PieceData, t: string, all: seq<PieceData>)
    requires ValidLabel(piece.position) && ValidLabel(t) && piece.pieceType == "Bishop"
    ensures MoveLegal(piece, piece.position, all)
    ensures MoveLegal(piece, t, all) ==>
      Abs(MapCoordinates(piece.position).0 - MapCoordinates(t).0)
      == Abs(MapCoordinates(piece.position).1 - MapCoordinates(t).1)
  {
  }

  /** A queen moves exactly where a rook or a bishop on its square could. */
  lemma QueenIsRookOrBishop(piece: PieceData, t: string, all: seq<PieceData>)
    requires ValidLabel(piece.position) && ValidLabel(t) && piece.pieceType == "Queen"
    ensures MoveLegal(piece, t, all) <==>
      MoveLegal(piece.(pieceType := "Rook"), t, all) || MoveLegal(piece.(pieceType := "Bishop"), t, all)
  {
  }

  /**
   * A pawn advances one square onto an empty square, two squares from its
   * home rank over an empty square onto an empty square, or captures one
   * square diagonally forward a piece of another team; nothing else.
   */
  lemma PawnMoves(pawn: PieceData, t: string, all: seq<PieceData>)
    requires ValidLabel(pawn.position) && ValidLabel(t) && pawn.pieceType == "Pawn"
    ensures MoveLegal(pawn, t, all) <==>
      var (sr, sc) := MapCoordinates(pawn.position);
      var (tr, tc) := MapCoordinates(t);
      var direction := if pawn.team == "Player" then 1 else -1;
      (sc == tc && tr == sr + direction && !Occupied(tr, tc, all))
      || (sc == tc && tr == sr + 2 * direction && !Occupied(sr + direction, sc, all) && !Occupied(tr, tc, all)
          && (if pawn.team == "Player" then sr == 2 else sr == 7 && pawn.team == "AI"))
      || (Abs(sc - tc) == 1 && tr == sr + direction && Occupied(tr, tc, all)
          && all[PieceAtPosition(tr, tc, all).value].team != pawn.team)
  {
  }

  // ---------------------------------------------------------------------
  // The straight scan as written, where a zero-length move runs off the board

  /** What the C# code throws: a label missing from the dictionary, or files[-1] / files[8]. */
  datatype Fault = KeyNotFound(key: string) | IndexOutOfRange

  /**
   * The row loop of IsStraightMoveLegal as written: from column col, step by
   * step toward targetCol, stopping at the first occupied square. With
   * step = -1 and col below targetCol (the zero-length move) it never meets
   * targetCol and throws once the column leaves 1..8.
   */
  function RowScanAsWritten(row: int, col: int, step: int, targetCol: int, all: seq<PieceData>): Result<bool, Fault>
    requires step == 1 || step == -1
    requires step == 1 ==> col <= targetCol
    requires step == -1 ==> col >= 0
    decreases if step == 1 then targetCol - col else col
  {
    if col == targetCol then Ok(true)
    else if !(1 <= col <= 8) then Err(IndexOutOfRange)
    else if PieceAtPosition(row, col, all).Some? then Ok(false)
    else RowScanAsWritten(row, col + step, step, targetCol, all)
  }

  /** IsStraightMoveLegal as written; the column loop always reaches its target. */
  function StraightAsWritten(startRow: int, startCol: int, targetRow: int, targetCol: int, all: seq<PieceData>): Result<bool, Fault>
    requires InBoard(startRow, startCol) && InBoard(targetRow, targetCol)
  {
    if startRow == targetRow then
      var step := if startCol < targetCol then 1 else -1;
      RowScanAsWritten(startRow, startCol + step, step, targetCol, all)
    else
      Ok(StraightLegal(startRow, startCol, targetRow, targetCol, all))
  }

  /** IsMoveLegal as written, dictionary lookups included. */
  function MoveLegalAsWritten(piece: PieceData, target: string, all: seq<PieceData>): (r: Result<bool, Fault>)
    ensures !ValidLabel(piece.position) ==> r == Err(KeyNotFound(piece.position))
    ensures ValidLabel(piece.position) && !ValidLabel(target) ==> r == Err(KeyNotFound(target))
  {
    if !ValidLabel(piece.position) then Err(KeyNotFound(piece.position))
    else if !ValidLabel(target) then Err(KeyNotFound(target))
    else
      var (sr, sc) := MapCoordinates(piece.position);
      var (tr, tc) := MapCoordinates(target);
      if piece.pieceType == "Rook" then StraightAsWritten(sr, sc, tr, tc, all)
      else if piece.pieceType == "Queen" then
        match StraightAsWritten(sr, sc, tr, tc, all)
        case Err(e) => Err(e)
        case Ok(b) => Ok(b || DiagonalLegal(sr, sc, tr, tc, all))
      else Ok(MoveLegal(piece, target, all))
  }

  /** The GetLegalMoves loop as written: the first exception aborts it. */
  function LegalAmongAsWritten(piece: PieceData, all: seq<PieceData>, labels: seq<string>): Result<seq<string>, Fault>
    decreases |labels|
  {
    if labels == [] then Ok([])
    else
      var last := labels[|labels| - 1];
      match LegalAmongAsWritten(piece, all, labels[..|labels| - 1])
      case Err(e) => Err(e)
      case Ok(ms) =>
        match MoveLegalAsWritten(piece, last, all)
        case Err(e) => Err(e)
        case Ok(b) => Ok(ms + (if b then [last] else []))
  }

  function LegalMovesAsWritten(piece: PieceData, all: seq<PieceData>): Result<seq<string>, Fault> {
    LegalAmongAsWritten(piece, all, AllLabels())
  }

  /** No piece stands left of column col on the given row. */
  predicate ClearToTheLeft(row: int, col: int, all: seq<PieceData>) {
    forall c :: 1 <= c < col ==> !Occupied(row, c, all)
  }

  /** Scanning right: a blocker search over [col, targetCol). */
  lemma {:induction false} RowScanRight(row: int, col: int, targetCol: int, all: seq<PieceData>)
    requires 1 <= col <= targetCol <= 8
    ensures RowScanAsWritten(row, col, 1, targetCol, all)
      == Ok(forall c :: col <= c < targetCol ==> !Occupied(row, c, all))
    decreases targetCol - col
  {
    if col != targetCol {
      if PieceAtPosition(row, col, all).None? {
        RowScanRight(row, col + 1, targetCol, all);
      } else {
        assert Occupied(row, col, all);
      }
    }
  }

  /** Scanning left toward the target: a blocker search over (targetCol, col]. */
  lemma {:induction false} RowScanLeft(row: int, col: int, targetCol: int, all: seq<PieceData>)
    requires 1 <= targetCol <= col <= 8
    ensures RowScanAsWritten(row, col, -1, targetCol, all)
      == Ok(forall c :: targetCol < c <= col ==> !Occupied(row, c, all))
    decreases col
  {
    if col != targetCol {
      if PieceAtPosition(row, col, all).None? {
        RowScanLeft(row, col - 1, targetCol, all);
      } else {
        assert Occupied(row, col, all);
      }
    }
  }

  /** Scanning left away from the target: false at the first blocker, a crash past column 1. */
  lemma {:induction false} RowScanPast(row: int, col: int, targetCol: int, all: seq<PieceData>)
    requires 0 <= col < targetCol <= 8
    ensures RowScanAsWritten(row, col, -1, targetCol, all).Err? <==> ClearToTheLeft(row, col + 1, all)
    ensures RowScanAsWritten(row, col, -1, targetCol, all).Ok? ==> RowScanAsWritten(row, col, -1, targetCol, all) == Ok(false)
    decreases col
  {
    if col == 0 {
    } else if PieceAtPosition(row, col, all).Some? {
      assert Occupied(row, col, all);
    } else {
      RowScanPast(row, col - 1, targetCol, all);
    }
  }

  /**
   * The straight scan as written agrees with StraightLegal whenever it
   * returns, and throws exactly for the zero-length move with nothing to
   * the left of the start square on its rank.
   */
  lemma StraightAsWrittenAgrees(startRow: int, startCol: int, targetRow: int, targetCol: int, all: seq<PieceData>)
    requires InBoard(startRow, startCol) && InBoard(targetRow, targetCol)
    ensures StraightAsWritten(startRow, startCol, targetRow, targetCol, all).Ok? ==>
      StraightAsWritten(startRow, startCol, targetRow, targetCol, all).value
      == StraightLegal(startRow, startCol, targetRow, targetCol, all)
    ensures StraightAsWritten(startRow, startCol, targetRow, targetCol, all).Err? <==>
      startRow == targetRow && startCol == targetCol && ClearToTheLeft(startRow, startCol, all)
  {
    if startRow == targetRow {
      if startCol < targetCol {
        StraightRightAgrees(startRow, startCol, targetCol, all);
      } else if startCol > targetCol {
        StraightLeftAgrees(startRow, startCol, targetCol, all);
      } else {
        RowScanPast(startRow, startCol - 1, targetCol, all);
      }
    }
  }

  lemma StraightRightAgrees(row: int, startCol: int, targetCol: int, all: seq<PieceData>)
    requires InBoard(row, startCol) && InBoard(row, targetCol) && startCol < targetCol
    ensures StraightAsWritten(row, startCol, row, targetCol, all) == Ok(StraightLegal(row, startCol, row, targetCol, all))
  {
    RowScanRight(row, startCol + 1, targetCol, all);
    assert forall c :: 1 <= c <= 8 && Between(c, startCol, targetCol) <==> startCol + 1 <= c < targetCol;
  }

  lemma StraightLeftAgrees(row: int, startCol: int, targetCol: int, all: seq<PieceData>)
    requires InBoard(row, startCol) && InBoard(row, targetCol) && startCol > targetCol
    ensures StraightAsWritten(row, startCol, row, targetCol, all) == Ok(StraightLegal(row, startCol, row, targetCol, all))
  {
    RowScanLeft(row, startCol - 1, targetCol, all);
    assert forall c :: 1 <= c <= 8 && Between(c, startCol, targetCol) <==> targetCol < c <= startCol - 1;
  }

  /** IsMoveLegal as written throws only for a rook or queen asked about its own square. */
  lemma MoveLegalAsWrittenAgrees(piece: PieceData, target: string, all: seq<PieceData>)
    requires ValidLabel(piece.position) && ValidLabel(target)
    ensures MoveLegalAsWritten(piece, target, all).Ok? ==>
      MoveLegalAsWritten(piece, target, all).value == MoveLegal(piece, target, all)
    ensures MoveLegalAsWritten(piece, target, all).Err? <==>
      (piece.pieceType == "Rook" || piece.pieceType == "Queen") && target == piece.position
      && ClearToTheLeft(MapCoordinates(piece.position).0, MapCoordinates(piece.position).1, all)
  {
    var (sr, sc) := MapCoordinates(piece.position);
    var (tr, tc) := MapCoordinates(target);
    StraightAsWrittenAgrees(sr, sc, tr, tc, all);
    if sr == tr && sc == tc {
      LabelCoordinatesRoundTrip(piece.position);
      LabelCoordinatesRoundTrip(target);
    }
  }

  lemma {:induction false} LegalAmongAsWrittenAgrees(piece: PieceData, all: seq<PieceData>, labels: seq<string>)
    requires ValidLabel(piece.position)
    requires forall k :: 0 <= k < |labels| ==> ValidLabel(labels[k])
    ensures LegalAmongAsWritten(piece, all, labels).Ok? ==>
      LegalAmongAsWritten(piece, all, labels).value == LegalAmong(piece, all, labels)
    ensures LegalAmongAsWritten(piece, all, labels).Err? <==>
      exists k :: 0 <= k < |labels| && MoveLegalAsWritten(piece, labels[k], all).Err?
    decreases |labels|
  {
    if labels != [] {
      var init := labels[..|labels| - 1];
      var last := labels[|labels| - 1];
      LegalAmongAsWrittenAgrees(piece, all, init);
      MoveLegalAsWrittenAgrees(piece, last, all);
      SomeFailureSplits(piece, all, labels, init);
    }
  }

  /** Some label among `labels` fails as written iff one among all but the last does, or the last does. */
  lemma SomeFailureSplits(piece: PieceData, all: seq<PieceData>, labels: seq<string>, init: seq<string>)
    requires labels != [] && init == labels[..|labels| - 1]
    ensures (exists k :: 0 <= k < |labels| && MoveLegalAsWritten(piece, labels[k], all).Err?) <==>
            (exists k :: 0 <= k < |init| && MoveLegalAsWritten(piece, init[k], all).Err?) ||
            MoveLegalAsWritten(piece, labels[|labels| - 1], all).Err?
  {
    if exists k :: 0 <= k < |init| && MoveLegalAsWritten(piece, init[k], all).Err? {
      var k :| 0 <= k < |init| && MoveLegalAsWritten(piece, init[k], all).Err?;
      assert labels[k] == init[k];
    }
    if exists k :: 0 <= k < |labels| && MoveLegalAsWritten(piece, labels[k], all).Err? {
      var k :| 0 <= k < |labels| && MoveLegalAsWritten(piece, labels[k], all).Err?;
      if k < |init| {
        assert init[k] == labels[k];
      }
    }
  }

  /**
   * GetLegalMoves as written fails exactly for a rook or queen with no piece
   * to its left on its rank, and otherwise returns the corrected list.
   */
  lemma LegalMovesAsWrittenAgrees(piece: PieceData, all: seq<PieceData>)
    requires ValidLabel(piece.position)
    ensures LegalMovesAsWritten(piece, all).Ok? ==> LegalMovesAsWritten(piece, all).value == LegalMoves(piece, all)
    ensures LegalMovesAsWritten(piece, all).Err? <==>
      (piece.pieceType == "Rook" || piece.pieceType == "Queen")
      && ClearToTheLeft(MapCoordinates(piece.position).0, MapCoordinates(piece.position).1, all)
  {
    AllLabelsShape();
    LegalAmongAsWrittenAgrees(piece, all, AllLabels());
    AllLabelsExactlyValid(piece.position);
    var k := LabelIndex(piece.position);
    assert AllLabels()[k] == piece.position;
    MoveLegalAsWrittenAgrees(piece, piece.position, all);
    if LegalMovesAsWritten(piece, all).Err? {
      var j :| 0 <= j < 64 && MoveLegalAsWritten(piece, AllLabels()[j], all).Err?;
      MoveLegalAsWrittenAgrees(piece, AllLabels()[j], all);
    }
  }

  /**
   * Counterexample: GetLegalMoves as written throws for every rook or queen
   * on file A, such as the rook a starting layout puts on A1.
   */
  lemma RookOnFileACrashes(piece: PieceData, all: seq<PieceData>)
    requires ValidLabel(piece.position) && piece.position[0] == 'A'
    requires piece.pieceType == "Rook" || piece.pieceType == "Queen"
    ensures LegalMovesAsWritten(piece, all).Err?
  {
    LegalMovesAsWrittenAgrees(piece, all);
  }

  /** The corrected GetLegalMoves is total for the same piece. */
  lemma StartingRookHasMoveList(all: seq<PieceData>)
    ensures LegalMovesAsWritten(NewPieceData.(pieceType := "Rook", position := "A1"), all).Err?
    ensures "A1" !in LegalMoves(NewPieceData.(pieceType := "Rook", position := "A1"), all)
  {
    var rook := NewPieceData.(pieceType := "Rook", position := "A1");
    RookOnFileACrashes(rook, all);
    LegalMovesMembership(rook, all, "A1");
  }

  // ---------------------------------------------------------------------
  // Knight move counts on an empty board

  /** Strictly increasing board order, so each square at most once. */
  predicate InBoardOrder(s: seq<string>)
    requires forall k :: 0 <= k < |s| ==> ValidLabel(s[k])
  {
    forall j, k :: 0 <= j < k < |s| ==> LabelIndex(s[j]) < LabelIndex(s[k])
  }

  /** The head of a list in board order comes first among its members. */
  lemma FirstIsLeast(s: seq<string>, t: string)
    requires forall k :: 0 <= k < |s| ==> ValidLabel(s[k])
    requires InBoardOrder(s) && t in s
    ensures ValidLabel(t) && LabelIndex(s[0]) <= LabelIndex(t)
  {
    var k :| 0 <= k < |s| && s[k] == t;
    assert k == 0 || LabelIndex(s[0]) < LabelIndex(s[k]);
  }

  /** A member of the tail of one list in board order is in the tail of another with the same head and members. */
  lemma TailMember(s: seq<string>, e: seq<string>, t: string)
    requires forall k :: 0 <= k < |s| ==> ValidLabel(s[k])
    requires InBoardOrder(s) && s != [] && e != [] && s[0] == e[0]
    requires forall t :: t in s <==> t in e
    ensures t in s[1..] ==> t in e[1..]
  {
    if t in s[1..] {
      var k :| 0 <= k < |s[1..]| && s[1..][k] == t;
      assert LabelIndex(s[k + 1]) > LabelIndex(s[0]);
      assert t in e;
      var m :| 0 <= m < |e| && e[m] == t;
      assert m != 0 && e[1..][m - 1] == t;
    }
  }

  /** Two lists in board order with the same members are the same list. */
  lemma {:induction false} SameMembersSameList(s: seq<string>, e: seq<string>)
    requires forall k :: 0 <= k < |s| ==> ValidLabel(s[k])
    requires forall k :: 0 <= k < |e| ==> ValidLabel(e[k])
    requires InBoardOrder(s) && InBoardOrder(e)
    requires forall t :: t in s <==> t in e
    ensures s == e
    decreases |s| + |e|
  {
    assert s != [] ==> s[0] in e;
    assert e != [] ==> e[0] in s;
    if s != [] && e != [] {
      FirstIsLeast(e, s[0]);
      FirstIsLeast(s, e[0]);
      LabelChars(s[0]);
      LabelChars(e[0]);
      assert s[0] == e[0];
      forall t
        ensures t in s[1..] <==> t in e[1..]
      {
        TailMember(s, e, t);
        TailMember(e, s, t);
      }
      SameMembersSameList(s[1..], e[1..]);
      assert s == [s[0]] + s[1..] && e == [e[0]] + e[1..];
    }
  }

  /** A valid label is its two characters. */
  lemma LabelChars(t: string)
    requires ValidLabel(t)
    ensures t == [t[0], t[1]]
  {
  }

  /** A Knight of `new Piece()` placed on D4, alone on the board, has all eight moves, listed in board order. */
  lemma KnightInCentreHasEightMoves()
    ensures LegalMoves(NewPieceData.(pieceType := "Knight", position := "D4"), []) ==
            ["C2", "E2", "B3", "F3", "B5", "F5", "C6", "E6"]
  {
    var p := NewPieceData.(pieceType := "Knight", position := "D4");
    var e := ["C2", "E2", "B3", "F3", "B5", "F5", "C6", "E6"];
    var r := LegalMoves(p, []);
    LegalMovesOrdered(p, []);
    forall t
      ensures t in r <==> t in e
    {
      LegalMovesMembership(p, [], t);
      if ValidLabel(t) {
        KnightMoves(p, t, [], []);
        LabelChars(t);
      }
    }
    SameMembersSameList(r, e);
  }

  /** A Knight in the corner A1 has only B3 and C2. */
  lemma KnightInCornerHasTwoMoves()
    ensures LegalMoves(NewPieceData.(pieceType := "Knight", position := "A1"), []) == ["C2", "B3"]
  {
    var p := NewPieceData.(pieceType := "Knight", position := "A1");
    var e := ["C2", "B3"];
    var r := LegalMoves(p, []);
    LegalMovesOrdered(p, []);
    forall t
      ensures t in r <==> t in e
    {
      LegalMovesMembership(p, [], t);
      if ValidLabel(t) {
        KnightMoves(p, t, [], []);
        LabelChars(t);
      }
    }
    SameMembersSameList(r, e);
  }
}
