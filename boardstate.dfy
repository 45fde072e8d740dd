/**
 * The value the Board's rules act on: the snapshot of every piece in list
 * order and the turn history. Every rule is a function from a World to a
 * World; the Board class keeps its objects equal to such a World.
 *
 * This module holds the single-field writes the rules are built from, the
 * frame predicates they preserve, and the Board's queries that change
 * nothing: adjacency, the win condition and threat detection.
 */
module BoardState {
  import opened Wrappers
  import opened Pieces
  import opened Log
  import opened Squares
  import MovementValidator

  datatype World = World(pieces: seq<PieceData>, log: seq<Event>)

  // ---------------------------------------------------------------------
  // Writes of one field of one piece, and LogTurn

  function Put(w: World, i: nat, d: PieceData): World
    requires i < |w.pieces|
  {
    w.(pieces := w.pieces[i := d])
  }

  /** LogTurn: the message is appended to TurnHistory (printing is not modelled). */
  function Append(w: World, e: Event): World {
    w.(log := w.log + [e])
  }

  function SetHealth(w: World, i: nat, v: int): World
    requires i < |w.pieces|
  {
    Put(w, i, w.pieces[i].(health := v))
  }

  function SetAttack(w: World, i: nat, v: int): World
    requires i < |w.pieces|
  {
    Put(w, i, w.pieces[i].(attack := v))
  }

  function SetDefense(w: World, i: nat, v: int): World
    requires i < |w.pieces|
  {
    Put(w, i, w.pieces[i].(defense := v))
  }

  function SetSpeed(w: World, i: nat, v: int): World
    requires i < |w.pieces|
  {
    Put(w, i, w.pieces[i].(speed := v))
  }

  function SetEnergy(w: World, i: nat, v: int): World
    requires i < |w.pieces|
  {
    Put(w, i, w.pieces[i].(energy := v))
  }

  function SetDamageDealt(w: World, i: nat, v: int): World
    requires i < |w.pieces|
  {
    Put(w, i, w.pieces[i].(totalDamageDealt := v))
  }

  function SetKills(w: World, i: nat, v: int): World
    requires i < |w.pieces|
  {
    Put(w, i, w.pieces[i].(totalKills := v))
  }

  function SetLevel(w: World, i: nat, v: int): World
    requires i < |w.pieces|
  {
    Put(w, i, w.pieces[i].(level := v))
  }

  function SetExperience(w: World, i: nat, v: int): World
    requires i < |w.pieces|
  {
    Put(w, i, w.pieces[i].(experience := v))
  }

  function SetUnlocked(w: World, i: nat, v: bool): World
    requires i < |w.pieces|
  {
    Put(w, i, w.pieces[i].(ultimateUnlocked := v))
  }

  function SetCharge(w: World, i: nat, v: int): World
    requires i < |w.pieces|
  {
    Put(w, i, w.pieces[i].(ultimateCharge := v))
  }

  function SetModifier(w: World, i: nat, v: int): World
    requires i < |w.pieces|
  {
    Put(w, i, w.pieces[i].(energyCostModifier := v))
  }

  function SetPosition(w: World, i: nat, v: string): World
    requires i < |w.pieces|
  {
    Put(w, i, w.pieces[i].(position := v))
  }

  /** The ten assignments of EvolvePiece: the template's identity and stats. */
  function Become(w: World, i: nat, t: PieceData): World
    requires i < |w.pieces|
  {
    Put(w, i, w.pieces[i].(id := t.id, pieceType := t.pieceType, health := t.health,
                           attack := t.attack, defense := t.defense, speed := t.speed,
                           ability := t.ability, passive := t.passive, ultimate := t.ultimate,
                           pack := t.pack))
  }

  // ---------------------------------------------------------------------
  // Frames

  /** Every piece stands on one of the 64 squares. */
  predicate Placed(ps: seq<PieceData>) {
    forall k :: 0 <= k < |ps| ==> ValidLabel(ps[k].position)
  }

  /**
   * r is w after appending to the history and changing piece stats only: the
   * list keeps its length, every piece its Team and Position, and the old
   * history is a prefix of the new one.
   */
  predicate Keeps(w: World, r: World) {
    |r.pieces| == |w.pieces| && w.log <= r.log &&
    forall k :: 0 <= k < |w.pieces| ==>
      r.pieces[k].team == w.pieces[k].team && r.pieces[k].position == w.pieces[k].position
  }

  /** As Keeps, except that pieces may move between squares of the board. */
  predicate Moves(w: World, r: World) {
    |r.pieces| == |w.pieces| && w.log <= r.log &&
    (forall k :: 0 <= k < |w.pieces| ==> r.pieces[k].team == w.pieces[k].team) &&
    (Placed(w.pieces) ==> Placed(r.pieces))
  }

  lemma KeepsTransitive(w1: World, w2: World, w3: World)
    requires Keeps(w1, w2) && Keeps(w2, w3)
    ensures Keeps(w1, w3)
  {
  }

  lemma KeepsPlaced(w: World, r: World)
    requires Keeps(w, r)
    ensures Moves(w, r)
    ensures Placed(w.pieces) ==> Placed(r.pieces)
  {
  }

  lemma MovesTransitive(w1: World, w2: World, w3: World)
    requires Moves(w1, w2) && Moves(w2, w3)
    ensures Moves(w1, w3)
  {
  }

  // ---------------------------------------------------------------------
  // Adjacency

  function CharDistance(a: char, b: char): nat {
    if a as int >= b as int then a as int - b as int else b as int - a as int
  }

  /**
   * The test of IsAdjacent and IsAdjacentToPosition: the char codes of the
   * file and of the rank character differ by at most one.
   */
  predicate Adjacent(p1: string, p2: string)
    requires |p1| >= 2 && |p2| >= 2
  {
    CharDistance(p1[0], p2[0]) <= 1 && CharDistance(p1[1], p2[1]) <= 1
  }

  /**
   * IsAdjacentToPosition: false for an empty position; on two non-empty ones
   * it reads two characters of each (a one-character string throws in C#).
   */
  function IsAdjacentToPosition(position1: string, position2: string): (r: bool)
    requires position1 != [] && position2 != [] ==> |position1| >= 2 && |position2| >= 2
    ensures r <==> position1 != [] && position2 != [] && Adjacent(position1, position2)
  {
    if position1 == [] || position2 == [] then false
    else CharDistance(position1[0], position2[0]) <= 1 && CharDistance(position1[1], position2[1]) <= 1
  }

  lemma AdjacentReflexive(p: string)
    requires |p| >= 2
    ensures Adjacent(p, p)
  {
  }

  lemma AdjacentSymmetric(p1: string, p2: string)
    requires |p1| >= 2 && |p2| >= 2
    ensures Adjacent(p1, p2) <==> Adjacent(p2, p1)
  {
  }

  /** On the board's squares, adjacency is exactly the king's move geometry (the square itself included). */
  lemma AdjacentIsKingStep(p1: string, p2: string)
    requires ValidLabel(p1) && ValidLabel(p2)
    ensures Adjacent(p1, p2) <==>
              MovementValidator.IsKingMoveLegal(MovementValidator.MapCoordinates(p1).0, MovementValidator.MapCoordinates(p1).1,
                                                MovementValidator.MapCoordinates(p2).0, MovementValidator.MapCoordinates(p2).1)
  {
  }

  /** IsAdjacentToPosition never holds for an empty or null argument. */
  lemma EmptyIsNeverAdjacent(p: string)
    ensures !IsAdjacentToPosition(p, []) && !IsAdjacentToPosition([], p)
  {
  }

  // ---------------------------------------------------------------------
  // CheckWinCondition

  predicate LivingKing(ps: seq<PieceData>, team: string) {
    exists k :: 0 <= k < |ps| && ps[k].team == team && ps[k].pieceType == "King" && ps[k].health > 0
  }

  /** Pieces.Any(p => p.Team == team && p.Type == "King" && p.Health > 0). */
  function AnyLivingKing(ps: seq<PieceData>, team: string): (r: bool)
    ensures r <==> LivingKing(ps, team)
  {
    if ps == [] then false
    else
      var last := ps[|ps| - 1];
      var rest := AnyLivingKing(ps[..|ps| - 1], team);
      assert forall k :: 0 <= k < |ps| - 1 ==> ps[..|ps| - 1][k] == ps[k];
      rest || (last.team == team && last.pieceType == "King" && last.health > 0)
  }

  /** CheckWinCondition: whether the game is over and the winner message. */
  function CheckWinCondition(ps: seq<PieceData>): (r: (bool, string))
    ensures r.0 <==> !LivingKing(ps, "Player") || !LivingKing(ps, "AI")
    ensures r.1 == "AI Wins!" <==> !LivingKing(ps, "Player")
    ensures r.1 == "Player Wins!" <==> LivingKing(ps, "Player") && !LivingKing(ps, "AI")
    ensures r.1 == "" <==> !r.0
  {
    if !AnyLivingKing(ps, "Player") then (true, "AI Wins!")
    else if !AnyLivingKing(ps, "AI") then (true, "Player Wins!")
    else (false, "")
  }

  /** Moving pieces, or changing anything but Team, Type and Health, leaves the outcome alone. */
  lemma WinConditionFrame(ps: seq<PieceData>, qs: seq<PieceData>)
    requires |ps| == |qs|
    requires forall k :: 0 <= k < |ps| ==>
               qs[k].team == ps[k].team && qs[k].pieceType == ps[k].pieceType && qs[k].health == ps[k].health
    ensures CheckWinCondition(qs) == CheckWinCondition(ps)
  {
    assert LivingKing(qs, "Player") <==> LivingKing(ps, "Player") by {
      if LivingKing(ps, "Player") {
        var k :| 0 <= k < |ps| && ps[k].team == "Player" && ps[k].pieceType == "King" && ps[k].health > 0;
        assert qs[k].team == "Player";
      }
      if LivingKing(qs, "Player") {
        var k :| 0 <= k < |qs| && qs[k].team == "Player" && qs[k].pieceType == "King" && qs[k].health > 0;
        assert ps[k].team == "Player";
      }
    }
    assert LivingKing(qs, "AI") <==> LivingKing(ps, "AI") by {
      if LivingKing(ps, "AI") {
        var k :| 0 <= k < |ps| && ps[k].team == "AI" && ps[k].pieceType == "King" && ps[k].health > 0;
        assert qs[k].team == "AI";
      }
      if LivingKing(qs, "AI") {
        var k :| 0 <= k < |qs| && qs[k].team == "AI" && qs[k].pieceType == "King" && qs[k].health > 0;
        assert ps[k].team == "AI";
      }
    }
  }

  // ---------------------------------------------------------------------
  // IsTileUnderThreat

  predicate Threatens(ps: seq<PieceData>, k: nat, position: string, team: string)
    requires k < |ps| && Placed(ps) && ValidLabel(position)
  {
    ps[k].team != team && ps[k].health > 0 && MovementValidator.MoveLegal(ps[k], position, ps)
  }

  /** Some living piece of another team may move to the position. */
  predicate Threatened(ps: seq<PieceData>, position: string, team: string)
    requires Placed(ps) && ValidLabel(position)
  {
    exists k :: 0 <= k < |ps| && Threatens(ps, k, position, team)
  }

  /** Whether one of the first n pieces threatens the position. */
  function ThreatAmong(ps: seq<PieceData>, position: string, team: string, n: nat): (r: bool)
    requires Placed(ps) && ValidLabel(position) && n <= |ps|
    ensures r <==> exists k :: 0 <= k < n && Threatens(ps, k, position, team)
  {
    if n == 0 then false
    else ThreatAmong(ps, position, team, n - 1) || Threatens(ps, n - 1, position, team)
  }

  /** IsTileUnderThreat: Where(other team, alive).Any(IsMoveLegal to the position). */
  function IsTileUnderThreat(ps: seq<PieceData>, position: string, team: string): (r: bool)
    requires Placed(ps) && ValidLabel(position)
    ensures r <==> Threatened(ps, position, team)
  {
    ThreatAmong(ps, position, team, |ps|)
  }

  /** A team's own pieces and the dead never threaten it. */
  lemma ThreatNeedsLivingEnemy(ps: seq<PieceData>, position: string, team: string)
    requires Placed(ps) && ValidLabel(position)
    requires forall k :: 0 <= k < |ps| ==> ps[k].team == team || ps[k].health <= 0
    ensures !IsTileUnderThreat(ps, position, team)
  {
  }

  // ---------------------------------------------------------------------
  // Index lists the Board's LINQ queries select

  /** Indices, ascending, of the first n pieces that stand next to ps[i] and are of its team. */
  function AlliesAmong(ps: seq<PieceData>, i: nat, n: nat): (r: seq<nat>)
    requires Placed(ps) && i < |ps| && n <= |ps|
    ensures forall j :: 0 <= j < |r| ==> r[j] < n
    ensures forall j, k :: 0 <= j < k < |r| ==> r[j] < r[k]
    ensures forall k {:trigger k in r} :: 0 <= k < n ==>
              (k in r <==> ps[k].team == ps[i].team && Adjacent(ps[i].position, ps[k].position))
  {
    if n == 0 then []
    else
      var rest := AlliesAmong(ps, i, n - 1);
      if ps[n - 1].team == ps[i].team && Adjacent(ps[i].position, ps[n - 1].position) then rest + [n - 1] else rest
  }

  /** Pieces.Where(p => p.Team == piece.Team && IsAdjacent(piece, p)).ToList(), as indices. */
  function Allies(ps: seq<PieceData>, i: nat): (r: seq<nat>)
    requires Placed(ps) && i < |ps|
    ensures forall j :: 0 <= j < |r| ==> r[j] < |ps|
    ensures forall j, k :: 0 <= j < k < |r| ==> r[j] < r[k]
    ensures forall k {:trigger k in r} :: 0 <= k < |ps| ==>
              (k in r <==> ps[k].team == ps[i].team && Adjacent(ps[i].position, ps[k].position))
  {
    AlliesAmong(ps, i, |ps|)
  }

  /** The acting piece is always among its own allies. */
  lemma ActorIsOwnAlly(ps: seq<PieceData>, i: nat)
    requires Placed(ps) && i < |ps|
    ensures i in Allies(ps, i)
  {
  }

  /** Indices, ascending, of the first n pieces that stand next to ps[i] and are of another team. */
  function EnemiesAmong(ps: seq<PieceData>, i: nat, n: nat): (r: seq<nat>)
    requires Placed(ps) && i < |ps| && n <= |ps|
    ensures forall j :: 0 <= j < |r| ==> r[j] < n
    ensures forall j, k :: 0 <= j < k < |r| ==> r[j] < r[k]
    ensures forall k :: 0 <= k < n ==>
              (k in r <==> ps[k].team != ps[i].team && Adjacent(ps[i].position, ps[k].position))
  {
    if n == 0 then []
    else
      var rest := EnemiesAmong(ps, i, n - 1);
      if ps[n - 1].team != ps[i].team && Adjacent(ps[i].position, ps[n - 1].position) then rest + [n - 1] else rest
  }

  /** Pieces.Where(p => p.Team != attacker.Team && IsAdjacent(attacker, p)), as indices. */
  function Enemies(ps: seq<PieceData>, i: nat): (r: seq<nat>)
    requires Placed(ps) && i < |ps|
    ensures forall j :: 0 <= j < |r| ==> r[j] < |ps|
    ensures forall j, k :: 0 <= j < k < |r| ==> r[j] < r[k]
    ensures forall k :: 0 <= k < |ps| ==>
              (k in r <==> ps[k].team != ps[i].team && Adjacent(ps[i].position, ps[k].position))
  {
    EnemiesAmong(ps, i, |ps|)
  }

  /** FirstOrDefault / Find over the enemies: the lowest index, whatever its health. */
  function FirstEnemy(ps: seq<PieceData>, i: nat): (r: Option<nat>)
    requires Placed(ps) && i < |ps|
    ensures r.Some? ==> r.value < |ps| && ps[r.value].team != ps[i].team && Adjacent(ps[i].position, ps[r.value].position)
    ensures r.Some? ==> forall k :: 0 <= k < r.value ==> !(ps[k].team != ps[i].team && Adjacent(ps[i].position, ps[k].position))
    ensures r.None? <==> forall k :: 0 <= k < |ps| ==> !(ps[k].team != ps[i].team && Adjacent(ps[i].position, ps[k].position))
  {
    var e := Enemies(ps, i);
    if e == [] then None
    else
      assert e[0] in e;
      Some(e[0])
  }

  /** Enumerable.Take(n): the first n elements, none for n <= 0. */
  function Take<T>(s: seq<T>, n: int): (r: seq<T>)
    ensures |r| <= |s| && (n >= 0 ==> |r| <= n) && (n <= 0 ==> r == [])
    ensures n >= |s| ==> r == s
    ensures 0 <= n <= |s| ==> r == s[..n]
    ensures r == s[..|r|]
  {
    if n <= 0 then [] else if n >= |s| then s else s[..n]
  }
}
