/**
 * AIPersonalityManager.EvaluateMoveBonus: a bonus for moving `piece` to
 * `move`, chosen by the personality type. It only reads the board. The
 * personality itself (loaded from disk or drawn at random) is a parameter.
 */
module Personality {
  import opened Wrappers
  import opened Pieces
  import opened Squares
  import opened Numbers
  import opened BoardState

  /** Whether p is a piece of another team standing on move. */
  predicate OpponentOn(p: PieceData, team: string, move: string) {
    p.position == move && p.team != team
  }

  /** Whether p is a King of the team, alive or not. */
  predicate KingOf(p: PieceData, team: string) {
    p.team == team && p.pieceType == "King"
  }

  /** FirstOrDefault(OpponentOn) over ps[k..]. */
  function FirstOpponentFrom(ps: seq<PieceData>, team: string, move: string, k: nat): (r: Option<nat>)
    requires k <= |ps|
    ensures r.Some? ==> k <= r.value < |ps| && OpponentOn(ps[r.value], team, move) &&
                        forall j :: k <= j < r.value ==> !OpponentOn(ps[j], team, move)
    ensures r.None? ==> forall j :: k <= j < |ps| ==> !OpponentOn(ps[j], team, move)
    decreases |ps| - k
  {
    if k == |ps| then None
    else if OpponentOn(ps[k], team, move) then Some(k)
    else FirstOpponentFrom(ps, team, move, k + 1)
  }

  /** FirstOrDefault(KingOf) over ps[k..]. */
  function FirstKingFrom(ps: seq<PieceData>, team: string, k: nat): (r: Option<nat>)
    requires k <= |ps|
    ensures r.Some? ==> k <= r.value < |ps| && KingOf(ps[r.value], team) &&
                        forall j :: k <= j < r.value ==> !KingOf(ps[j], team)
    ensures r.None? ==> forall j :: k <= j < |ps| ==> !KingOf(ps[j], team)
    decreases |ps| - k
  {
    if k == |ps| then None
    else if KingOf(ps[k], team) then Some(k)
    else FirstKingFrom(ps, team, k + 1)
  }

  /** Aggressive: 15 plus half the Health (truncated toward zero) of the first opponent on the square. */
  function AggressiveBonus(ps: seq<PieceData>, piece: PieceData, move: string): (r: int)
    ensures (forall k :: 0 <= k < |ps| ==> !OpponentOn(ps[k], piece.team, move)) ==> r == 0
    ensures forall t :: 0 <= t < |ps| && OpponentOn(ps[t], piece.team, move) &&
                        (forall j :: 0 <= j < t ==> !OpponentOn(ps[j], piece.team, move)) ==>
                        r == 15 + TruncDiv(ps[t].health, 2)
  {
    match FirstOpponentFrom(ps, piece.team, move, 0)
    case None => 0
    case Some(t) => 15 + TruncDiv(ps[t].health, 2)
  }

  /** Defensive: 10 next to the first King of the team; failing that -10 on a threatened square. */
  function DefensiveBonus(ps: seq<PieceData>, piece: PieceData, move: string): (r: int)
    requires Placed(ps) && ValidLabel(move)
    ensures r in {-10, 0, 10}
    ensures r == -10 ==> Threatened(ps, move, piece.team)
    ensures (forall k :: 0 <= k < |ps| ==> !KingOf(ps[k], piece.team)) ==> (r == -10 <==> Threatened(ps, move, piece.team))
  {
    var king := FirstKingFrom(ps, piece.team, 0);
    if king.Some? && IsAdjacentToPosition(move, ps[king.value].position) then 10
    else if IsTileUnderThreat(ps, move, piece.team) then -10
    else 0
  }

  /** Whether some piece of ps[..n] shares the team and the pack and stands within one tile of move. */
  function SamePackNear(ps: seq<PieceData>, piece: PieceData, move: string, n: nat): (r: bool)
    requires Placed(ps) && ValidLabel(move) && n <= |ps|
    ensures r <==> exists k :: 0 <= k < n && ps[k].team == piece.team && ps[k].pack == piece.pack &&
                              Adjacent(ps[k].position, move)
  {
    if n == 0 then false
    else SamePackNear(ps, piece, move, n - 1) ||
         (ps[n - 1].team == piece.team && ps[n - 1].pack == piece.pack && IsAdjacentToPosition(ps[n - 1].position, move))
  }

  /** SynergyHunter: 10 when a same-team, same-pack piece stands within one tile of move. */
  function SynergyHunterBonus(ps: seq<PieceData>, piece: PieceData, move: string): (r: int)
    requires Placed(ps) && ValidLabel(move)
    ensures r == 10 <==> exists k :: 0 <= k < |ps| && ps[k].team == piece.team && ps[k].pack == piece.pack &&
                                    Adjacent(ps[k].position, move)
    ensures r == 0 || r == 10
  {
    if SamePackNear(ps, piece, move, |ps|) then 10 else 0
  }

  /** The switch on the personality type; any other type adds nothing. */
  function EvaluateMoveBonus(personality: string, ps: seq<PieceData>, piece: PieceData, move: string): (r: int)
    requires Placed(ps) && ValidLabel(move)
    ensures personality == "Aggressive" ==> r == AggressiveBonus(ps, piece, move)
    ensures personality == "Defensive" ==> r == DefensiveBonus(ps, piece, move) && r in {-10, 0, 10}
    ensures personality == "SynergyHunter" ==> r == SynergyHunterBonus(ps, piece, move) && r in {0, 10}
    ensures personality !in {"Aggressive", "Defensive", "SynergyHunter"} ==> r == 0
  {
    if personality == "Aggressive" then AggressiveBonus(ps, piece, move)
    else if personality == "Defensive" then DefensiveBonus(ps, piece, move)
    else if personality == "SynergyHunter" then SynergyHunterBonus(ps, piece, move)
    else 0
  }

  // ---------------------------------------------------------------------
  // Properties

  lemma UnknownPersonalityScoresZero(personality: string, ps: seq<PieceData>, piece: PieceData, move: string)
    requires Placed(ps) && ValidLabel(move)
    requires personality !in {"Aggressive", "Defensive", "SynergyHunter"}
    ensures EvaluateMoveBonus(personality, ps, piece, move) == 0
  {
  }

  /**
   * The Defensive bonus is 10, -10 or 0: 10 exactly when the square is
   * within one tile of the team's first King, whether or not it is
   * threatened, and -10 exactly when it is not near that King but some
   * living opponent can move there.
   */
  lemma DefensiveCases(ps: seq<PieceData>, piece: PieceData, move: string)
    requires Placed(ps) && ValidLabel(move)
    ensures var r := DefensiveBonus(ps, piece, move);
            var nearKing := exists t :: 0 <= t < |ps| && KingOf(ps[t], piece.team) &&
                                        (forall j :: 0 <= j < t ==> !KingOf(ps[j], piece.team)) &&
                                        Adjacent(move, ps[t].position);
            r in {-10, 0, 10} &&
            (r == 10 <==> nearKing) &&
            (r == -10 <==> !nearKing && Threatened(ps, move, piece.team))
  {
    var king := FirstKingFrom(ps, piece.team, 0);
    if king.Some? {
      var t := king.value;
      forall t' | 0 <= t' < |ps| && KingOf(ps[t'], piece.team) && (forall j :: 0 <= j < t' ==> !KingOf(ps[j], piece.team))
        ensures t' == t
      {
      }
    }
  }

  /** Health can be negative, and the half is truncated toward zero: a target at -3 Health is worth 14, not 13. */
  lemma AggressiveHalfTruncates(piece: PieceData, target: PieceData)
    requires target.team != piece.team
    requires target.health == -3
    ensures AggressiveBonus([target], piece, target.position) == 14
  {
  }

  /** A target with non-negative Health is worth at least 15. */
  lemma AggressiveCaptureAtLeast15(ps: seq<PieceData>, piece: PieceData, move: string, t: nat)
    requires t < |ps| && OpponentOn(ps[t], piece.team, move) && ps[t].health >= 0
    requires forall j :: 0 <= j < t ==> !OpponentOn(ps[j], piece.team, move)
    ensures AggressiveBonus(ps, piece, move) >= 15
  {
  }

  /** The moving piece, when it is on the board within one tile of move, is its own same-pack neighbour. */
  lemma SynergyHunterCountsSelf(ps: seq<PieceData>, i: nat, move: string)
    requires Placed(ps) && ValidLabel(move) && i < |ps|
    requires Adjacent(ps[i].position, move)
    ensures SynergyHunterBonus(ps, ps[i], move) == 10
  {
  }
}
