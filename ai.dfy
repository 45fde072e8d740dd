/**
 * AIController.cs: the material evaluation, the depth-3 alpha-beta search,
 * the AI's own ability rule and the move-commit loop of TakeTurn.
 *
 * The search runs on a value copy of the board: Board.Clone followed by
 * MovePiece is taken to yield the same pieces with the searched piece's
 * Position set to the move (Relocated below). The Monte Carlo search of the
 * hard difficulty is an oracle parameter of TakeTurn.
 */
module AI {
  import opened Wrappers
  import opened Pieces
  import opened Log
  import opened Squares
  import opened Numbers
  import opened Text
  import opened BoardState
  import opened BoardRules
  import opened GameBoard
  import MovementValidator
  import MonsterDatabase

  // ---------------------------------------------------------------------
  // EvaluateBoard

  /** What a piece is worth to the evaluation: Health + 2 * Attack, dead or alive. */
  function Worth(p: PieceData): int {
    p.health + p.attack * 2
  }

  /** The evaluation of ps[..n] for team: its own pieces count for, all others against. */
  function EvaluateUpTo(ps: seq<PieceData>, team: string, n: nat): int
    requires n <= |ps|
  {
    if n == 0 then 0
    else EvaluateUpTo(ps, team, n - 1) + (if ps[n - 1].team == team then Worth(ps[n - 1]) else -Worth(ps[n - 1]))
  }

  function Evaluate(ps: seq<PieceData>, team: string): int {
    EvaluateUpTo(ps, team, |ps|)
  }

  method EvaluateBoard(ps: seq<PieceData>, team: string) returns (score: int)
    ensures score == Evaluate(ps, team)
  {
    score := 0;
    var k := 0;
    while k < |ps|
      invariant 0 <= k <= |ps| && score == EvaluateUpTo(ps, team, k)
    {
      var piece := ps[k];
      if piece.team == team {
        score := score + (piece.health + piece.attack * 2);
      } else {
        score := score - (piece.health + piece.attack * 2);
      }
      k := k + 1;
    }
  }

  /** With only the two teams on the board, the two evaluations are opposite. */
  lemma {:induction false} EvaluateZeroSum(ps: seq<PieceData>, n: nat)
    requires n <= |ps| && forall k :: 0 <= k < |ps| ==> ps[k].team == "Player" || ps[k].team == "AI"
    ensures EvaluateUpTo(ps, "Player", n) == -EvaluateUpTo(ps, "AI", n)
  {
    if n > 0 {
      EvaluateZeroSum(ps, n - 1);
    }
  }

  /**
   * Raising one piece's Health by d moves the evaluation by exactly d, up
   * for the team's own pieces and down for any other, whatever the piece's
   * Health was (dead pieces count).
   */
  lemma {:induction false} EvaluateHealthShift(ps: seq<PieceData>, team: string, n: nat, k: nat, d: int)
    requires n <= |ps| && k < |ps|
    ensures EvaluateUpTo(ps[k := ps[k].(health := ps[k].health + d)], team, n) ==
            EvaluateUpTo(ps, team, n) + (if k < n then (if ps[k].team == team then d else -d) else 0)
  {
    if n > 0 {
      EvaluateHealthShift(ps, team, n - 1, k, d);
    }
  }

  // ---------------------------------------------------------------------
  // FindBestMoveAlphaBeta

  /** Clone, then MovePiece: the searched piece stands on the move, nothing else changes. */
  function Relocated(ps: seq<PieceData>, i: nat, move: string): (r: seq<PieceData>)
    requires i < |ps|
    ensures |r| == |ps| && r[i].position == move
    ensures r[i] == ps[i].(position := move)
    ensures forall k :: 0 <= k < |ps| && k != i ==> r[k] == ps[k]
  {
    ps[i := ps[i].(position := move)]
  }

  /** The search's string result: a move (or null) at the root, a score below it. */
  datatype SearchResult = Best(move: Option<string>) | Score(value: int)

  /**
   * FindBestMoveAlphaBeta(board, piece, depth, alpha, beta, maximizing):
   * the evaluation at depth 0 or on a won board, else the scan of the legal
   * moves; the root (depth 3) answers with the best move, deeper levels with
   * the best score. A score string below the root is parsed back by the
   * caller, which here is reading `value`.
   */
  function Search(ps: seq<PieceData>, i: nat, depth: nat, alpha: int, beta: int, maximizing: bool): (r: SearchResult)
    requires i < |ps| && ValidLabel(ps[i].position) && depth <= 3
    ensures depth < 3 ==> r.Score?
    decreases depth, 1
  {
    if depth == 0 || CheckWinCondition(ps).0 then Score(Evaluate(ps, ps[i].team))
    else
      var moves := MovementValidator.LegalMoves(ps[i], ps);
      var scan := Scan(ps, i, depth, maximizing, moves, 0, alpha, beta, if maximizing then MinInt else MaxInt, None);
      if depth == 3 then Best(scan.1) else Score(scan.0)
  }

  /**
   * The foreach over the legal moves from moves[j] on, with the window
   * (alpha, beta) and the best (eval, move) so far: a maximising level keeps
   * a move only on a strictly greater eval and raises alpha, a minimising
   * one on a strictly smaller eval and lowers beta, and the scan stops once
   * beta <= alpha.
   */
  function Scan(ps: seq<PieceData>, i: nat, depth: nat, maximizing: bool, moves: seq<string>, j: nat,
                alpha: int, beta: int, bestEval: int, bestMove: Option<string>): (r: (int, Option<string>))
    requires i < |ps| && 1 <= depth <= 3 && j <= |moves|
    requires forall k :: 0 <= k < |moves| ==> ValidLabel(moves[k])
    ensures maximizing ==> r.0 >= bestEval
    ensures !maximizing ==> r.0 <= bestEval
    ensures r.1 == bestMove || (r.1.Some? && r.1.value in moves[j..])
    ensures r.1 != bestMove ==> if maximizing then r.0 > bestEval else r.0 < bestEval
    decreases depth, 0, |moves| - j
  {
    if j == |moves| then (bestEval, bestMove)
    else
      var eval := Search(Relocated(ps, i, moves[j]), i, depth - 1, alpha, beta, !maximizing).value;
      if maximizing then
        var better := eval > bestEval;
        var e := if better then eval else bestEval;
        var b := if better then Some(moves[j]) else bestMove;
        var a := Max(alpha, eval);
        if beta <= a then (e, b) else Scan(ps, i, depth, maximizing, moves, j + 1, a, beta, e, b)
      else
        var better := eval < bestEval;
        var e := if better then eval else bestEval;
        var b := if better then Some(moves[j]) else bestMove;
        var be := Min(beta, eval);
        if be <= alpha then (e, b) else Scan(ps, i, depth, maximizing, moves, j + 1, alpha, be, e, b)
  }

  method FindBestMoveAlphaBeta(ps: seq<PieceData>, i: nat, depth: nat, alpha: int, beta: int, maximizing: bool)
    returns (r: SearchResult)
    requires i < |ps| && ValidLabel(ps[i].position) && depth <= 3
    ensures r == Search(ps, i, depth, alpha, beta, maximizing)
    decreases depth, 1
  {
    var legalMoves := MovementValidator.GetLegalMoves(ps[i], ps);
    if depth == 0 || CheckWinCondition(ps).0 {
      var score := EvaluateBoard(ps, ps[i].team);
      return Score(score);
    }
    if maximizing {
      var maxEval, bestMove := MaximizingLevel(ps, i, depth, alpha, beta, legalMoves);
      r := if depth == 3 then Best(bestMove) else Score(maxEval);
    } else {
      var minEval, bestMove := MinimizingLevel(ps, i, depth, alpha, beta, legalMoves);
      r := if depth == 3 then Best(bestMove) else Score(minEval);
    }
  }

  /** The maximising branch of FindBestMoveAlphaBeta: its foreach with the cut-off. */
  method MaximizingLevel(ps: seq<PieceData>, i: nat, depth: nat, alpha: int, beta: int, legalMoves: seq<string>)
    returns (maxEval: int, bestMove: Option<string>)
    requires i < |ps| && 1 <= depth <= 3
    requires forall k :: 0 <= k < |legalMoves| ==> ValidLabel(legalMoves[k])
    ensures (maxEval, bestMove) == Scan(ps, i, depth, true, legalMoves, 0, alpha, beta, MinInt, None)
    decreases depth, 0
  {
    var a := alpha;
    maxEval, bestMove := MinInt, None;
    var j := 0;
    while j < |legalMoves|
      invariant 0 <= j <= |legalMoves|
      invariant Scan(ps, i, depth, true, legalMoves, j, a, beta, maxEval, bestMove) ==
                Scan(ps, i, depth, true, legalMoves, 0, alpha, beta, MinInt, None)
      decreases |legalMoves| - j
    {
      var eval := ReplyScore(ps, i, depth, a, beta, true, legalMoves[j]);
      ScanStep(ps, i, depth, true, legalMoves, j, a, beta, maxEval, bestMove, eval);
      if eval > maxEval {
        maxEval := eval;
        bestMove := Some(legalMoves[j]);
      }
      a := Max(a, eval);
      if beta <= a {
        break;
      }
      j := j + 1;
    }
  }

  /** The minimising branch of FindBestMoveAlphaBeta. */
  method MinimizingLevel(ps: seq<PieceData>, i: nat, depth: nat, alpha: int, beta: int, legalMoves: seq<string>)
    returns (minEval: int, bestMove: Option<string>)
    requires i < |ps| && 1 <= depth <= 3
    requires forall k :: 0 <= k < |legalMoves| ==> ValidLabel(legalMoves[k])
    ensures (minEval, bestMove) == Scan(ps, i, depth, false, legalMoves, 0, alpha, beta, MaxInt, None)
    decreases depth, 0
  {
    var b := beta;
    minEval, bestMove := MaxInt, None;
    var j := 0;
    while j < |legalMoves|
      invariant 0 <= j <= |legalMoves|
      invariant Scan(ps, i, depth, false, legalMoves, j, alpha, b, minEval, bestMove) ==
                Scan(ps, i, depth, false, legalMoves, 0, alpha, beta, MaxInt, None)
      decreases |legalMoves| - j
    {
      var eval := ReplyScore(ps, i, depth, alpha, b, false, legalMoves[j]);
      ScanStep(ps, i, depth, false, legalMoves, j, alpha, b, minEval, bestMove, eval);
      if eval < minEval {
        minEval := eval;
        bestMove := Some(legalMoves[j]);
      }
      b := Min(b, eval);
      if b <= alpha {
        break;
      }
      j := j + 1;
    }
  }

  /** The score of the reply to `move`, searched on a clone of the board with the piece moved there. */
  method ReplyScore(ps: seq<PieceData>, i: nat, depth: nat, alpha: int, beta: int, maximizing: bool, move: string)
    returns (eval: int)
    requires i < |ps| && 1 <= depth <= 3 && ValidLabel(move)
    ensures eval == Search(Relocated(ps, i, move), i, depth - 1, alpha, beta, !maximizing).value
    decreases depth - 1, 2
  {
    var simulated := Relocated(ps, i, move);
    var child := FindBestMoveAlphaBeta(simulated, i, depth - 1, alpha, beta, !maximizing);
    eval := child.value;
  }

  /** One turn of Scan, with the reply's score already computed. */
  lemma ScanStep(ps: seq<PieceData>, i: nat, depth: nat, maximizing: bool, moves: seq<string>, j: nat,
                 alpha: int, beta: int, bestEval: int, bestMove: Option<string>, eval: int)
    requires i < |ps| && 1 <= depth <= 3 && j < |moves|
    requires forall k :: 0 <= k < |moves| ==> ValidLabel(moves[k])
    requires eval == Search(Relocated(ps, i, moves[j]), i, depth - 1, alpha, beta, !maximizing).value
    ensures var better := if maximizing then eval > bestEval else eval < bestEval;
            var e := if better then eval else bestEval;
            var b := if better then Some(moves[j]) else bestMove;
            var a := if maximizing then Max(alpha, eval) else alpha;
            var be := if maximizing then beta else Min(beta, eval);
            Scan(ps, i, depth, maximizing, moves, j, alpha, beta, bestEval, bestMove) ==
            if be <= a then (e, b) else Scan(ps, i, depth, maximizing, moves, j + 1, a, be, e, b)
  {
  }

  // ---------------------------------------------------------------------
  // Properties of the search

  /**
   * Only an unfinished game searched at depth 3 answers with a move; a
   * finished one, at any depth, answers with the evaluation of that very
   * board, as does depth 0.
   */
  lemma SearchAnswers(ps: seq<PieceData>, i: nat, depth: nat, alpha: int, beta: int, maximizing: bool)
    requires i < |ps| && ValidLabel(ps[i].position) && depth <= 3
    ensures var r := Search(ps, i, depth, alpha, beta, maximizing);
            (r.Best? <==> depth == 3 && !CheckWinCondition(ps).0) &&
            (depth == 0 || CheckWinCondition(ps).0 ==> r == Score(Evaluate(ps, ps[i].team)))
  {
  }

  /** A move the root answers with is one of the piece's legal moves. */
  lemma ChosenMoveIsLegal(ps: seq<PieceData>, i: nat, alpha: int, beta: int, maximizing: bool)
    requires i < |ps| && ValidLabel(ps[i].position)
    requires Search(ps, i, 3, alpha, beta, maximizing).Best?
    requires Search(ps, i, 3, alpha, beta, maximizing).move.Some?
    ensures var m := Search(ps, i, 3, alpha, beta, maximizing).move.value;
            ValidLabel(m) && MovementValidator.MoveLegal(ps[i], m, ps)
  {
    var m := Search(ps, i, 3, alpha, beta, maximizing).move.value;
    assert m in MovementValidator.LegalMoves(ps[i], ps);
    MovementValidator.LegalMovesMembership(ps[i], ps, m);
  }

  /**
   * A piece with no legal moves on an unfinished board: null at the root,
   * int.MinValue from a maximising level and int.MaxValue from a minimising
   * one below it.
   */
  lemma NoMovesAnswer(ps: seq<PieceData>, i: nat, depth: nat, alpha: int, beta: int, maximizing: bool)
    requires i < |ps| && ValidLabel(ps[i].position) && 1 <= depth <= 3
    requires !CheckWinCondition(ps).0 && MovementValidator.LegalMoves(ps[i], ps) == []
    ensures Search(ps, i, depth, alpha, beta, maximizing) ==
            if depth == 3 then Best(None) else Score(if maximizing then MinInt else MaxInt)
  {
  }

  /**
   * With at least one legal move, the root picks a move unless the first
   * move's reply is worth exactly int.MinValue (a strict > against the
   * initial maxEval).
   */
  lemma RootPicksAMove(ps: seq<PieceData>, i: nat, alpha: int, beta: int)
    requires i < |ps| && ValidLabel(ps[i].position) && !CheckWinCondition(ps).0
    requires MovementValidator.LegalMoves(ps[i], ps) != []
    requires var m := MovementValidator.LegalMoves(ps[i], ps)[0];
             Search(Relocated(ps, i, m), i, 2, alpha, beta, false).value > MinInt
    ensures Search(ps, i, 3, alpha, beta, true).move.Some?
  {
    var moves := MovementValidator.LegalMoves(ps[i], ps);
    var eval := Search(Relocated(ps, i, moves[0]), i, 2, alpha, beta, false).value;
    var r := Scan(ps, i, 3, true, moves, 0, alpha, beta, MinInt, None);
    if beta > Max(alpha, eval) {
      var rest := Scan(ps, i, 3, true, moves, 1, Max(alpha, eval), beta, eval, Some(moves[0]));
      assert r == rest;
    }
  }

  // ---------------------------------------------------------------------
  // UseAbility (the AI's rule)

  /** The adjusted cost: the catalogue cost plus the piece's modifier, never below 1. */
  function AdjustedCost(cost: int, modifier: int): (c: int)
    ensures c >= 1 && c >= cost + modifier
    ensures cost + modifier >= 1 ==> c == cost + modifier
  {
    Max(1, cost + modifier)
  }

  /** The ability name: the text of Ability before the first en dash, trimmed. */
  function AbilityName(ability: string): string {
    Trim(BeforeFirst(ability, '–'))
  }

  /** The payment: Energy minus the adjusted cost, then the log entry for the use. */
  function PayAdjusted(w: World, i: nat, abilityName: string, adjusted: int): (r: World)
    requires i < |w.pieces|
    ensures Keeps(w, r) && r.pieces[i].energy == w.pieces[i].energy - adjusted
    ensures forall k :: 0 <= k < |w.pieces| && k != i ==> r.pieces[k] == w.pieces[k]
    ensures r.pieces == w.pieces[i := w.pieces[i].(energy := w.pieces[i].energy - adjusted)]
    ensures r.log == w.log + [UsedAbility(w.pieces[i].team, w.pieces[i].id, abilityName)]
  {
    var p := w.pieces[i];
    Append(SetEnergy(w, i, p.energy - adjusted), UsedAbility(p.team, p.id, abilityName))
  }

  /**
   * An Ability text with no en dash and no white space at either end is its
   * own name, so the catalogue's plain names (Fire Leap, Blitz Protocol, ...)
   * are looked up as they are.
   */
  lemma PlainAbilityNameUnchanged(ability: string)
    requires '–' !in ability
    requires ability != [] ==> !IsWhiteSpace(ability[0]) && !IsWhiteSpace(ability[|ability| - 1])
    ensures AbilityName(ability) == ability
  {
    BeforeFirstAbsent(ability, '–');
    TrimPlain(ability);
  }

  /**
   * AIController.UseAbility on piece i: no cost entry or too little energy,
   * nothing at all; otherwise the adjusted cost is paid, the use logged and
   * Board.ApplyAbilityEffect run.
   */
  function AIUseAbility(db: MonsterDatabase.Catalog, w: World, i: nat): (r: World)
    requires Placed(w.pieces) && i < |w.pieces|
    ensures Keeps(w, r)
  {
    UseNamedAbility(db, w, i, AbilityName(w.pieces[i].ability))
  }

  /** The rest of UseAbility once the name is taken from the Ability text. */
  function UseNamedAbility(db: MonsterDatabase.Catalog, w: World, i: nat, name: string): (r: World)
    requires Placed(w.pieces) && i < |w.pieces|
    ensures Keeps(w, r)
  {
    var p := w.pieces[i];
    match MonsterDatabase.Lookup(db.abilityCosts, name)
    case None => w
    case Some(cost) =>
      var adjusted := AdjustedCost(cost, p.energyCostModifier);
      if p.energy < adjusted then w
      else
        var w1 := PayAdjusted(w, i, name, adjusted);
        KeepsPlaced(w, w1);
        AbilityEffect(w1, i, name)
  }

  method UseAbility(db: MonsterDatabase.Catalog, piece: Piece, board: Board, i: nat)
    requires board.Valid() && i < |board.pieces| && board.pieces[i] == piece && Placed(board.View())
    modifies board, board.pieces
    ensures board.pieces == old(board.pieces) && board.State() == AIUseAbility(db, old(board.State()), i)
  {
    assert board.View()[i] == piece.Data();
    var abilityName := AbilityName(piece.ability);
    UseNamed(db, piece, board, i, abilityName);
  }

  /** UseAbility from the cost lookup on. */
  method UseNamed(db: MonsterDatabase.Catalog, piece: Piece, board: Board, i: nat, abilityName: string)
    requires board.Valid() && i < |board.pieces| && board.pieces[i] == piece && Placed(board.View())
    modifies board, board.pieces
    ensures board.pieces == old(board.pieces) && board.State() == UseNamedAbility(db, old(board.State()), i, abilityName)
  {
    ghost var w := board.State();
    assert w.pieces[i] == piece.Data();
    var found := MonsterDatabase.Lookup(db.abilityCosts, abilityName);
    if found.None? {
      return;
    }
    var adjustedCost := AdjustedCost(found.value, piece.energyCostModifier);
    if piece.energy < adjustedCost {
      return;
    }
    board.WriteEnergy(piece, i, piece.energy - adjustedCost);
    board.LogTurn(UsedAbility(piece.team, piece.id, abilityName));
    ghost var w1 := board.State();
    assert w1 == PayAdjusted(w, i, abilityName, adjustedCost);
    KeepsPlaced(w, w1);
    board.ApplyAbilityEffect(piece, abilityName, i);
  }

  /** No effect of Board.ApplyAbilityEffect changes any piece's Energy. */
  lemma AbilityEffectKeepsEnergy(w: World, i: nat, abilityName: string)
    requires Placed(w.pieces) && i < |w.pieces|
    ensures forall k :: 0 <= k < |w.pieces| ==> AbilityEffect(w, i, abilityName).pieces[k].energy == w.pieces[k].energy
  {
    if abilityName == "Shock Pulse" && FirstEnemy(w.pieces, i).Some? {
      DamageEffect(w, i, FirstEnemy(w.pieces, i).value, 5);
    } else if abilityName == "Overdrive Command" {
      AuraOverAlliesEffect(w, i, BoardBoost(5, 2));
    }
  }

  /** No cost entry, or Energy below the adjusted cost: the board and the history are as they were. */
  lemma AIRefusalChangesNothing(db: MonsterDatabase.Catalog, w: World, i: nat)
    requires Placed(w.pieces) && i < |w.pieces|
    requires var p := w.pieces[i];
             var found := MonsterDatabase.Lookup(db.abilityCosts, AbilityName(p.ability));
             found.None? || p.energy < AdjustedCost(found.value, p.energyCostModifier)
    ensures AIUseAbility(db, w, i) == w
  {
  }

  /**
   * Otherwise Energy drops by exactly max(1, cost + modifier), at least 1,
   * every other piece keeps its Energy, and the use is logged.
   */
  lemma AIUsePaysAdjustedCost(db: MonsterDatabase.Catalog, w: World, i: nat)
    requires Placed(w.pieces) && i < |w.pieces|
    requires var p := w.pieces[i];
             var found := MonsterDatabase.Lookup(db.abilityCosts, AbilityName(p.ability));
             found.Some? && p.energy >= AdjustedCost(found.value, p.energyCostModifier)
    ensures var p := w.pieces[i];
            var cost := MonsterDatabase.Lookup(db.abilityCosts, AbilityName(p.ability)).value;
            var r := AIUseAbility(db, w, i);
            r.pieces[i].energy == p.energy - AdjustedCost(cost, p.energyCostModifier) &&
            r.pieces[i].energy <= p.energy - 1 &&
            (forall k :: 0 <= k < |w.pieces| && k != i ==> r.pieces[k].energy == w.pieces[k].energy) &&
            w.log + [UsedAbility(p.team, p.id, AbilityName(p.ability))] <= r.log
  {
    var name := AbilityName(w.pieces[i].ability);
    assert AIUseAbility(db, w, i) == UseNamedAbility(db, w, i, name);
    NamedUsePays(db, w, i, name);
  }

  lemma NamedUsePays(db: MonsterDatabase.Catalog, w: World, i: nat, name: string)
    requires Placed(w.pieces) && i < |w.pieces|
    requires var p := w.pieces[i];
             var found := MonsterDatabase.Lookup(db.abilityCosts, name);
             found.Some? && p.energy >= AdjustedCost(found.value, p.energyCostModifier)
    ensures var p := w.pieces[i];
            var cost := MonsterDatabase.Lookup(db.abilityCosts, name).value;
            var r := UseNamedAbility(db, w, i, name);
            r.pieces[i].energy == p.energy - AdjustedCost(cost, p.energyCostModifier) &&
            r.pieces[i].energy <= p.energy - 1 &&
            (forall k :: 0 <= k < |w.pieces| && k != i ==> r.pieces[k].energy == w.pieces[k].energy) &&
            w.log + [UsedAbility(p.team, p.id, name)] <= r.log
  {
    var p := w.pieces[i];
    var adjusted := AdjustedCost(MonsterDatabase.Lookup(db.abilityCosts, name).value, p.energyCostModifier);
    var w1 := PayAdjusted(w, i, name, adjusted);
    KeepsPlaced(w, w1);
    assert UseNamedAbility(db, w, i, name) == AbilityEffect(w1, i, name);
    AbilityEffectKeepsEnergy(w1, i, name);
  }

  // ---------------------------------------------------------------------
  // TakeTurn

  /** The list of living team pieces taken up front, as indices in list order. */
  function LivingAmong(ps: seq<PieceData>, team: string, n: nat): (r: seq<nat>)
    requires n <= |ps|
    ensures InBounds(r, n) && Increasing(r)
    ensures forall k :: k in r <==> 0 <= k < n && ps[k].team == team && ps[k].health > 0
  {
    if n == 0 then []
    else
      var prev := LivingAmong(ps, team, n - 1);
      if ps[n - 1].team == team && ps[n - 1].health > 0 then prev + [n - 1] else prev
  }

  /** How TakeTurn reads the search's answer: a move, null as "", a score as its digits. */
  function Render(r: SearchResult): string {
    match r
    case Best(Some(m)) => m
    case Best(None) => ""
    case Score(n) => IntToString(n)
  }

  /** The move TakeTurn commits for piece k: alpha-beta below difficulty 3, the oracle otherwise. */
  function ChosenMove(ps: seq<PieceData>, k: nat, difficulty: int, mcts: (seq<PieceData>, nat) -> string): string
    requires k < |ps| && ValidLabel(ps[k].position)
  {
    if difficulty < 3 then Render(Search(ps, k, 3, MinInt, MaxInt, true)) else mcts(ps, k)
  }

  /** b is a with at most its Position changed. */
  predicate OnlyMoved(a: PieceData, b: PieceData) {
    b == a.(position := b.position)
  }

  /**
   * TakeTurn's choice of move as a function of the board and the piece index,
   * for the difficulty and the Monte Carlo oracle of the turn. The loop only
   * visits pieces on a square, so the "" for any other index is never read.
   */
  function MoveFor(difficulty: int, mcts: (seq<PieceData>, nat) -> string): (seq<PieceData>, nat) -> string {
    (ps: seq<PieceData>, k: nat) => if k < |ps| && ValidLabel(ps[k].position) then ChosenMove(ps, k, difficulty, mcts) else ""
  }

  /** One visit of the loop with chooser `choose`: the move is logged and committed, or "no valid moves" is logged. */
  function TurnStep(w: World, k: nat, choose: (seq<PieceData>, nat) -> string): (r: World)
    requires k < |w.pieces|
    ensures |r.pieces| == |w.pieces|
    ensures forall q :: 0 <= q < |w.pieces| && q != k ==> r.pieces[q] == w.pieces[q]
    ensures |r.log| == |w.log| + 1 && r.log[..|w.log|] == w.log
    ensures var p := w.pieces[k];
            var m := choose(w.pieces, k);
            (m != "" ==> r.pieces[k] == p.(position := m) && r.log == w.log + [Moved(p.team, p.id, p.position, m)]) &&
            (m == "" ==> r.pieces == w.pieces && r.log == w.log + [NoValidMoves(p.team, p.id)])
  {
    var p := w.pieces[k];
    var move := choose(w.pieces, k);
    if move != "" then SetPosition(Append(w, Moved(p.team, p.id, p.position, move)), k, move)
    else Append(w, NoValidMoves(p.team, p.id))
  }

  /**
   * The first n visits of the loop over the snapshot `order`: only the
   * visited pieces can have changed, one entry is logged per visit, and each
   * visited piece and its entry stay as its own visit left them.
   */
  function TurnUpTo(w: World, order: seq<nat>, n: nat, choose: (seq<PieceData>, nat) -> string): (r: World)
    requires n <= |order| && InBounds(order, |w.pieces|) && Increasing(order)
    ensures |r.pieces| == |w.pieces| && |r.log| == |w.log| + n && r.log[..|w.log|] == w.log
    ensures forall j :: n <= j < |order| ==> r.pieces[order[j]] == w.pieces[order[j]]
    ensures forall j {:trigger AfterVisit(w, order, j, choose)} :: 0 <= j < n ==>
              r.pieces[order[j]] == AfterVisit(w, order, j, choose).pieces[order[j]] &&
              r.log[|w.log| + j] == AfterVisit(w, order, j, choose).log[|w.log| + j]
    decreases n, 0
  {
    if n == 0 then w
    else
      VisitKeepsLaterPieces(w, order, n, choose);
      VisitKeepsEarlierVisits(w, order, n, choose);
      AfterVisit(w, order, n - 1, choose)
  }

  /** Visit n - 1 leaves the log before the turn and the pieces still to come as they were. */
  lemma VisitKeepsLaterPieces(w: World, order: seq<nat>, n: nat, choose: (seq<PieceData>, nat) -> string)
    requires 0 < n <= |order| && InBounds(order, |w.pieces|) && Increasing(order)
    ensures var r := AfterVisit(w, order, n - 1, choose);
            r.log[..|w.log|] == w.log &&
            forall j :: n <= j < |order| ==> r.pieces[order[j]] == w.pieces[order[j]]
    decreases n - 1, 2
  {
    var prev := TurnUpTo(w, order, n - 1, choose);
    assert AfterVisit(w, order, n - 1, choose) == TurnStep(prev, order[n - 1], choose);
  }

  /** Visit n - 1 leaves every earlier visit's piece and entry as that visit left them. */
  lemma VisitKeepsEarlierVisits(w: World, order: seq<nat>, n: nat, choose: (seq<PieceData>, nat) -> string)
    requires 0 < n <= |order| && InBounds(order, |w.pieces|) && Increasing(order)
    ensures var r := AfterVisit(w, order, n - 1, choose);
            forall j {:trigger AfterVisit(w, order, j, choose)} :: 0 <= j < n ==>
              r.pieces[order[j]] == AfterVisit(w, order, j, choose).pieces[order[j]] &&
              r.log[|w.log| + j] == AfterVisit(w, order, j, choose).log[|w.log| + j]
    decreases n - 1, 2
  {
    var prev := TurnUpTo(w, order, n - 1, choose);
    assert AfterVisit(w, order, n - 1, choose) == TurnStep(prev, order[n - 1], choose);
  }

  /** The board right after visit j: the first j visits, then visit j itself. */
  function AfterVisit(w: World, order: seq<nat>, j: nat, choose: (seq<PieceData>, nat) -> string): (r: World)
    requires j < |order| && InBounds(order, |w.pieces|) && Increasing(order)
    ensures |r.pieces| == |w.pieces| && |r.log| == |w.log| + j + 1
    decreases j, 1
  {
    TurnStep(TurnUpTo(w, order, j, choose), order[j], choose)
  }

  /** TakeTurn: the start-of-turn effects, then one visit per living team piece of the snapshot. */
  function PlayTurn(w: World, team: string, difficulty: int, mcts: (seq<PieceData>, nat) -> string): (r: World)
    requires Placed(w.pieces)
  {
    var w1 := BoardRules.ProcessStartOfTurnEffects(w, team);
    var order := LivingAmong(w1.pieces, team, |w1.pieces|);
    TurnUpTo(w1, order, |order|, MoveFor(difficulty, mcts))
  }

  method TakeTurn(board: Board, team: string, difficulty: int, mcts: (seq<PieceData>, nat) -> string)
    requires board.Valid() && Placed(board.View())
    modifies board, board.pieces
    ensures board.pieces == old(board.pieces) && board.State() == PlayTurn(old(board.State()), team, difficulty, mcts)
  {
    ghost var w := board.State();
    board.ProcessStartOfTurnEffects(team);
    ghost var w1 := board.State();
    KeepsPlaced(w, w1);
    var pieces := LivingAmong(board.View(), team, |board.pieces|);
    if |pieces| == 0 {
      return;
    }
    TurnLoop(board, w1, pieces, difficulty, mcts);
  }

  /** TakeTurn's loop over the snapshot `pieces` of living team pieces, from the board w1. */
  method TurnLoop(board: Board, ghost w1: World, pieces: seq<nat>, difficulty: int, mcts: (seq<PieceData>, nat) -> string)
    requires board.Valid() && board.State() == w1 && Placed(w1.pieces)
    requires InBounds(pieces, |w1.pieces|) && Increasing(pieces)
    modifies board, board.pieces
    ensures board.pieces == old(board.pieces) && board.State() == TurnUpTo(w1, pieces, |pieces|, MoveFor(difficulty, mcts))
  {
    var j := 0;
    while j < |pieces|
      invariant 0 <= j <= |pieces| && board.pieces == old(board.pieces) && board.Valid()
      invariant board.State() == TurnUpTo(w1, pieces, j, MoveFor(difficulty, mcts))
    {
      TurnNext(board, w1, pieces, j, difficulty, mcts);
      j := j + 1;
    }
  }

  /** The j-th visit of TakeTurn's loop. */
  method TurnNext(board: Board, ghost w1: World, pieces: seq<nat>, j: nat, difficulty: int, mcts: (seq<PieceData>, nat) -> string)
    requires board.Valid() && |w1.pieces| == |board.pieces| && Placed(w1.pieces)
    requires j < |pieces| && InBounds(pieces, |w1.pieces|) && Increasing(pieces)
    requires board.State() == TurnUpTo(w1, pieces, j, MoveFor(difficulty, mcts))
    modifies board, board.pieces
    ensures board.pieces == old(board.pieces) && board.State() == TurnUpTo(w1, pieces, j + 1, MoveFor(difficulty, mcts))
  {
    ghost var before := board.State();
    var k := pieces[j];
    var piece := board.pieces[k];
    assert before.pieces[k] == piece.Data();
    var move := PickMove(board.View(), k, difficulty, mcts);
    assert move == MoveFor(difficulty, mcts)(before.pieces, k);
    if move != "" {
      board.LogTurn(Moved(piece.team, piece.id, piece.position, move));
      board.WritePosition(piece, k, move);
    } else {
      board.LogTurn(NoValidMoves(piece.team, piece.id));
    }
    assert board.State() == TurnStep(before, k, MoveFor(difficulty, mcts));
  }

  /** The search TakeTurn runs for piece k: alpha-beta to depth 3 below difficulty 3, the oracle otherwise. */
  method PickMove(view: seq<PieceData>, k: nat, difficulty: int, mcts: (seq<PieceData>, nat) -> string) returns (move: string)
    requires k < |view| && ValidLabel(view[k].position)
    ensures move == ChosenMove(view, k, difficulty, mcts)
  {
    if difficulty < 3 {
      var found := FindBestMoveAlphaBeta(view, k, 3, MinInt, MaxInt, true);
      move := Render(found);
    } else {
      move := mcts(view, k);
    }
  }

  // ---------------------------------------------------------------------
  // Properties of TakeTurn

  /**
   * After the start-of-turn effects, TakeTurn changes only the Position of
   * living pieces of the team, and logs exactly one entry for each of them.
   */
  lemma TurnMovesOnlyLivingTeamPieces(w: World, team: string, difficulty: int, mcts: (seq<PieceData>, nat) -> string)
    requires Placed(w.pieces)
    ensures var w1 := BoardRules.ProcessStartOfTurnEffects(w, team);
            var r := PlayTurn(w, team, difficulty, mcts);
            |r.pieces| == |w1.pieces| && r.log[..|w1.log|] == w1.log &&
            |r.log| == |w1.log| + |LivingAmong(w1.pieces, team, |w1.pieces|)| &&
            (forall k :: 0 <= k < |w1.pieces| ==> OnlyMoved(w1.pieces[k], r.pieces[k])) &&
            (forall k :: 0 <= k < |w1.pieces| && !(w1.pieces[k].team == team && w1.pieces[k].health > 0) ==>
               r.pieces[k] == w1.pieces[k])
  {
    var w1 := BoardRules.ProcessStartOfTurnEffects(w, team);
    var order := LivingAmong(w1.pieces, team, |w1.pieces|);
    assert PlayTurn(w, team, difficulty, mcts) == TurnUpTo(w1, order, |order|, MoveFor(difficulty, mcts));
    TurnUpToOnlyMoves(w1, order, |order|, MoveFor(difficulty, mcts));
    TurnUpToSkips(w1, order, |order|, MoveFor(difficulty, mcts));
  }

  /** A piece the snapshot does not list is never touched. */
  lemma {:induction false} TurnUpToSkips(w: World, order: seq<nat>, n: nat, choose: (seq<PieceData>, nat) -> string)
    requires n <= |order| && InBounds(order, |w.pieces|) && Increasing(order)
    ensures forall k :: 0 <= k < |w.pieces| && k !in order ==> TurnUpTo(w, order, n, choose).pieces[k] == w.pieces[k]
  {
    if n > 0 {
      TurnUpToSkips(w, order, n - 1, choose);
    }
  }

  /** The first n visits change at most the Position of each piece. */
  lemma TurnUpToOnlyMoves(w: World, order: seq<nat>, n: nat, choose: (seq<PieceData>, nat) -> string)
    requires n <= |order| && InBounds(order, |w.pieces|) && Increasing(order)
    ensures forall k :: 0 <= k < |w.pieces| ==> OnlyMoved(w.pieces[k], TurnUpTo(w, order, n, choose).pieces[k])
  {
    var r := TurnUpTo(w, order, n, choose);
    TurnUpToSkips(w, order, n, choose);
    forall k | 0 <= k < |w.pieces|
      ensures OnlyMoved(w.pieces[k], r.pieces[k])
    {
      if k in order {
        var j :| 0 <= j < |order| && order[j] == k;
        if j < n {
          var before := TurnUpTo(w, order, j, choose);
          assert AfterVisit(w, order, j, choose) == TurnStep(before, k, choose);
        }
      }
    }
  }

  /**
   * What a visit leaves for its piece p when m is the move chosen for it:
   * p ends on m and "moved" is logged, or, with no move, p stays put and
   * "no valid moves" is logged.
   */
  predicate Committed(p: PieceData, m: string, after: PieceData, e: Event) {
    if m != "" then after == p.(position := m) && e == Moved(p.team, p.id, p.position, m)
    else after == p && e == NoValidMoves(p.team, p.id)
  }

  /** The piece a visit handles and the entry it logs. */
  lemma TurnStepCommits(w: World, k: nat, choose: (seq<PieceData>, nat) -> string)
    requires k < |w.pieces|
    ensures var r := TurnStep(w, k, choose);
            Committed(w.pieces[k], choose(w.pieces, k), r.pieces[k], r.log[|w.log|])
  {
  }

  /**
   * Visit j of the loop commits the move chosen for its piece on the board
   * the earlier visits left, and that is what the piece and its log entry
   * hold after any later visits.
   */
  lemma TurnUpToVisit(w: World, order: seq<nat>, n: nat, j: nat, choose: (seq<PieceData>, nat) -> string)
    requires n <= |order| && InBounds(order, |w.pieces|) && Increasing(order) && j < n
    ensures var before := TurnUpTo(w, order, j, choose);
            var r := TurnUpTo(w, order, n, choose);
            Committed(before.pieces[order[j]], choose(before.pieces, order[j]), r.pieces[order[j]], r.log[|w.log| + j])
  {
    var r := TurnUpTo(w, order, n, choose);
    var after := AfterVisit(w, order, j, choose);
    assert r.pieces[order[j]] == after.pieces[order[j]] && r.log[|w.log| + j] == after.log[|w.log| + j];
    AfterVisitCommits(w, order, j, choose);
  }

  /** Right after visit j, its piece and its entry are as the visit committed them. */
  lemma AfterVisitCommits(w: World, order: seq<nat>, j: nat, choose: (seq<PieceData>, nat) -> string)
    requires j < |order| && InBounds(order, |w.pieces|) && Increasing(order)
    ensures var before := TurnUpTo(w, order, j, choose);
            var r := AfterVisit(w, order, j, choose);
            Committed(before.pieces[order[j]], choose(before.pieces, order[j]), r.pieces[order[j]], r.log[|w.log| + j])
  {
    TurnStepCommits(TurnUpTo(w, order, j, choose), order[j], choose);
  }

  /**
   * Visit j of the loop over `order` from w1, for every j, committed into r
   * the move ChosenMove picks for its piece on the board the earlier visits
   * left (that piece is still on a square then).
   */
  predicate ChosenMovesCommitted(w1: World, order: seq<nat>, r: World, difficulty: int, mcts: (seq<PieceData>, nat) -> string)
    requires InBounds(order, |w1.pieces|) && Increasing(order)
    requires |r.pieces| == |w1.pieces| && |r.log| == |w1.log| + |order|
  {
    forall j :: 0 <= j < |order| ==>
      var before := TurnUpTo(w1, order, j, MoveFor(difficulty, mcts));
      ValidLabel(before.pieces[order[j]].position) &&
      Committed(before.pieces[order[j]], ChosenMove(before.pieces, order[j], difficulty, mcts),
                r.pieces[order[j]], r.log[|w1.log| + j])
  }

  /**
   * TakeTurn commits, for every living team piece of the snapshot, the move
   * ChosenMove picks for it on the board left by the earlier visits, or
   * leaves it in place and logs "no valid moves".
   */
  lemma TurnCommitsChosenMoves(w: World, team: string, difficulty: int, mcts: (seq<PieceData>, nat) -> string)
    requires Placed(w.pieces)
    ensures var w1 := BoardRules.ProcessStartOfTurnEffects(w, team);
            ChosenMovesCommitted(w1, LivingAmong(w1.pieces, team, |w1.pieces|), PlayTurn(w, team, difficulty, mcts), difficulty, mcts)
  {
    var w1 := BoardRules.ProcessStartOfTurnEffects(w, team);
    KeepsPlaced(w, w1);
    var order := LivingAmong(w1.pieces, team, |w1.pieces|);
    assert PlayTurn(w, team, difficulty, mcts) == TurnUpTo(w1, order, |order|, MoveFor(difficulty, mcts));
    LoopCommitsChosenMoves(w1, order, difficulty, mcts);
  }

  /** Every visit of a loop over placed pieces commits what ChosenMove picks for its piece. */
  lemma LoopCommitsChosenMoves(w1: World, order: seq<nat>, difficulty: int, mcts: (seq<PieceData>, nat) -> string)
    requires Placed(w1.pieces) && InBounds(order, |w1.pieces|) && Increasing(order)
    ensures ChosenMovesCommitted(w1, order, TurnUpTo(w1, order, |order|, MoveFor(difficulty, mcts)), difficulty, mcts)
  {
    var r := TurnUpTo(w1, order, |order|, MoveFor(difficulty, mcts));
    forall j | 0 <= j < |order|
      ensures var before := TurnUpTo(w1, order, j, MoveFor(difficulty, mcts));
              ValidLabel(before.pieces[order[j]].position) &&
              Committed(before.pieces[order[j]], ChosenMove(before.pieces, order[j], difficulty, mcts),
                        r.pieces[order[j]], r.log[|w1.log| + j])
    {
      VisitCommitsChosenMove(w1, order, j, difficulty, mcts);
    }
  }

  /** Visit j of a loop over placed pieces commits what ChosenMove picks for its piece. */
  lemma VisitCommitsChosenMove(w1: World, order: seq<nat>, j: nat, difficulty: int, mcts: (seq<PieceData>, nat) -> string)
    requires Placed(w1.pieces) && InBounds(order, |w1.pieces|) && Increasing(order) && j < |order|
    ensures var before := TurnUpTo(w1, order, j, MoveFor(difficulty, mcts));
            var r := TurnUpTo(w1, order, |order|, MoveFor(difficulty, mcts));
            ValidLabel(before.pieces[order[j]].position) &&
            Committed(before.pieces[order[j]], ChosenMove(before.pieces, order[j], difficulty, mcts),
                      r.pieces[order[j]], r.log[|w1.log| + j])
  {
    var choose := MoveFor(difficulty, mcts);
    var before := TurnUpTo(w1, order, j, choose);
    assert before.pieces[order[j]] == w1.pieces[order[j]];
    assert choose(before.pieces, order[j]) == ChosenMove(before.pieces, order[j], difficulty, mcts);
    TurnUpToVisit(w1, order, |order|, j, choose);
  }

  /** Below difficulty 3 on an unfinished game, a committed move is a legal move of the piece. */
  lemma CommittedMoveIsLegal(ps: seq<PieceData>, k: nat, difficulty: int, mcts: (seq<PieceData>, nat) -> string)
    requires k < |ps| && ValidLabel(ps[k].position) && difficulty < 3 && !CheckWinCondition(ps).0
    requires ChosenMove(ps, k, difficulty, mcts) != ""
    ensures ValidLabel(ChosenMove(ps, k, difficulty, mcts)) &&
            MovementValidator.MoveLegal(ps[k], ChosenMove(ps, k, difficulty, mcts), ps)
  {
    ChosenMoveIsLegal(ps, k, MinInt, MaxInt, true);
  }

  /**
   * On a finished game the root search answers with a score, and TakeTurn
   * writes that score's digits into Position: a string that is not a square.
   */
  lemma FinishedGameWritesScore(ps: seq<PieceData>, k: nat, difficulty: int, mcts: (seq<PieceData>, nat) -> string)
    requires k < |ps| && ValidLabel(ps[k].position) && difficulty < 3 && CheckWinCondition(ps).0
    ensures ChosenMove(ps, k, difficulty, mcts) == IntToString(Evaluate(ps, ps[k].team))
    ensures ChosenMove(ps, k, difficulty, mcts) != "" && !ValidLabel(ChosenMove(ps, k, difficulty, mcts))
  {
    var n := Evaluate(ps, ps[k].team);
    if n >= 0 {
      assert IsDigit(NatToString(n)[0]);
    }
  }
}
