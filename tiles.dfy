/**
 * TileEffectManager.cs: a sparse dictionary from square to effect tag, the
 * ambient effects applied at the start of a turn, the on-entry effects, and
 * the empty-tile search behind the Warp tile.
 *
 * The effect of each switch is stated on a value snapshot of the piece
 * (AmbientPiece, EntryPiece) together with the log entries it appends
 * (AmbientLog, EntryLog); the manager's methods change the Piece object and
 * the board's TurnHistory exactly as those functions say.
 */
module TileEffects {
  import opened Pieces
  import opened Log
  import opened Squares
  import opened Numbers
  import opened BoardState
  import opened GameBoard

  // ---------------------------------------------------------------------
  // ApplyTileEffect: the ambient table

  /** The tags the ambient switch has a case for. */
  predicate AmbientTag(effect: string) {
    effect in {"Burning", "Healing", "Poisoned", "Energized", "Shielded", "Cursed", "Blessed"}
  }

  /** The piece after the ambient switch; a tag without a case leaves it alone. */
  function AmbientPiece(d: PieceData, effect: string): (r: PieceData)
    ensures !AmbientTag(effect) ==> r == d
    ensures r.(health := d.health, energy := d.energy, defense := d.defense,
               energyCostModifier := d.energyCostModifier) == d
  {
    match effect
    case "Burning" => d.(health := d.health - 5)
    case "Healing" => d.(health := d.health + 3)
    case "Poisoned" => d.(health := d.health - 3)
    case "Energized" => d.(energy := Min(d.energy + 1, 10))
    case "Shielded" => d.(defense := d.defense + 2)
    case "Cursed" => d.(energyCostModifier := 1)
    case "Blessed" => d.(energyCostModifier := -1)
    case _ => d
  }

  /** The entries the ambient switch logs: one for a handled tag, none otherwise. */
  function AmbientLog(d: PieceData, effect: string): (r: seq<Event>)
    ensures |r| == if AmbientTag(effect) then 1 else 0
  {
    if AmbientTag(effect) then [AmbientTile(d.team, d.id, effect, d.position)] else []
  }

  /** Health changes by the tile's fixed amount, unclamped, and nothing else changes. */
  lemma AmbientHealth(d: PieceData, effect: string)
    ensures AmbientPiece(d, effect).health - d.health ==
              if effect == "Burning" then -5 else if effect == "Healing" then 3
              else if effect == "Poisoned" then -3 else 0
  {
  }

  /** Energized restores one point of energy but never lifts it above 10, nor lowers it when it is at most 10. */
  lemma EnergizedCapped(d: PieceData)
    ensures AmbientPiece(d, "Energized").energy <= 10
    ensures d.energy < 10 ==> AmbientPiece(d, "Energized").energy == d.energy + 1
    ensures d.energy >= 10 ==> AmbientPiece(d, "Energized").energy == 10
  {
  }

  /** Cursed and Blessed assign the modifier: a second application changes nothing. */
  lemma CostModifierDoesNotAccumulate(d: PieceData, effect: string)
    requires effect == "Cursed" || effect == "Blessed"
    ensures AmbientPiece(AmbientPiece(d, effect), effect) == AmbientPiece(d, effect)
    ensures AmbientPiece(d, effect).energyCostModifier == if effect == "Cursed" then 1 else -1
  {
  }

  /** Shielded adds up: two applications give +4 Defense. */
  lemma ShieldedAccumulates(d: PieceData)
    ensures AmbientPiece(AmbientPiece(d, "Shielded"), "Shielded").defense == d.defense + 4
  {
  }

  // ---------------------------------------------------------------------
  // ApplyTileEntryEffect

  /** The tags the on-entry switch has a case for. */
  predicate EntryTag(effect: string) {
    effect in {"Spiked", "Warp", "Frozen"}
  }

  /**
   * The piece after the on-entry switch at `position`. Warp relocates it to
   * `warpTo`, the tile GetRandomSafeTile chose (Board.MovePiece is assumed to
   * set the Position and nothing else).
   */
  function EntryPiece(d: PieceData, position: string, effect: string, warpTo: string): (r: PieceData)
    ensures !EntryTag(effect) ==> r == d
    ensures r.(health := d.health, speed := d.speed, position := d.position) == d
  {
    match effect
    case "Spiked" => d.(health := d.health - 5)
    case "Warp" => d.(position := warpTo)
    case "Frozen" => d.(speed := Max(1, d.speed - 1))
    case _ => d
  }

  function EntryLog(d: PieceData, position: string, effect: string, warpTo: string): (r: seq<Event>)
    ensures |r| == if EntryTag(effect) then 1 else 0
  {
    match effect
    case "Spiked" => [EntryTile(d.team, d.id, effect, position)]
    case "Warp" => [Warped(d.team, d.id, position, warpTo)]
    case "Frozen" => [EntryTile(d.team, d.id, effect, position)]
    case _ => []
  }

  /** Spiked costs 5 Health, unclamped; Frozen never takes Speed below 1 and lowers a Speed above 1 by one. */
  lemma EntryStats(d: PieceData, position: string, warpTo: string)
    ensures EntryPiece(d, position, "Spiked", warpTo).health == d.health - 5
    ensures EntryPiece(d, position, "Frozen", warpTo).speed >= 1
    ensures d.speed > 1 ==> EntryPiece(d, position, "Frozen", warpTo).speed == d.speed - 1
    ensures EntryPiece(d, position, "Warp", warpTo).position == warpTo
  {
  }

  // ---------------------------------------------------------------------
  // ApplyStartOfTurnEffects and ApplyOnEntryEffects: TryGetValue, then the switch

  function StartOfTurnPiece(effects: map<string, string>, d: PieceData): (r: PieceData)
    ensures d.position !in effects ==> r == d
  {
    if d.position in effects then AmbientPiece(d, effects[d.position]) else d
  }

  function StartOfTurnLog(effects: map<string, string>, d: PieceData): (r: seq<Event>)
    ensures d.position !in effects ==> r == []
  {
    if d.position in effects then AmbientLog(d, effects[d.position]) else []
  }

  function OnEntryPiece(effects: map<string, string>, d: PieceData, newPosition: string, warpTo: string): (r: PieceData)
    ensures newPosition !in effects ==> r == d
  {
    if newPosition in effects then EntryPiece(d, newPosition, effects[newPosition], warpTo) else d
  }

  function OnEntryLog(effects: map<string, string>, d: PieceData, newPosition: string, warpTo: string): (r: seq<Event>)
    ensures newPosition !in effects ==> r == []
  {
    if newPosition in effects then EntryLog(d, newPosition, effects[newPosition], warpTo) else []
  }

  // ---------------------------------------------------------------------
  // GetRandomSafeTile

  /** No piece of the list stands on the tile. */
  predicate Vacant(ps: seq<PieceData>, tile: string) {
    forall k :: 0 <= k < |ps| ==> ps[k].position != tile
  }

  /** tiles.Where(tile => !Pieces.Any(p => p.Position == tile)), in order. */
  function VacantAmong(ps: seq<PieceData>, tiles: seq<string>): (r: seq<string>)
    ensures forall t :: t in r <==> t in tiles && Vacant(ps, t)
    ensures |r| <= |tiles|
  {
    if tiles == [] then []
    else
      var rest := VacantAmong(ps, tiles[1..]);
      assert forall t :: t in tiles <==> t == tiles[0] || t in tiles[1..];
      if Vacant(ps, tiles[0]) then [tiles[0]] + rest else rest
  }

  /** The empty squares of the board, A1..H8 rank by rank. */
  function EmptyTiles(ps: seq<PieceData>): (r: seq<string>)
    ensures forall t :: t in r <==> ValidLabel(t) && Vacant(ps, t)
  {
    forall t ensures t in AllLabels() <==> ValidLabel(t) {
      AllLabelsExactlyValid(t);
    }
    VacantAmong(ps, AllLabels())
  }

  /**
   * GetRandomSafeTile: the empty tile at the random index, or "A1" when every
   * tile is taken. rand.Next(n) is the oracle `draw`, reduced modulo n.
   */
  function RandomSafeTile(ps: seq<PieceData>, draw: nat): (r: string)
    ensures ValidLabel(r)
    ensures EmptyTiles(ps) != [] ==> r in EmptyTiles(ps) && Vacant(ps, r)
    ensures EmptyTiles(ps) == [] ==> r == "A1"
  {
    var empty := EmptyTiles(ps);
    if |empty| > 0 then
      assert empty[draw % |empty|] in empty;
      empty[draw % |empty|]
    else "A1"
  }

  /** Every empty tile is the warp target of some draw. */
  lemma EveryEmptyTileReachable(ps: seq<PieceData>, t: string)
    requires ValidLabel(t) && Vacant(ps, t)
    ensures exists draw: nat :: RandomSafeTile(ps, draw) == t
  {
    var empty := EmptyTiles(ps);
    assert t in empty;
    var j :| 0 <= j < |empty| && empty[j] == t;
    DrawPicks(ps, j);
  }

  /** A draw below the number of empty tiles picks the empty tile of that index. */
  lemma DrawPicks(ps: seq<PieceData>, j: nat)
    requires j < |EmptyTiles(ps)|
    ensures RandomSafeTile(ps, j) == EmptyTiles(ps)[j]
  {
    assert j % |EmptyTiles(ps)| == j;
  }

  /** GenerateAllBoardTiles: rank 1..8, and within a rank the files A..H. */
  method GenerateAllBoardTiles() returns (allTiles: seq<string>)
    ensures allTiles == AllLabels()
  {
    allTiles := [];
    var files := "ABCDEFGH";
    var rank := 1;
    while rank <= 8
      invariant 1 <= rank <= 9
      invariant allTiles == AllLabels()[..(rank - 1) * 8]
    {
      var f := 0;
      while f < |files|
        invariant 0 <= f <= 8
        invariant allTiles == AllLabels()[..(rank - 1) * 8 + f]
      {
        assert AllLabels()[(rank - 1) * 8 + f] == [files[f], (48 + rank) as char];
        allTiles := allTiles + [[files[f], (48 + rank) as char]];
        f := f + 1;
      }
      rank := rank + 1;
    }
  }

  // ---------------------------------------------------------------------
  // ApplyEffectsToAllPieces

  /**
   * The foreach over Pieces.Where(Health > 0) as far as piece n. The filter
   * is tested on the current board, but each visit changes only the piece
   * visited, so this is the filter on the board as it was (AmbientAllEffect).
   */
  function AmbientUpTo(effects: map<string, string>, w: World, n: nat): (r: World)
    requires n <= |w.pieces|
    ensures |r.pieces| == |w.pieces| && w.log <= r.log
  {
    if n == 0 then w
    else
      var prev := AmbientUpTo(effects, w, n - 1);
      AmbientVisit(effects, prev, n - 1)
  }

  /** One visit: a living piece on a tagged tile gets the ambient effect. */
  function AmbientVisit(effects: map<string, string>, w: World, k: nat): (r: World)
    requires k < |w.pieces|
    ensures |r.pieces| == |w.pieces| && w.log <= r.log
  {
    var d := w.pieces[k];
    if d.health > 0 then World(w.pieces[k := StartOfTurnPiece(effects, d)], w.log + StartOfTurnLog(effects, d))
    else w
  }

  function AmbientAll(effects: map<string, string>, w: World): (r: World)
    ensures |r.pieces| == |w.pieces| && w.log <= r.log
  {
    AmbientUpTo(effects, w, |w.pieces|)
  }

  /** The ambient table reaches each living piece once and no other piece. */
  lemma {:induction false} AmbientUpToEffect(effects: map<string, string>, w: World, n: nat)
    requires n <= |w.pieces|
    ensures var r := AmbientUpTo(effects, w, n);
            forall k :: 0 <= k < |w.pieces| ==>
              r.pieces[k] == if k < n && w.pieces[k].health > 0 then StartOfTurnPiece(effects, w.pieces[k]) else w.pieces[k]
  {
    if n > 0 {
      AmbientUpToEffect(effects, w, n - 1);
    }
  }

  lemma AmbientAllEffect(effects: map<string, string>, w: World)
    ensures var r := AmbientAll(effects, w);
            forall k :: 0 <= k < |w.pieces| ==>
              r.pieces[k] == if w.pieces[k].health > 0 then StartOfTurnPiece(effects, w.pieces[k]) else w.pieces[k]
  {
    AmbientUpToEffect(effects, w, |w.pieces|);
  }

  /** With no tagged tile nothing changes at all. */
  lemma {:induction false} NoTagsNoChange(w: World, n: nat)
    requires n <= |w.pieces|
    ensures AmbientUpTo(map[], w, n) == w
  {
    if n > 0 {
      NoTagsNoChange(w, n - 1);
      assert w.pieces[n - 1 := w.pieces[n - 1]] == w.pieces;
    }
  }

  // ---------------------------------------------------------------------
  // The manager

  class TileEffectManager {
    const board: Board
    var tileEffects: map<string, string>

    constructor (b: Board)
      ensures board == b && tileEffects == map[]
    {
      board := b;
      tileEffects := map[];
    }

    /** ApplyTileEffect: the ambient switch on one piece. */
    method ApplyTileEffect(piece: Piece, effect: string)
      modifies piece, board
      ensures piece.Data() == AmbientPiece(old(piece.Data()), effect)
      ensures board.pieces == old(board.pieces)
      ensures board.turnHistory == old(board.turnHistory) + AmbientLog(old(piece.Data()), effect)
    {
      var ev := AmbientTile(piece.team, piece.id, effect, piece.position);
      match effect
      case "Burning" =>
        piece.health := piece.health - 5;
        board.LogTurn(ev);
      case "Healing" =>
        piece.health := piece.health + 3;
        board.LogTurn(ev);
      case "Poisoned" =>
        piece.health := piece.health - 3;
        board.LogTurn(ev);
      case "Energized" =>
        piece.energy := Min(piece.energy + 1, 10);
        board.LogTurn(ev);
      case "Shielded" =>
        piece.defense := piece.defense + 2;
        board.LogTurn(ev);
      case "Cursed" =>
        piece.energyCostModifier := 1;
        board.LogTurn(ev);
      case "Blessed" =>
        piece.energyCostModifier := -1;
        board.LogTurn(ev);
      case _ =>
    }

    /** ApplyTileEntryEffect at `position`; the Warp target is drawn from the board as it stands. */
    method ApplyTileEntryEffect(piece: Piece, position: string, effect: string, draw: nat)
      modifies piece, board
      ensures piece.Data() == EntryPiece(old(piece.Data()), position, effect, RandomSafeTile(old(board.View()), draw))
      ensures board.pieces == old(board.pieces)
      ensures board.turnHistory ==
                old(board.turnHistory) + EntryLog(old(piece.Data()), position, effect, RandomSafeTile(old(board.View()), draw))
    {
      match effect
      case "Spiked" =>
        piece.health := piece.health - 5;
        board.LogTurn(EntryTile(piece.team, piece.id, effect, position));
      case "Warp" =>
        var randomTile := GetRandomSafeTile(draw);
        board.LogTurn(Warped(piece.team, piece.id, position, randomTile));
        piece.position := randomTile;
      case "Frozen" =>
        piece.speed := Max(1, piece.speed - 1);
        board.LogTurn(EntryTile(piece.team, piece.id, effect, position));
      case _ =>
    }

    /** ApplyStartOfTurnEffects: the ambient effect of the piece's own tile, if it has one. */
    method ApplyStartOfTurnEffects(piece: Piece)
      modifies piece, board
      ensures piece.Data() == StartOfTurnPiece(tileEffects, old(piece.Data()))
      ensures board.pieces == old(board.pieces)
      ensures board.turnHistory == old(board.turnHistory) + StartOfTurnLog(tileEffects, old(piece.Data()))
    {
      if piece.position in tileEffects {
        ApplyTileEffect(piece, tileEffects[piece.position]);
      }
    }

    /** ApplyOnEntryEffects: the on-entry effect of the tile being entered, if it has one. */
    method ApplyOnEntryEffects(piece: Piece, newPosition: string, draw: nat)
      modifies piece, board
      ensures piece.Data() == OnEntryPiece(tileEffects, old(piece.Data()), newPosition, RandomSafeTile(old(board.View()), draw))
      ensures board.pieces == old(board.pieces)
      ensures board.turnHistory ==
                old(board.turnHistory) + OnEntryLog(tileEffects, old(piece.Data()), newPosition, RandomSafeTile(old(board.View()), draw))
    {
      if newPosition in tileEffects {
        ApplyTileEntryEffect(piece, newPosition, tileEffects[newPosition], draw);
      }
    }

    /** GetRandomSafeTile over the board's pieces. */
    method GetRandomSafeTile(draw: nat) returns (tile: string)
      ensures tile == RandomSafeTile(board.View(), draw)
    {
      var allTiles := GenerateAllBoardTiles();
      var emptyTiles := VacantAmong(board.View(), allTiles);
      if |emptyTiles| > 0 {
        tile := emptyTiles[draw % |emptyTiles|];
      } else {
        tile := "A1";
      }
    }

    /** SetTileEffect: one key overwritten, one entry logged. */
    method SetTileEffect(position: string, effect: string)
      modifies this, board
      ensures tileEffects == old(tileEffects)[position := effect]
      ensures board.pieces == old(board.pieces) && board.turnHistory == old(board.turnHistory) + [TileSet(position, effect)]
    {
      tileEffects := tileEffects[position := effect];
      board.LogTurn(TileSet(position, effect));
    }

    /** ClearTileEffect: the key removed and an entry logged, only when it is present. */
    method ClearTileEffect(position: string)
      modifies this, board
      ensures tileEffects == old(tileEffects) - {position}
      ensures board.pieces == old(board.pieces)
      ensures board.turnHistory == old(board.turnHistory) + if position in old(tileEffects) then [TileCleared(position)] else []
    {
      if position in tileEffects {
        tileEffects := tileEffects - {position};
        board.LogTurn(TileCleared(position));
      }
    }

    /**
     * ApplyEffectsToAllPieces(board): the pieces are those of the argument,
     * the log entries go to the manager's own board.
     */
    method ApplyEffectsToAllPieces(other: Board)
      requires other.Valid()
      modifies other.pieces, board
      ensures other.pieces == old(other.pieces) && board.pieces == old(board.pieces)
      ensures World(other.View(), board.turnHistory) == AmbientAll(tileEffects, World(old(other.View()), old(board.turnHistory)))
    {
      ghost var w := World(other.View(), board.turnHistory);
      var k := 0;
      while k < |other.pieces|
        invariant 0 <= k <= |other.pieces| == |w.pieces|
        invariant other.pieces == old(other.pieces) && board.pieces == old(board.pieces)
        invariant World(other.View(), board.turnHistory) == AmbientUpTo(tileEffects, w, k)
      {
        AmbientNext(other, w, k);
        k := k + 1;
      }
    }

    /** Visit k of ApplyEffectsToAllPieces extends the fold by one piece. */
    method AmbientNext(other: Board, ghost w: World, k: nat)
      requires other.Valid() && k < |other.pieces| == |w.pieces|
      requires World(other.View(), board.turnHistory) == AmbientUpTo(tileEffects, w, k)
      modifies other.pieces, board
      ensures other.pieces == old(other.pieces) && board.pieces == old(board.pieces)
      ensures World(other.View(), board.turnHistory) == AmbientUpTo(tileEffects, w, k + 1)
    {
      ghost var before := World(other.View(), board.turnHistory);
      var piece := other.pieces[k];
      assert before.pieces[k] == piece.Data();
      if piece.health > 0 {
        ApplyStartOfTurnEffects(piece);
        assert other.View() == before.pieces[k := StartOfTurnPiece(tileEffects, before.pieces[k])];
      }
      assert AmbientUpTo(tileEffects, w, k + 1) == AmbientVisit(tileEffects, before, k);
    }
  }
}
