/**
 * Board.cs as a class: a list of mutable Piece objects and the turn history.
 * Each operation changes fields of the pieces in place and appends to the
 * history, and is proved to have exactly the effect of the function of the
 * same name in BoardRules or Progression on the board's value State().
 * The pieces are assumed to be distinct objects (Valid): the C# code never
 * adds one object twice. The queries (win condition, adjacency, threat,
 * closest safe tile) are the BoardState and BoardRules functions read on
 * View().
 */
module GameBoard {
  import opened Wrappers
  import opened Pieces
  import opened Log
  import opened Squares
  import opened Numbers
  import opened BoardState
  import opened BoardRules
  import opened Progression
  import MonsterDatabase
  import MovementValidator

  class Board {
    var pieces: seq<Piece>
    var turnHistory: seq<Event>

    /** No Piece object occurs twice in the list. */
    ghost predicate Valid()
      reads this
    {
      forall i, j :: 0 <= i < |pieces| && 0 <= j < |pieces| && pieces[i] == pieces[j] ==> i == j
    }

    /** The field values of every piece, in list order. */
    function View(): seq<PieceData>
      reads this, pieces
    {
      seq(|pieces|, k reads this, pieces requires 0 <= k < |pieces| => pieces[k].Data())
    }

    function State(): World
      reads this, pieces
    {
      World(View(), turnHistory)
    }

    constructor (ps: seq<Piece>)
      requires forall i, j :: 0 <= i < |ps| && 0 <= j < |ps| && ps[i] == ps[j] ==> i == j
      ensures Valid() && pieces == ps && turnHistory == []
    {
      pieces := ps;
      turnHistory := [];
    }

    /** LogTurn: the message is appended to TurnHistory (the console echo is not modelled). */
    method LogTurn(e: Event)
      modifies this
      ensures pieces == old(pieces) && State() == Append(old(State()), e)
    {
      turnHistory := turnHistory + [e];
    }

    // -------------------------------------------------------------------
    // Property setters of the piece at index i

    method WriteHealth(p: Piece, ghost i: nat, v: int)
      requires Valid() && i < |pieces| && pieces[i] == p
      modifies p
      ensures State() == SetHealth(old(State()), i, v)
    {
      p.health := v;
    }

    method WriteAttack(p: Piece, ghost i: nat, v: int)
      requires Valid() && i < |pieces| && pieces[i] == p
      modifies p
      ensures State() == SetAttack(old(State()), i, v)
    {
      p.attack := v;
    }

    method WriteDefense(p: Piece, ghost i: nat, v: int)
      requires Valid() && i < |pieces| && pieces[i] == p
      modifies p
      ensures State() == SetDefense(old(State()), i, v)
    {
      p.defense := v;
    }

    method WriteSpeed(p: Piece, ghost i: nat, v: int)
      requires Valid() && i < |pieces| && pieces[i] == p
      modifies p
      ensures State() == SetSpeed(old(State()), i, v)
    {
      p.speed := v;
    }

    method WriteEnergy(p: Piece, ghost i: nat, v: int)
      requires Valid() && i < |pieces| && pieces[i] == p
      modifies p
      ensures State() == SetEnergy(old(State()), i, v)
    {
      p.energy := v;
    }

    method WriteDamageDealt(p: Piece, ghost i: nat, v: int)
      requires Valid() && i < |pieces| && pieces[i] == p
      modifies p
      ensures State() == SetDamageDealt(old(State()), i, v)
    {
      p.totalDamageDealt := v;
    }

    method WriteKills(p: Piece, ghost i: nat, v: int)
      requires Valid() && i < |pieces| && pieces[i] == p
      modifies p
      ensures State() == SetKills(old(State()), i, v)
    {
      p.totalKills := v;
    }

    method WriteLevel(p: Piece, ghost i: nat, v: int)
      requires Valid() && i < |pieces| && pieces[i] == p
      modifies p
      ensures State() == SetLevel(old(State()), i, v)
    {
      p.level := v;
    }

    method WriteExperience(p: Piece, ghost i: nat, v: int)
      requires Valid() && i < |pieces| && pieces[i] == p
      modifies p
      ensures State() == SetExperience(old(State()), i, v)
    {
      p.experience := v;
    }

    method WriteUnlocked(p: Piece, ghost i: nat, v: bool)
      requires Valid() && i < |pieces| && pieces[i] == p
      modifies p
      ensures State() == SetUnlocked(old(State()), i, v)
    {
      p.ultimateUnlocked := v;
    }

    method WriteCharge(p: Piece, ghost i: nat, v: int)
      requires Valid() && i < |pieces| && pieces[i] == p
      modifies p
      ensures State() == SetCharge(old(State()), i, v)
    {
      p.ultimateCharge := v;
    }

    method WriteModifier(p: Piece, ghost i: nat, v: int)
      requires Valid() && i < |pieces| && pieces[i] == p
      modifies p
      ensures State() == SetModifier(old(State()), i, v)
    {
      p.energyCostModifier := v;
    }

    method WritePosition(p: Piece, ghost i: nat, v: string)
      requires Valid() && i < |pieces| && pieces[i] == p
      modifies p
      ensures State() == SetPosition(old(State()), i, v)
    {
      p.position := v;
    }

    /** The ten assignments of EvolvePiece. */
    method WriteTemplate(p: Piece, ghost i: nat, t: PieceData)
      requires Valid() && i < |pieces| && pieces[i] == p
      modifies p
      ensures State() == Become(old(State()), i, t)
    {
      ghost var w := State();
      assert w.pieces[i] == p.Data();
      WriteIdentity(p, i, t);
      assert State().pieces[i] == p.Data();
      WriteKit(p, i, t);
      assert State().pieces[i] == w.pieces[i].(id := t.id, pieceType := t.pieceType, health := t.health,
                                              attack := t.attack, defense := t.defense, speed := t.speed,
                                              ability := t.ability, passive := t.passive, ultimate := t.ultimate,
                                              pack := t.pack);
    }

    method WriteIdentity(p: Piece, ghost i: nat, t: PieceData)
      requires Valid() && i < |pieces| && pieces[i] == p
      modifies p
      ensures State() == Put(old(State()), i, old(p.Data()).(id := t.id, pieceType := t.pieceType,
                                                             health := t.health, attack := t.attack, defense := t.defense))
    {
      p.id := t.id;
      p.pieceType := t.pieceType;
      p.health := t.health;
      p.attack := t.attack;
      p.defense := t.defense;
    }

    method WriteKit(p: Piece, ghost i: nat, t: PieceData)
      requires Valid() && i < |pieces| && pieces[i] == p
      modifies p
      ensures State() == Put(old(State()), i, old(p.Data()).(speed := t.speed, ability := t.ability,
                                                             passive := t.passive, ultimate := t.ultimate, pack := t.pack))
    {
      p.speed := t.speed;
      p.ability := t.ability;
      p.passive := t.passive;
      p.ultimate := t.ultimate;
      p.pack := t.pack;
    }

    // -------------------------------------------------------------------
    // DamagePiece

    method HitPiece(attacker: Piece, target: Piece, damage: int, a: nat, t: nat)
      requires Valid() && a < |pieces| && t < |pieces| && pieces[a] == attacker && pieces[t] == target
      modifies this, attacker, target
      ensures pieces == old(pieces) && State() == Hit(old(State()), a, t, damage)
    {
      ghost var w := State();
      WriteHealth(target, t, target.health - damage);
      ghost var w1 := State();
      assert w1 == SetHealth(w, t, w.pieces[t].health - damage);
      WriteDamageDealt(attacker, a, attacker.totalDamageDealt + damage);
      assert State() == SetDamageDealt(w1, a, w1.pieces[a].totalDamageDealt + damage);
      LogTurn(Dealt(attacker.team, attacker.id, damage, target.team, target.id));
      assert State() == Hit(w, a, t, damage);
    }

    method EliminatePiece(attacker: Piece, target: Piece, a: nat, t: nat)
      requires Valid() && a < |pieces| && t < |pieces| && pieces[a] == attacker && pieces[t] == target
      modifies this, attacker, target
      ensures pieces == old(pieces) && State() == Eliminate(old(State()), a, t)
    {
      ghost var w := State();
      WriteHealth(target, t, 0);
      ghost var w1 := State();
      assert w1 == SetHealth(w, t, 0);
      WriteKills(attacker, a, attacker.totalKills + 1);
      assert State() == SetKills(w1, a, w1.pieces[a].totalKills + 1);
      LogTurn(Eliminated(target.team, target.id, attacker.team, attacker.id));
      assert State() == Eliminate(w, a, t);
    }

    /** DamagePiece (Board.cs and CombatManager.cs). */
    method DamagePiece(attacker: Piece, target: Piece, damage: int, a: nat, t: nat)
      requires Valid() && a < |pieces| && t < |pieces| && pieces[a] == attacker && pieces[t] == target
      modifies this, attacker, target
      ensures pieces == old(pieces) && State() == Damage(old(State()), a, t, damage)
    {
      HitPiece(attacker, target, damage, a, t);
      assert View()[t] == target.Data();
      if target.health <= 0 {
        EliminatePiece(attacker, target, a, t);
      }
    }

    // -------------------------------------------------------------------
    // DamageNearbyEnemy, DamageNearbyEnemies and the ally loops

    /** Board.DamageNearbyEnemy: Pieces.FirstOrDefault(other team and adjacent). */
    method DamageNearbyEnemy(attacker: Piece, damage: int, a: nat)
      requires Valid() && a < |pieces| && pieces[a] == attacker && Placed(View())
      modifies this, pieces
      ensures pieces == old(pieces) && State() == BoardRules.DamageNearbyEnemy(old(State()), a, damage)
    {
      var enemy := FirstEnemy(View(), a);
      if enemy.Some? {
        DamagePiece(attacker, pieces[enemy.value], damage, a, enemy.value);
      }
    }

    /** Board.DamageNearbyEnemies: the targets are fixed first, then hit in order. */
    method DamageNearbyEnemies(attacker: Piece, damage: int, maxTargets: int, a: nat)
      requires Valid() && a < |pieces| && pieces[a] == attacker && Placed(View())
      modifies this, pieces
      ensures pieces == old(pieces) && State() == BoardRules.DamageNearbyEnemies(old(State()), a, damage, maxTargets)
    {
      var enemies := NearbyTargets(View(), a, maxTargets);
      DamageTargets(attacker, a, enemies, damage);
    }

    /** The loop of DamageNearbyEnemies: each fixed target is hit once, in order. */
    method DamageTargets(attacker: Piece, a: nat, enemies: seq<nat>, damage: int)
      requires Valid() && a < |pieces| && pieces[a] == attacker && InBounds(enemies, |pieces|)
      modifies this, pieces
      ensures pieces == old(pieces) && State() == DamageFold(old(State()), a, enemies, damage)
    {
      ghost var w := State();
      var j := 0;
      while j < |enemies|
        invariant 0 <= j <= |enemies|
        invariant pieces == old(pieces) && Valid() && |w.pieces| == |pieces|
        invariant State() == DamageFold(w, a, enemies[..j], damage)
      {
        DamageNext(attacker, w, a, enemies, j, damage);
        j := j + 1;
      }
      assert enemies[..|enemies|] == enemies;
    }

    /** The j-th hit of DamageNearbyEnemies extends the fold by one step. */
    method DamageNext(attacker: Piece, ghost w: World, a: nat, enemies: seq<nat>, j: nat, damage: int)
      requires Valid() && |w.pieces| == |pieces| && a < |pieces| && pieces[a] == attacker
      requires InBounds(enemies, |pieces|) && j < |enemies|
      requires State() == DamageFold(w, a, enemies[..j], damage)
      modifies this, pieces
      ensures pieces == old(pieces) && State() == DamageFold(w, a, enemies[..j + 1], damage)
    {
      ghost var before := State();
      DamagePiece(attacker, pieces[enemies[j]], damage, a, enemies[j]);
      assert State() == Damage(before, a, enemies[j], damage);
      DamageFoldNext(w, a, enemies, j, damage);
    }

    /** One visit of an ally loop; the acting piece's Team and Id are read once before the loop. */
    method AuraVisit(team: string, id: string, ghost src: PieceData, ally: Piece, ghost k: nat, aura: Aura)
      requires Valid() && k < |pieces| && pieces[k] == ally && src.team == team && src.id == id
      modifies this, ally
      ensures pieces == old(pieces) && State() == AuraStep(old(State()), src, k, aura)
    {
      match aura
      case BoardBoost(atk, spd) => BoostVisit(team, id, src, ally, k, atk, spd, false);
      case ManagerBoost(atk, spd) => BoostVisit(team, id, src, ally, k, atk, spd, true);
      case WardHeal(h) =>
        assert State().pieces[k] == ally.Data();
        WriteHealth(ally, k, ally.health + h);
        LogTurn(WaterWard(team, id, ally.team, ally.id, h));
      case PresenceBoost(atk) =>
        assert State().pieces[k] == ally.Data();
        WriteAttack(ally, k, ally.attack + atk);
        LogTurn(CommandingPresence(team, id, ally.team, ally.id, atk));
    }

    /** The loop body of both BoostNearbyAllies; they differ only in the entry they log. */
    method BoostVisit(team: string, id: string, ghost src: PieceData, ally: Piece, ghost k: nat,
                      attackBoost: int, speedBoost: int, byManager: bool)
      requires Valid() && k < |pieces| && pieces[k] == ally && src.team == team && src.id == id
      modifies this, ally
      ensures pieces == old(pieces)
      ensures State() == AuraStep(old(State()), src, k,
                                  if byManager then ManagerBoost(attackBoost, speedBoost) else BoardBoost(attackBoost, speedBoost))
    {
      BoostStats(ally, k, attackBoost, speedBoost);
      if byManager {
        LogTurn(Boosts(team, id, ally.team, ally.id, attackBoost, speedBoost));
      } else {
        LogTurn(Gains(ally.team, ally.id, attackBoost, speedBoost));
      }
    }

    /** The two stat writes of a boost: Attack, then Speed. */
    method BoostStats(ally: Piece, ghost k: nat, attackBoost: int, speedBoost: int)
      requires Valid() && k < |pieces| && pieces[k] == ally
      modifies this, ally
      ensures pieces == old(pieces) && turnHistory == old(turnHistory)
      ensures View() == old(View())[k := old(View())[k].(attack := old(View())[k].attack + attackBoost,
                                                         speed := old(View())[k].speed + speedBoost)]
    {
      ghost var w := State();
      assert w.pieces[k] == ally.Data();
      WriteAttack(ally, k, ally.attack + attackBoost);
      WriteSpeed(ally, k, ally.speed + speedBoost);
      assert State() == SetSpeed(SetAttack(w, k, w.pieces[k].attack + attackBoost), k, w.pieces[k].speed + speedBoost);
    }

    /** The ally loops: Pieces.Where(same team and adjacent).ToList(), then one visit each. */
    method VisitAllies(piece: Piece, i: nat, aura: Aura)
      requires Valid() && i < |pieces| && pieces[i] == piece && Placed(View())
      modifies this, pieces
      ensures pieces == old(pieces) && State() == AuraOverAllies(old(State()), i, aura)
    {
      ghost var src := State().pieces[i];
      var team, id := piece.team, piece.id;
      var allies := Allies(View(), i);
      VisitEach(team, id, src, allies, aura);
    }

    /** The loop of an ally visit: each listed ally gets one visit, in order. */
    method VisitEach(team: string, id: string, ghost src: PieceData, allies: seq<nat>, aura: Aura)
      requires Valid() && InBounds(allies, |pieces|) && src.team == team && src.id == id
      modifies this, pieces
      ensures pieces == old(pieces) && State() == AuraFold(old(State()), src, allies, aura)
    {
      ghost var w := State();
      var j := 0;
      while j < |allies|
        invariant 0 <= j <= |allies|
        invariant pieces == old(pieces) && Valid() && |w.pieces| == |pieces|
        invariant State() == AuraFold(w, src, allies[..j], aura)
      {
        VisitNext(team, id, w, src, allies, j, aura);
        j := j + 1;
      }
      assert allies[..|allies|] == allies;
    }

    /** The j-th visit of an ally loop extends the fold by one step. */
    method VisitNext(team: string, id: string, ghost w: World, ghost src: PieceData, allies: seq<nat>, j: nat, aura: Aura)
      requires Valid() && |w.pieces| == |pieces| && InBounds(allies, |pieces|) && j < |allies|
      requires src.team == team && src.id == id
      requires State() == AuraFold(w, src, allies[..j], aura)
      modifies this, pieces
      ensures pieces == old(pieces) && State() == AuraFold(w, src, allies[..j + 1], aura)
    {
      ghost var before := State();
      AuraVisit(team, id, src, pieces[allies[j]], allies[j], aura);
      assert State() == AuraStep(before, src, allies[j], aura);
      AuraFoldNext(w, src, allies, j, aura);
    }

    method BoostNearbyAllies(piece: Piece, attackBoost: int, speedBoost: int, i: nat)
      requires Valid() && i < |pieces| && pieces[i] == piece && Placed(View())
      modifies this, pieces
      ensures pieces == old(pieces) && State() == BoardRules.BoostNearbyAllies(old(State()), i, attackBoost, speedBoost)
    {
      VisitAllies(piece, i, BoardBoost(attackBoost, speedBoost));
    }

    method HealAdjacentAllies(piece: Piece, healAmount: int, i: nat)
      requires Valid() && i < |pieces| && pieces[i] == piece && Placed(View())
      modifies this, pieces
      ensures pieces == old(pieces) && State() == AuraOverAllies(old(State()), i, WardHeal(healAmount))
    {
      VisitAllies(piece, i, WardHeal(healAmount));
    }

    method BoostAdjacentAllies(piece: Piece, attackBoost: int, i: nat)
      requires Valid() && i < |pieces| && pieces[i] == piece && Placed(View())
      modifies this, pieces
      ensures pieces == old(pieces) && State() == AuraOverAllies(old(State()), i, PresenceBoost(attackBoost))
    {
      VisitAllies(piece, i, PresenceBoost(attackBoost));
    }

    /** Board.ApplyAbilityEffect. */
    method ApplyAbilityEffect(piece: Piece, abilityName: string, i: nat)
      requires Valid() && i < |pieces| && pieces[i] == piece && Placed(View())
      modifies this, pieces
      ensures pieces == old(pieces) && State() == AbilityEffect(old(State()), i, abilityName)
    {
      if abilityName == "Shock Pulse" {
        DamageNearbyEnemy(piece, 5, i);
      } else if abilityName == "Blitz Protocol" {
        ghost var w := State();
        assert w.pieces[i] == piece.Data();
        WriteAttack(piece, i, piece.attack + 5);
        LogTurn(BlitzActivated(piece.team, piece.id));
      } else if abilityName == "Overdrive Command" {
        BoostNearbyAllies(piece, 5, 2, i);
      } else {
        assert View()[i] == piece.Data();
        LogTurn(NoEffect(piece.team, piece.id, abilityName));
      }
    }

    // -------------------------------------------------------------------
    // PerformHitAndRetreat

    method PerformHitAndRetreat(attacker: Piece, target: Piece, a: nat, t: nat)
      requires Valid() && a < |pieces| && t < |pieces| && pieces[a] == attacker && pieces[t] == target
      requires Placed(View())
      modifies this, pieces
      ensures pieces == old(pieces) && State() == HitAndRetreat(old(State()), a, t)
    {
      ghost var w := State();
      assert w.pieces[a] == attacker.Data();
      DamagePiece(attacker, target, attacker.attack, a, t);
      ghost var w1 := State();
      KeepsPlaced(w, w1);
      assert w1.pieces[a] == attacker.Data() && w1.pieces[t] == target.Data();
      if target.health > 0 {
        var retreatTile := ClosestSafeTile(View(), a);
        LogTurn(Retreats(attacker.team, attacker.id, target.team, target.id, retreatTile));
        WritePosition(attacker, a, retreatTile);
      } else {
        LogTurn(Captures(attacker.team, attacker.id, target.team, target.id));
        WritePosition(attacker, a, target.position);
      }
      assert State() == HitAndRetreat(w, a, t);
    }

    // -------------------------------------------------------------------
    // ApplySynergyBonuses

    /**
     * The pack counts are taken from the pieces as they are before the loop
     * (the dictionary built first), PackCount over that snapshot.
     */
    method ApplySynergyBonuses()
      requires Valid()
      modifies this, pieces
      ensures pieces == old(pieces) && State() == BoardRules.ApplySynergyBonuses(old(State()))
    {
      var snapshot := View();
      SynergyLoop(snapshot);
    }

    /** The loop of ApplySynergyBonuses over the pieces, with the counts of the snapshot. */
    method SynergyLoop(snapshot: seq<PieceData>)
      requires Valid()
      modifies this, pieces
      ensures pieces == old(pieces) && State() == SynergyUpTo(old(State()), snapshot, |pieces|)
    {
      ghost var w := State();
      var k := 0;
      while k < |pieces|
        invariant 0 <= k <= |pieces| && pieces == old(pieces) && Valid() && |w.pieces| == |pieces|
        invariant State() == SynergyUpTo(w, snapshot, k)
      {
        SynergyNext(snapshot, w, k);
        k := k + 1;
      }
    }

    /** The k-th visit of the synergy loop: a piece of a pack counted three times gets its bonus. */
    method SynergyNext(snapshot: seq<PieceData>, ghost w: World, k: nat)
      requires Valid() && |w.pieces| == |pieces| && k < |pieces|
      requires State() == SynergyUpTo(w, snapshot, k)
      modifies this, pieces
      ensures pieces == old(pieces) && State() == SynergyUpTo(w, snapshot, k + 1)
    {
      var piece := pieces[k];
      ghost var before := State();
      assert before.pieces[k] == piece.Data();
      if piece.pack != "" && PackCount(snapshot, piece.pack) >= 3 {
        ApplyPackBonus(piece, piece.pack, k);
        assert State() == PackBonus(before, k);
      } else {
        assert State() == before;
      }
    }

    method ApplyPackBonus(piece: Piece, pack: string, ghost k: nat)
      requires Valid() && k < |pieces| && pieces[k] == piece && piece.pack == pack
      modifies this, piece
      ensures pieces == old(pieces) && State() == PackBonus(old(State()), k)
    {
      assert View()[k] == piece.Data();
      if pack == "Fire Pack" {
        WriteAttack(piece, k, ScalePercent(piece.attack, 105));
      } else if pack == "Cyber Pack" {
        WriteDefense(piece, k, piece.defense + 2);
      } else if pack == "Shadow Pack" {
        WriteSpeed(piece, k, piece.speed + 1);
      }
      assert View()[k] == piece.Data();
      LogTurn(SynergyBonus(piece.team, piece.id, pack));
    }

    // -------------------------------------------------------------------
    // AwardXP, CheckLevelUp, CheckUltimateUnlock, CheckForPieceEvolution, EvolvePiece

    method AwardXP(db: MonsterDatabase.Catalog, piece: Piece, xp: int, ghost i: nat)
      requires Valid() && i < |pieces| && pieces[i] == piece
      modifies this, piece
      ensures pieces == old(pieces) && State() == Progression.AwardXP(db, old(State()), i, xp)
    {
      ghost var w := State();
      assert w.pieces[i] == piece.Data();
      WriteExperience(piece, i, piece.experience + xp);
      ghost var w1 := State();
      assert w1 == SetExperience(w, i, w.pieces[i].experience + xp);
      CheckLevelUp(db, piece, i);
      assert State() == Progression.CheckLevelUp(db, w1, i);
    }

    method CheckLevelUp(db: MonsterDatabase.Catalog, piece: Piece, ghost i: nat)
      requires Valid() && i < |pieces| && pieces[i] == piece
      modifies this, piece
      ensures pieces == old(pieces) && State() == Progression.CheckLevelUp(db, old(State()), i)
    {
      ghost var w := State();
      assert w.pieces[i] == piece.Data();
      var requiredXP := XPRequired(piece.level);
      if piece.experience >= requiredXP && piece.level < 10 {
        Promote(piece, requiredXP, i);
        ghost var w1 := SetExperience(SetLevel(w, i, w.pieces[i].level + 1), i, w.pieces[i].experience - requiredXP);
        ghost var w2 := StatBoost(w1, i);
        ghost var w3 := State();
        assert w3 == Append(w2, LeveledUp(w2.pieces[i].team, w2.pieces[i].id, w2.pieces[i].level));
        UnlockAndEvolve(db, piece, i);
        assert Progression.CheckLevelUp(db, w, i) == CheckForEvolution(db, Progression.CheckUltimateUnlock(w3, i), i);
      } else {
        assert State() == w;
      }
    }

    /** The checks that follow a level gained: the ultimate unlock, then evolution. */
    method UnlockAndEvolve(db: MonsterDatabase.Catalog, piece: Piece, ghost i: nat)
      requires Valid() && i < |pieces| && pieces[i] == piece
      modifies this, piece
      ensures pieces == old(pieces) && State() == CheckForEvolution(db, Progression.CheckUltimateUnlock(old(State()), i), i)
    {
      CheckUltimateUnlock(piece, i);
      CheckForPieceEvolution(db, piece, i);
    }

    /** One level gained: the level, the spent experience, the stat boost and the log entry. */
    method Promote(piece: Piece, requiredXP: int, ghost i: nat)
      requires Valid() && i < |pieces| && pieces[i] == piece
      modifies this, piece
      ensures pieces == old(pieces)
      ensures var w1 := SetExperience(SetLevel(old(State()), i, old(piece.level) + 1), i, old(piece.experience) - requiredXP);
              var w2 := StatBoost(w1, i);
              State() == Append(w2, LeveledUp(w2.pieces[i].team, w2.pieces[i].id, w2.pieces[i].level))
    {
      ghost var w := State();
      assert w.pieces[i] == piece.Data();
      WriteLevel(piece, i, piece.level + 1);
      ghost var w1 := State();
      assert w1 == SetLevel(w, i, w.pieces[i].level + 1);
      WriteExperience(piece, i, piece.experience - requiredXP);
      ghost var w2 := State();
      assert w2 == SetExperience(w1, i, w.pieces[i].experience - requiredXP);
      ApplyLevelUpStatBoost(piece, i);
      ghost var w3 := State();
      assert w3 == StatBoost(w2, i);
      assert w3.pieces[i] == piece.Data();
      LogTurn(LeveledUp(piece.team, piece.id, piece.level));
      assert State() == Append(w3, LeveledUp(w3.pieces[i].team, w3.pieces[i].id, w3.pieces[i].level));
    }

    method ApplyLevelUpStatBoost(piece: Piece, ghost i: nat)
      requires Valid() && i < |pieces| && pieces[i] == piece
      modifies piece
      ensures State() == StatBoost(old(State()), i)
    {
      ghost var w := State();
      assert w.pieces[i] == piece.Data();
      WriteHealth(piece, i, ScalePercent(piece.health, 105));
      WriteAttack(piece, i, ScalePercent(piece.attack, 103));
      assert State() == SetAttack(SetHealth(w, i, ScalePercent(w.pieces[i].health, 105)), i, ScalePercent(w.pieces[i].attack, 103));
      WriteDefense(piece, i, ScalePercent(piece.defense, 102));
    }

    method CheckUltimateUnlock(piece: Piece, ghost i: nat)
      requires Valid() && i < |pieces| && pieces[i] == piece
      modifies this, piece
      ensures pieces == old(pieces) && State() == Progression.CheckUltimateUnlock(old(State()), i)
    {
      assert View()[i] == piece.Data();
      if piece.level >= 5 && !piece.ultimateUnlocked {
        WriteUnlocked(piece, i, true);
        assert View()[i] == piece.Data();
        LogTurn(UltimateUnlocked(piece.team, piece.id));
      }
    }

    method CheckForPieceEvolution(db: MonsterDatabase.Catalog, piece: Piece, ghost i: nat)
      requires Valid() && i < |pieces| && pieces[i] == piece
      modifies this, piece
      ensures pieces == old(pieces) && State() == CheckForEvolution(db, old(State()), i)
    {
      assert View()[i] == piece.Data();
      var evolutionStages := MonsterDatabase.Lookup(db.chains, piece.id);
      if evolutionStages.Some? {
        var nextEvolution := FirstStage(evolutionStages.value, piece.level);
        if nextEvolution.Some? && nextEvolution.value != (0, "") {
          EvolvePiece(db, piece, nextEvolution.value.1, i);
        }
      }
    }

    method EvolvePiece(db: MonsterDatabase.Catalog, piece: Piece, evolvedId: string, ghost i: nat)
      requires Valid() && i < |pieces| && pieces[i] == piece
      modifies this, piece
      ensures pieces == old(pieces) && State() == Progression.EvolvePiece(db, old(State()), i, evolvedId)
    {
      var evolvedPiece := MonsterDatabase.Lookup(db.templates, evolvedId);
      if evolvedPiece.None? {
        LogTurn(EvolutionMissing(evolvedId));
        return;
      }
      WriteTemplate(piece, i, evolvedPiece.value);
      assert View()[i] == piece.Data();
      LogTurn(Log.Evolved(piece.team, piece.id, evolvedId));
    }

    // -------------------------------------------------------------------
    // ChargeUltimate and UseUltimateAbility

    method ChargeUltimate(piece: Piece, chargeAmount: int, i: nat)
      requires Valid() && i < |pieces| && pieces[i] == piece && Placed(View())
      modifies this, pieces
      ensures pieces == old(pieces) && State() == BoardRules.ChargeUltimate(old(State()), i, chargeAmount)
    {
      ghost var w := State();
      assert w.pieces[i] == piece.Data();
      if piece.ultimateUnlocked {
        WriteCharge(piece, i, piece.ultimateCharge + chargeAmount);
        ghost var w1 := State();
        assert w1 == SetCharge(w, i, w.pieces[i].ultimateCharge + chargeAmount);
        KeepsPlaced(w, w1);
        FireWhenFull(piece, i);
        assert State() == BoardRules.ChargeUltimate(w, i, chargeAmount);
      } else {
        assert State() == w;
      }
    }

    /** The second half of ChargeUltimate: a gauge at 100 or more fires and empties. */
    method FireWhenFull(piece: Piece, i: nat)
      requires Valid() && i < |pieces| && pieces[i] == piece && Placed(View())
      modifies this, pieces
      ensures pieces == old(pieces)
      ensures State() == if old(piece.ultimateCharge) >= 100 then SetCharge(UseUltimate(old(State()), i), i, 0) else old(State())
    {
      assert View()[i] == piece.Data();
      if piece.ultimateCharge >= 100 {
        Unleash(piece, i);
      }
    }

    /** A full charge fires the ultimate and empties the gauge. */
    method Unleash(piece: Piece, i: nat)
      requires Valid() && i < |pieces| && pieces[i] == piece && Placed(View())
      modifies this, pieces
      ensures pieces == old(pieces) && State() == SetCharge(UseUltimate(old(State()), i), i, 0)
    {
      UseUltimateAbility(piece, i);
      WriteCharge(piece, i, 0);
    }

    method UseUltimateAbility(piece: Piece, i: nat)
      requires Valid() && i < |pieces| && pieces[i] == piece && Placed(View())
      modifies this, pieces
      ensures pieces == old(pieces) && State() == UseUltimate(old(State()), i)
    {
      assert View()[i] == piece.Data();
      LogTurn(UltimateUnleashed(piece.team, piece.id, piece.ultimate));
      ApplyAbilityEffect(piece, piece.ultimate, i);
    }

    // -------------------------------------------------------------------
    // ProcessStartOfTurnEffects and TriggerPiecePassive

    /** The Where filter is lazy: Team and Health are read when the loop reaches the piece. */
    method ProcessStartOfTurnEffects(team: string)
      requires Valid() && Placed(View())
      modifies this, pieces
      ensures pieces == old(pieces) && State() == BoardRules.ProcessStartOfTurnEffects(old(State()), team)
    {
      StartLoop(team);
    }

    /** The loop of ProcessStartOfTurnEffects: one visit per piece, in list order. */
    method StartLoop(team: string)
      requires Valid() && Placed(View())
      modifies this, pieces
      ensures pieces == old(pieces) && State() == StartOfTurnUpTo(old(State()), team, |pieces|)
    {
      ghost var w := State();
      assert Placed(w.pieces);
      var k := 0;
      while k < |pieces|
        invariant pieces == old(pieces) && Valid() && Placed(w.pieces)
        invariant 0 <= k <= |pieces| == |w.pieces|
        invariant State() == StartOfTurnUpTo(w, team, k)
      {
        StartNext(team, w, k);
        k := k + 1;
      }
    }

    /** The k-th visit of the start-of-turn loop; Team and Health are read on the current board. */
    method StartNext(team: string, ghost w: World, k: nat)
      requires Valid() && Placed(w.pieces) && |w.pieces| == |pieces| && k < |pieces|
      requires State() == StartOfTurnUpTo(w, team, k)
      modifies this, pieces
      ensures pieces == old(pieces) && State() == StartOfTurnUpTo(w, team, k + 1)
    {
      ghost var before := State();
      KeepsPlaced(w, before);
      var piece := pieces[k];
      assert before.pieces[k] == piece.Data();
      if piece.team == team && piece.health > 0 {
        TriggerPiecePassive(piece, k);
      }
      assert State() == StartStep(before, team, k);
    }

    method TriggerPiecePassive(piece: Piece, i: nat)
      requires Valid() && i < |pieces| && pieces[i] == piece && Placed(View())
      modifies this, pieces
      ensures pieces == old(pieces) && State() == TriggerPassive(old(State()), i)
    {
      ghost var w := State();
      assert w.pieces[i] == piece.Data();
      if piece.passive == "Water Ward" {
        HealAdjacentAllies(piece, 2, i);
        assert State() == AuraOverAllies(w, i, WardHeal(2));
      } else if piece.passive == "Rooted Resilience" {
        if IsAdjacentToFriendlyPiece(View(), i, "Pawn") {
          WriteDefense(piece, i, piece.defense + 2);
          ghost var w1 := State();
          assert w1 == SetDefense(w, i, w.pieces[i].defense + 2);
          assert w1.pieces[i] == piece.Data();
          LogTurn(RootedResilience(piece.team, piece.id));
        } else {
          assert State() == w;
        }
      } else if piece.passive == "Blazing Stride" {
        LeaveBurningTile(piece.position);
      } else if piece.passive == "Commanding Presence" {
        BoostAdjacentAllies(piece, 5, i);
        assert State() == AuraOverAllies(w, i, PresenceBoost(5));
      } else {
        assert State() == w;
      }
      assert State() == TriggerPassive(w, i);
    }

    method LeaveBurningTile(position: string)
      modifies this
      ensures pieces == old(pieces) && State() == Append(old(State()), BurningTrail(position))
    {
      LogTurn(BurningTrail(position));
    }
  }
}
