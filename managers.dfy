/**
 * CombatManager.cs, SynergyManager.cs and PieceEvolutionManager.cs: each
 * holds the board it was built with and changes its pieces and history.
 * CombatManager is written out here; the synergy and evolution managers run
 * the same statements as the Board members of the same names, so they call
 * those.
 */
module Managers {
  import opened Pieces
  import opened Log
  import opened BoardState
  import opened BoardRules
  import opened GameBoard
  import MonsterDatabase
  import Progression

  class CombatManager {
    const board: Board

    constructor (b: Board)
      ensures board == b
    {
      board := b;
    }

    /** Health lowered and damage credited, then on Health <= 0 the clamp and the kill. */
    method DamagePiece(attacker: Piece, target: Piece, damage: int, a: nat, t: nat)
      requires board.Valid() && a < |board.pieces| && t < |board.pieces|
      requires board.pieces[a] == attacker && board.pieces[t] == target
      modifies board, attacker, target
      ensures board.pieces == old(board.pieces) && board.State() == Damage(old(board.State()), a, t, damage)
    {
      ApplyHit(attacker, target, damage, a, t);
      assert board.View()[t] == target.Data();
      if target.health <= 0 {
        CreditKill(attacker, target, a, t);
      }
    }

    /** The first half of DamagePiece: Health down, damage credited, the hit logged. */
    method ApplyHit(attacker: Piece, target: Piece, damage: int, a: nat, t: nat)
      requires board.Valid() && a < |board.pieces| && t < |board.pieces|
      requires board.pieces[a] == attacker && board.pieces[t] == target
      modifies board, attacker, target
      ensures board.pieces == old(board.pieces) && board.State() == Hit(old(board.State()), a, t, damage)
    {
      ghost var w := board.State();
      board.WriteHealth(target, t, target.health - damage);
      ghost var w1 := board.State();
      assert w1 == SetHealth(w, t, w.pieces[t].health - damage);
      board.WriteDamageDealt(attacker, a, attacker.totalDamageDealt + damage);
      assert board.State() == SetDamageDealt(w1, a, w1.pieces[a].totalDamageDealt + damage);
      board.LogTurn(Dealt(attacker.team, attacker.id, damage, target.team, target.id));
      assert board.State() == Hit(w, a, t, damage);
    }

    /** The second half: Health clamped to 0, the kill credited and logged. */
    method CreditKill(attacker: Piece, target: Piece, a: nat, t: nat)
      requires board.Valid() && a < |board.pieces| && t < |board.pieces|
      requires board.pieces[a] == attacker && board.pieces[t] == target
      modifies board, attacker, target
      ensures board.pieces == old(board.pieces) && board.State() == Eliminate(old(board.State()), a, t)
    {
      ghost var h := board.State();
      board.WriteHealth(target, t, 0);
      ghost var h1 := board.State();
      assert h1 == SetHealth(h, t, 0);
      board.WriteKills(attacker, a, attacker.totalKills + 1);
      assert board.State() == SetKills(h1, a, h1.pieces[a].totalKills + 1);
      board.LogTurn(Eliminated(target.team, target.id, attacker.team, attacker.id));
      assert board.State() == Eliminate(h, a, t);
    }

    /** Health raised by the amount, with no cap, and one entry logged. */
    method HealPiece(healer: Piece, target: Piece, healAmount: int, ghost h: nat, ghost t: nat)
      requires board.Valid() && h < |board.pieces| && t < |board.pieces|
      requires board.pieces[h] == healer && board.pieces[t] == target
      modifies board, target
      ensures board.pieces == old(board.pieces) && board.State() == Heal(old(board.State()), h, t, healAmount)
    {
      ghost var w := board.State();
      board.WriteHealth(target, t, target.health + healAmount);
      assert board.State() == SetHealth(w, t, w.pieces[t].health + healAmount);
      assert board.View()[h] == healer.Data() && board.View()[t] == target.Data();
      board.LogTurn(Healed(healer.team, healer.id, target.team, target.id, healAmount));
    }

    /** The status is logged and nothing else happens. */
    method ApplyStatusEffect(target: Piece, statusEffect: string, ghost t: nat)
      requires t < |board.pieces| && board.pieces[t] == target
      modifies board
      ensures board.pieces == old(board.pieces) && board.State() == StatusEffect(old(board.State()), t, statusEffect)
    {
      assert board.View()[t] == target.Data();
      board.LogTurn(StatusApplied(target.team, target.id, statusEffect));
    }
  }

  class SynergyManager {
    const board: Board

    constructor (b: Board)
      ensures board == b
    {
      board := b;
    }

    /** Pack counts over every piece, then the bonus for each piece whose pack counts three or more. */
    method ApplySynergyBonuses()
      requires board.Valid()
      modifies board, board.pieces
      ensures board.pieces == old(board.pieces) && board.State() == BoardRules.ApplySynergyBonuses(old(board.State()))
    {
      board.ApplySynergyBonuses();
    }

    method ApplyPackBonus(piece: Piece, pack: string, ghost k: nat)
      requires board.Valid() && k < |board.pieces| && board.pieces[k] == piece && piece.pack == pack
      modifies board, piece
      ensures board.pieces == old(board.pieces) && board.State() == PackBonus(old(board.State()), k)
    {
      board.ApplyPackBonus(piece, pack, k);
    }
  }

  class PieceEvolutionManager {
    const board: Board
    const db: MonsterDatabase.Catalog

    constructor (b: Board, catalog: MonsterDatabase.Catalog)
      ensures board == b && db == catalog
    {
      board := b;
      db := catalog;
    }

    method AwardXP(piece: Piece, xp: int, ghost i: nat)
      requires board.Valid() && i < |board.pieces| && board.pieces[i] == piece
      modifies board, piece
      ensures board.pieces == old(board.pieces) && board.State() == Progression.AwardXP(db, old(board.State()), i, xp)
    {
      board.AwardXP(db, piece, xp, i);
    }

    method CheckLevelUp(piece: Piece, ghost i: nat)
      requires board.Valid() && i < |board.pieces| && board.pieces[i] == piece
      modifies board, piece
      ensures board.pieces == old(board.pieces) && board.State() == Progression.CheckLevelUp(db, old(board.State()), i)
    {
      board.CheckLevelUp(db, piece, i);
    }

    method CheckUltimateUnlock(piece: Piece, ghost i: nat)
      requires board.Valid() && i < |board.pieces| && board.pieces[i] == piece
      modifies board, piece
      ensures board.pieces == old(board.pieces) && board.State() == Progression.CheckUltimateUnlock(old(board.State()), i)
    {
      board.CheckUltimateUnlock(piece, i);
    }

    method CheckForPieceEvolution(piece: Piece, ghost i: nat)
      requires board.Valid() && i < |board.pieces| && board.pieces[i] == piece
      modifies board, piece
      ensures board.pieces == old(board.pieces) && board.State() == Progression.CheckForEvolution(db, old(board.State()), i)
    {
      board.CheckForPieceEvolution(db, piece, i);
    }

    method EvolvePiece(piece: Piece, evolvedId: string, ghost i: nat)
      requires board.Valid() && i < |board.pieces| && board.pieces[i] == piece
      modifies board, piece
      ensures board.pieces == old(board.pieces) && board.State() == Progression.EvolvePiece(db, old(board.State()), i, evolvedId)
    {
      board.EvolvePiece(db, piece, evolvedId, i);
    }
  }
}
