/**
 * AbilityManager.cs: the energy check against the raw catalogue cost, then
 * the ability's effect. It differs from Board.ApplyAbilityEffect in two
 * places: Shock Pulse logs an extra entry after the hit, and Overdrive
 * Command logs who boosted whom.
 */
module Abilities {
  import opened Wrappers
  import opened Pieces
  import opened Log
  import opened BoardState
  import opened BoardRules
  import opened GameBoard
  import MonsterDatabase

  /** DamageNearbyEnemy: Find the first adjacent piece of another team, hit it, log the ability's hit. */
  function ManagerDamageNearbyEnemy(w: World, a: nat, damage: int): (r: World)
    requires Placed(w.pieces) && a < |w.pieces|
    ensures Keeps(w, r)
  {
    match FirstEnemy(w.pieces, a)
    case None => w
    case Some(t) =>
      var w1 := Damage(w, a, t, damage);
      Append(w1, AbilityDamage(w1.pieces[a].team, w1.pieces[a].id, damage, w1.pieces[t].team, w1.pieces[t].id))
  }

  /** AbilityManager.ApplyAbilityEffect. */
  function ManagerAbilityEffect(w: World, i: nat, abilityName: string): (r: World)
    requires Placed(w.pieces) && i < |w.pieces|
    ensures Keeps(w, r)
  {
    var p := w.pieces[i];
    if abilityName == "Shock Pulse" then ManagerDamageNearbyEnemy(w, i, 5)
    else if abilityName == "Blitz Protocol" then Append(SetAttack(w, i, p.attack + 5), BlitzActivated(p.team, p.id))
    else if abilityName == "Overdrive Command" then AuraOverAllies(w, i, ManagerBoost(5, 2))
    else Append(w, NoEffect(p.team, p.id, abilityName))
  }

  /** Why UseAbility gave up, if it did. */
  function Refusal(db: MonsterDatabase.Catalog, d: PieceData, abilityName: string): Option<Event> {
    if abilityName == "" then Some(UndefinedAbility(d.team, d.id))
    else match MonsterDatabase.Lookup(db.abilityCosts, abilityName)
      case None => Some(UnknownAbility(d.team, d.id, abilityName))
      case Some(cost) => if d.energy < cost then Some(NotEnoughEnergy(d.team, d.id, abilityName)) else None
  }

  /** The payment: Energy minus the cost, then the log entry for the use. */
  function Pay(w: World, i: nat, abilityName: string, cost: int): (r: World)
    requires i < |w.pieces|
    ensures Keeps(w, r) && r.pieces[i].energy == w.pieces[i].energy - cost
    ensures forall k :: 0 <= k < |w.pieces| && k != i ==> r.pieces[k] == w.pieces[k]
    ensures r.pieces == w.pieces[i := w.pieces[i].(energy := w.pieces[i].energy - cost)]
    ensures r.log == w.log + [UsesAbility(w.pieces[i].team, w.pieces[i].id, abilityName)]
  {
    var p := w.pieces[i];
    Append(SetEnergy(w, i, p.energy - cost), UsesAbility(p.team, p.id, abilityName))
  }

  /** AbilityManager.UseAbility: the raw cost is paid, the use is logged, then the effect runs. */
  function AbilityUse(db: MonsterDatabase.Catalog, w: World, i: nat, abilityName: string): (r: World)
    requires Placed(w.pieces) && i < |w.pieces|
    ensures Keeps(w, r)
  {
    var p := w.pieces[i];
    match Refusal(db, p, abilityName)
    case Some(e) => Append(w, e)
    case None =>
      var w1 := Pay(w, i, abilityName, MonsterDatabase.Lookup(db.abilityCosts, abilityName).value);
      KeepsPlaced(w, w1);
      ManagerAbilityEffect(w1, i, abilityName)
  }

  // ---------------------------------------------------------------------
  // Properties

  /** An empty name, a name without a cost, or too little energy: one log entry and nothing else. */
  lemma RefusedUseOnlyLogs(db: MonsterDatabase.Catalog, w: World, i: nat, abilityName: string)
    requires Placed(w.pieces) && i < |w.pieces|
    requires abilityName == "" || MonsterDatabase.Lookup(db.abilityCosts, abilityName).None? ||
             w.pieces[i].energy < MonsterDatabase.Lookup(db.abilityCosts, abilityName).value
    ensures var r := AbilityUse(db, w, i, abilityName);
            r.pieces == w.pieces && |r.log| == |w.log| + 1
  {
  }

  /** No effect of the manager changes any piece's Energy. */
  lemma ManagerEffectKeepsEnergy(w: World, i: nat, abilityName: string)
    requires Placed(w.pieces) && i < |w.pieces|
    ensures forall k :: 0 <= k < |w.pieces| ==> ManagerAbilityEffect(w, i, abilityName).pieces[k].energy == w.pieces[k].energy
  {
    if abilityName == "Shock Pulse" && FirstEnemy(w.pieces, i).Some? {
      DamageEffect(w, i, FirstEnemy(w.pieces, i).value, 5);
    } else if abilityName == "Overdrive Command" {
      AuraOverAlliesEffect(w, i, ManagerBoost(5, 2));
    }
  }

  /**
   * An accepted use lowers Energy by exactly the catalogue cost (no
   * modifier) and leaves every other piece's Energy alone.
   */
  lemma UseAbilityPaysRawCost(db: MonsterDatabase.Catalog, w: World, i: nat, abilityName: string)
    requires Placed(w.pieces) && i < |w.pieces|
    requires abilityName != "" && MonsterDatabase.Lookup(db.abilityCosts, abilityName).Some?
    requires w.pieces[i].energy >= MonsterDatabase.Lookup(db.abilityCosts, abilityName).value
    ensures var r := AbilityUse(db, w, i, abilityName);
            r.pieces[i].energy == w.pieces[i].energy - MonsterDatabase.Lookup(db.abilityCosts, abilityName).value &&
            forall k :: 0 <= k < |w.pieces| && k != i ==> r.pieces[k].energy == w.pieces[k].energy
  {
    var w1 := Pay(w, i, abilityName, MonsterDatabase.Lookup(db.abilityCosts, abilityName).value);
    KeepsPlaced(w, w1);
    assert AbilityUse(db, w, i, abilityName) == ManagerAbilityEffect(w1, i, abilityName);
    ManagerEffectKeepsEnergy(w1, i, abilityName);
  }

  /** A costed ability with no case (Fire Leap, say) pays, logs the use, then logs that it has no effect. */
  lemma UncasedAbilityOnlyPays(db: MonsterDatabase.Catalog, w: World, i: nat, abilityName: string)
    requires Placed(w.pieces) && i < |w.pieces|
    requires abilityName !in {"", "Shock Pulse", "Blitz Protocol", "Overdrive Command"}
    requires MonsterDatabase.Lookup(db.abilityCosts, abilityName).Some?
    requires w.pieces[i].energy >= MonsterDatabase.Lookup(db.abilityCosts, abilityName).value
    ensures var p := w.pieces[i];
            var r := AbilityUse(db, w, i, abilityName);
            r.pieces == w.pieces[i := p.(energy := p.energy - MonsterDatabase.Lookup(db.abilityCosts, abilityName).value)] &&
            r.log == w.log + [UsesAbility(p.team, p.id, abilityName), NoEffect(p.team, p.id, abilityName)]
  {
  }

  /** Blitz Protocol: +5 Attack for the user and for no one else. */
  lemma BlitzBoostsUserOnly(w: World, i: nat)
    requires Placed(w.pieces) && i < |w.pieces|
    ensures ManagerAbilityEffect(w, i, "Blitz Protocol").pieces == w.pieces[i := w.pieces[i].(attack := w.pieces[i].attack + 5)]
  {
  }

  /**
   * Shock Pulse: 5 damage, through the combat rule, to the first piece of
   * another team within one tile, whatever its health, and one more entry
   * than the hit itself logs; with no such piece nothing happens.
   */
  lemma ShockPulseHitsFirstEnemy(w: World, i: nat)
    requires Placed(w.pieces) && i < |w.pieces|
    ensures FirstEnemy(w.pieces, i).None? ==> ManagerAbilityEffect(w, i, "Shock Pulse") == w
    ensures FirstEnemy(w.pieces, i).Some? ==>
              var t := FirstEnemy(w.pieces, i).value;
              var r := ManagerAbilityEffect(w, i, "Shock Pulse");
              r.pieces == Damage(w, i, t, 5).pieces &&
              r.pieces[t].health == AfterDamage(w.pieces[t].health, 5) &&
              r.log == Damage(w, i, t, 5).log + [AbilityDamage(w.pieces[i].team, w.pieces[i].id, 5, w.pieces[t].team, w.pieces[t].id)]
  {
    if FirstEnemy(w.pieces, i).Some? {
      DamageEffect(w, i, FirstEnemy(w.pieces, i).value, 5);
    }
  }

  /** Overdrive Command: +5 Attack and +2 Speed for every same-team piece within one tile, the user included. */
  lemma OverdriveBoostsAllies(w: World, i: nat)
    requires Placed(w.pieces) && i < |w.pieces|
    ensures var r := ManagerAbilityEffect(w, i, "Overdrive Command");
            forall k :: 0 <= k < |w.pieces| ==>
              r.pieces[k] == if w.pieces[k].team == w.pieces[i].team && Adjacent(w.pieces[i].position, w.pieces[k].position)
                             then w.pieces[k].(attack := w.pieces[k].attack + 5, speed := w.pieces[k].speed + 2)
                             else w.pieces[k]
  {
    AuraOverAlliesEffect(w, i, ManagerBoost(5, 2));
  }

  // ---------------------------------------------------------------------
  // The manager

  class AbilityManager {
    const board: Board

    constructor (b: Board)
      ensures board == b
    {
      board := b;
    }

    method UseAbility(db: MonsterDatabase.Catalog, piece: Piece, abilityName: string, i: nat)
      requires board.Valid() && i < |board.pieces| && board.pieces[i] == piece && Placed(board.View())
      modifies board, board.pieces
      ensures board.pieces == old(board.pieces) && board.State() == AbilityUse(db, old(board.State()), i, abilityName)
    {
      ghost var w := board.State();
      assert w.pieces[i] == piece.Data();
      if abilityName == "" {
        board.LogTurn(UndefinedAbility(piece.team, piece.id));
        return;
      }
      var found := MonsterDatabase.Lookup(db.abilityCosts, abilityName);
      if found.None? {
        board.LogTurn(UnknownAbility(piece.team, piece.id, abilityName));
        return;
      }
      var cost := found.value;
      if piece.energy < cost {
        board.LogTurn(NotEnoughEnergy(piece.team, piece.id, abilityName));
        return;
      }
      board.WriteEnergy(piece, i, piece.energy - cost);
      board.LogTurn(UsesAbility(piece.team, piece.id, abilityName));
      ghost var w1 := board.State();
      assert w1 == Pay(w, i, abilityName, cost);
      KeepsPlaced(w, w1);
      ApplyAbilityEffect(piece, abilityName, i);
    }

    method ApplyAbilityEffect(piece: Piece, abilityName: string, i: nat)
      requires board.Valid() && i < |board.pieces| && board.pieces[i] == piece && Placed(board.View())
      modifies board, board.pieces
      ensures board.pieces == old(board.pieces) && board.State() == ManagerAbilityEffect(old(board.State()), i, abilityName)
    {
      ghost var w := board.State();
      assert w.pieces[i] == piece.Data();
      if abilityName == "Shock Pulse" {
        DamageNearbyEnemy(piece, 5, i);
      } else if abilityName == "Blitz Protocol" {
        board.WriteAttack(piece, i, piece.attack + 5);
        board.LogTurn(BlitzActivated(piece.team, piece.id));
      } else if abilityName == "Overdrive Command" {
        BoostNearbyAllies(piece, 5, 2, i);
      } else {
        board.LogTurn(NoEffect(piece.team, piece.id, abilityName));
      }
    }

    /** Find, then CombatManager.DamagePiece, then the ability's own entry. */
    method DamageNearbyEnemy(attacker: Piece, damage: int, a: nat)
      requires board.Valid() && a < |board.pieces| && board.pieces[a] == attacker && Placed(board.View())
      modifies board, board.pieces
      ensures board.pieces == old(board.pieces) && board.State() == ManagerDamageNearbyEnemy(old(board.State()), a, damage)
    {
      ghost var w := board.State();
      var enemy := FirstEnemy(board.View(), a);
      if enemy.Some? {
        var target := board.pieces[enemy.value];
        board.DamagePiece(attacker, target, damage, a, enemy.value);
        ghost var w1 := board.State();
        assert w1 == Damage(w, a, enemy.value, damage);
        assert w1.pieces[a] == attacker.Data() && w1.pieces[enemy.value] == target.Data();
        board.LogTurn(AbilityDamage(attacker.team, attacker.id, damage, target.team, target.id));
      }
    }

    /** FindAll(same team and adjacent), then +attack and +speed for each, logged as the user's boost. */
    method BoostNearbyAllies(piece: Piece, attackBoost: int, speedBoost: int, i: nat)
      requires board.Valid() && i < |board.pieces| && board.pieces[i] == piece && Placed(board.View())
      modifies board, board.pieces
      ensures board.pieces == old(board.pieces)
      ensures board.State() == AuraOverAllies(old(board.State()), i, ManagerBoost(attackBoost, speedBoost))
    {
      board.VisitAllies(piece, i, ManagerBoost(attackBoost, speedBoost));
    }
  }
}
