/**
 * Board.cs and the managers it duplicates, as functions on a World: damage
 * and kill accounting, the area helpers, the ability effects, hit-and-run,
 * pack synergy, the ultimate charge and the start-of-turn passives. Each
 * rule changes the pieces it names and appends its log entries; the lemmas
 * state the effect on every piece and on the history.
 */
module BoardRules {
  import opened Wrappers
  import opened Pieces
  import opened Log
  import opened Squares
  import opened Numbers
  import opened BoardState
  import MovementValidator

  // ---------------------------------------------------------------------
  // DamagePiece (Board.cs and CombatManager.cs)

  /** Health lowered, damage credited and the hit logged. */
  function Hit(w: World, a: nat, t: nat, damage: int): (r: World)
    requires a < |w.pieces| && t < |w.pieces|
    ensures Keeps(w, r)
  {
    var w1 := SetHealth(w, t, w.pieces[t].health - damage);
    var w2 := SetDamageDealt(w1, a, w1.pieces[a].totalDamageDealt + damage);
    Append(w2, Dealt(w2.pieces[a].team, w2.pieces[a].id, damage, w2.pieces[t].team, w2.pieces[t].id))
  }

  /** Health clamped to 0, the kill credited and logged. */
  function Eliminate(w: World, a: nat, t: nat): (r: World)
    requires a < |w.pieces| && t < |w.pieces|
    ensures Keeps(w, r)
  {
    var w1 := SetHealth(w, t, 0);
    var w2 := SetKills(w1, a, w1.pieces[a].totalKills + 1);
    Append(w2, Eliminated(w2.pieces[t].team, w2.pieces[t].id, w2.pieces[a].team, w2.pieces[a].id))
  }

  /** DamagePiece(attacker, target, damage), the two being pieces a and t (possibly the same). */
  function Damage(w: World, a: nat, t: nat, damage: int): (r: World)
    requires a < |w.pieces| && t < |w.pieces|
    ensures Keeps(w, r)
  {
    var h := Hit(w, a, t, damage);
    if h.pieces[t].health <= 0 then Eliminate(h, a, t) else h
  }

  /** The health DamagePiece leaves: old - damage when positive, else 0. */
  function AfterDamage(health: int, damage: int): int {
    if health - damage <= 0 then 0 else health - damage
  }

  /**
   * The effect of DamagePiece on every piece and on the history: the target's
   * health is clamped at 0, the attacker is credited with exactly `damage` and
   * with one kill iff the hit left the target at or below 0 (overkill and a
   * target already at 0 included); one entry is logged, two on a kill.
   */
  lemma DamageEffect(w: World, a: nat, t: nat, damage: int)
    requires a < |w.pieces| && t < |w.pieces|
    ensures var r := Damage(w, a, t, damage);
            var killed := w.pieces[t].health - damage <= 0;
            r.pieces[t].health == AfterDamage(w.pieces[t].health, damage) &&
            r.pieces[a].totalDamageDealt == w.pieces[a].totalDamageDealt + damage &&
            r.pieces[a].totalKills == w.pieces[a].totalKills + (if killed then 1 else 0) &&
            (a != t ==> r.pieces[t] == w.pieces[t].(health := AfterDamage(w.pieces[t].health, damage))) &&
            (a != t ==> r.pieces[a] == w.pieces[a].(totalDamageDealt := r.pieces[a].totalDamageDealt,
                                                     totalKills := r.pieces[a].totalKills)) &&
            (forall k :: 0 <= k < |w.pieces| && k != a && k != t ==> r.pieces[k] == w.pieces[k]) &&
            r.log == w.log + [Dealt(w.pieces[a].team, w.pieces[a].id, damage, w.pieces[t].team, w.pieces[t].id)]
                           + (if killed then [Eliminated(w.pieces[t].team, w.pieces[t].id, w.pieces[a].team, w.pieces[a].id)] else [])
  {
  }

  /** CombatManager.HealPiece: health raised with no cap, one entry logged. */
  function Heal(w: World, healer: nat, t: nat, amount: int): (r: World)
    requires healer < |w.pieces| && t < |w.pieces|
    ensures Keeps(w, r)
    ensures r.pieces == w.pieces[t := w.pieces[t].(health := w.pieces[t].health + amount)]
    ensures |r.log| == |w.log| + 1
  {
    var w1 := SetHealth(w, t, w.pieces[t].health + amount);
    Append(w1, Healed(w1.pieces[healer].team, w1.pieces[healer].id, w1.pieces[t].team, w1.pieces[t].id, amount))
  }

  /** CombatManager.ApplyStatusEffect: the status is only logged. */
  function StatusEffect(w: World, t: nat, status: string): (r: World)
    requires t < |w.pieces|
    ensures r.pieces == w.pieces && r.log == w.log + [StatusApplied(w.pieces[t].team, w.pieces[t].id, status)]
  {
    Append(w, StatusApplied(w.pieces[t].team, w.pieces[t].id, status))
  }

  // ---------------------------------------------------------------------
  // Area helpers over a snapshot of allies

  /** What an area helper does to each ally it visits. */
  datatype Aura =
    | BoardBoost(attackBoost: int, speedBoost: int)     // Board.BoostNearbyAllies
    | ManagerBoost(attackBoost: int, speedBoost: int)   // AbilityManager.BoostNearbyAllies
    | WardHeal(amount: int)                             // HealAdjacentAllies (Water Ward)
    | PresenceBoost(amount: int)                        // BoostAdjacentAllies (Commanding Presence)

  /** An ally after one visit. */
  function Buffed(d: PieceData, aura: Aura): PieceData {
    match aura
    case BoardBoost(a, s) => d.(attack := d.attack + a, speed := d.speed + s)
    case ManagerBoost(a, s) => d.(attack := d.attack + a, speed := d.speed + s)
    case WardHeal(h) => d.(health := d.health + h)
    case PresenceBoost(a) => d.(attack := d.attack + a)
  }

  /** The entry logged for one ally; `src` is the acting piece. */
  function AuraEvent(src: PieceData, ally: PieceData, aura: Aura): Event {
    match aura
    case BoardBoost(a, s) => Gains(ally.team, ally.id, a, s)
    case ManagerBoost(a, s) => Boosts(src.team, src.id, ally.team, ally.id, a, s)
    case WardHeal(h) => WaterWard(src.team, src.id, ally.team, ally.id, h)
    case PresenceBoost(a) => CommandingPresence(src.team, src.id, ally.team, ally.id, a)
  }

  /** One visit: the field assignments of the loop body, then its LogTurn. */
  function AuraStep(w: World, src: PieceData, k: nat, aura: Aura): (r: World)
    requires k < |w.pieces|
    ensures Keeps(w, r)
    ensures r.pieces == w.pieces[k := Buffed(w.pieces[k], aura)]
    ensures r.log == w.log + [AuraEvent(src, w.pieces[k], aura)]
  {
    match aura
    case BoardBoost(a, s) =>
      var w1 := SetSpeed(SetAttack(w, k, w.pieces[k].attack + a), k, w.pieces[k].speed + s);
      Append(w1, Gains(w1.pieces[k].team, w1.pieces[k].id, a, s))
    case ManagerBoost(a, s) =>
      var w1 := SetSpeed(SetAttack(w, k, w.pieces[k].attack + a), k, w.pieces[k].speed + s);
      Append(w1, Boosts(src.team, src.id, w1.pieces[k].team, w1.pieces[k].id, a, s))
    case WardHeal(h) =>
      var w1 := SetHealth(w, k, w.pieces[k].health + h);
      Append(w1, WaterWard(src.team, src.id, w1.pieces[k].team, w1.pieces[k].id, h))
    case PresenceBoost(a) =>
      var w1 := SetAttack(w, k, w.pieces[k].attack + a);
      Append(w1, CommandingPresence(src.team, src.id, w1.pieces[k].team, w1.pieces[k].id, a))
  }

  predicate InBounds(idxs: seq<nat>, n: nat) {
    forall j :: 0 <= j < |idxs| ==> idxs[j] < n
  }

  predicate Increasing(idxs: seq<nat>) {
    forall j, k :: 0 <= j < k < |idxs| ==> idxs[j] < idxs[k]
  }

  /** The foreach over the snapshot, visit by visit. */
  function AuraFold(w: World, src: PieceData, idxs: seq<nat>, aura: Aura): (r: World)
    requires InBounds(idxs, |w.pieces|)
    ensures Keeps(w, r)
  {
    if idxs == [] then w
    else
      var prev := AuraFold(w, src, idxs[..|idxs| - 1], aura);
      AuraStep(prev, src, idxs[|idxs| - 1], aura)
  }

  /** One more visit of the fold. */
  lemma AuraFoldNext(w: World, src: PieceData, idxs: seq<nat>, j: nat, aura: Aura)
    requires InBounds(idxs, |w.pieces|) && j < |idxs|
    ensures AuraFold(w, src, idxs[..j + 1], aura) == AuraStep(AuraFold(w, src, idxs[..j], aura), src, idxs[j], aura)
  {
    assert idxs[..j + 1][..j] == idxs[..j];
  }

  /** The entries the fold logs, one per visited ally. */
  function AuraEvents(src: PieceData, ps: seq<PieceData>, idxs: seq<nat>, aura: Aura): (r: seq<Event>)
    requires InBounds(idxs, |ps|)
    ensures |r| == |idxs|
  {
    if idxs == [] then []
    else AuraEvents(src, ps, idxs[..|idxs| - 1], aura) + [AuraEvent(src, ps[idxs[|idxs| - 1]], aura)]
  }

  /** Every visited ally is changed exactly once, every other piece not at all. */
  lemma AuraFoldEffect(w: World, src: PieceData, idxs: seq<nat>, aura: Aura)
    requires InBounds(idxs, |w.pieces|) && Increasing(idxs)
    ensures var r := AuraFold(w, src, idxs, aura);
            (forall k :: 0 <= k < |w.pieces| ==>
               r.pieces[k] == if k in idxs then Buffed(w.pieces[k], aura) else w.pieces[k]) &&
            r.log == w.log + AuraEvents(src, w.pieces, idxs, aura)
  {
    AuraFoldPieces(w, src, idxs, aura);
    AuraFoldLog(w, src, idxs, aura);
  }

  lemma {:induction false} AuraFoldPieces(w: World, src: PieceData, idxs: seq<nat>, aura: Aura)
    requires InBounds(idxs, |w.pieces|) && Increasing(idxs)
    ensures forall k :: 0 <= k < |w.pieces| ==>
              AuraFold(w, src, idxs, aura).pieces[k] == if k in idxs then Buffed(w.pieces[k], aura) else w.pieces[k]
  {
    if idxs != [] {
      var init := idxs[..|idxs| - 1];
      var last := idxs[|idxs| - 1];
      AuraFoldPieces(w, src, init, aura);
      var prev := AuraFold(w, src, init, aura);
      assert last !in init;
      var r := AuraFold(w, src, idxs, aura);
      assert r.pieces == prev.pieces[last := Buffed(prev.pieces[last], aura)];
      forall k | 0 <= k < |w.pieces|
        ensures r.pieces[k] == if k in idxs then Buffed(w.pieces[k], aura) else w.pieces[k]
      {
        assert k in idxs <==> k in init || k == last;
      }
    }
  }

  lemma {:induction false} AuraFoldLog(w: World, src: PieceData, idxs: seq<nat>, aura: Aura)
    requires InBounds(idxs, |w.pieces|) && Increasing(idxs)
    ensures AuraFold(w, src, idxs, aura).log == w.log + AuraEvents(src, w.pieces, idxs, aura)
  {
    if idxs != [] {
      var init := idxs[..|idxs| - 1];
      var last := idxs[|idxs| - 1];
      AuraFoldLog(w, src, init, aura);
      AuraFoldPieces(w, src, init, aura);
      var prev := AuraFold(w, src, init, aura);
      assert last !in init;
      assert prev.pieces[last] == w.pieces[last];
    }
  }

  /** The aura over a piece's adjacent allies: each visited once, the piece itself included. */
  function AuraOverAllies(w: World, i: nat, aura: Aura): (r: World)
    requires Placed(w.pieces) && i < |w.pieces|
    ensures Keeps(w, r)
  {
    AuraFold(w, w.pieces[i], Allies(w.pieces, i), aura)
  }

  /**
   * Every same-team piece within one tile of the actor, the actor included and
   * whatever its health, gets the aura once; every other piece is unchanged;
   * one entry per ally is logged.
   */
  lemma AuraOverAlliesEffect(w: World, i: nat, aura: Aura)
    requires Placed(w.pieces) && i < |w.pieces|
    ensures var r := AuraOverAllies(w, i, aura);
            (forall k :: 0 <= k < |w.pieces| ==>
               r.pieces[k] == if w.pieces[k].team == w.pieces[i].team && Adjacent(w.pieces[i].position, w.pieces[k].position)
                              then Buffed(w.pieces[k], aura) else w.pieces[k]) &&
            r.pieces[i] == Buffed(w.pieces[i], aura) &&
            |r.log| == |w.log| + |Allies(w.pieces, i)|
  {
    AuraFoldEffect(w, w.pieces[i], Allies(w.pieces, i), aura);
    AdjacentReflexive(w.pieces[i].position);
  }

  // ---------------------------------------------------------------------
  // DamageNearbyEnemy, DamageNearbyEnemies, ApplyAbilityEffect

  /** Board.DamageNearbyEnemy: the first adjacent piece of another team, alive or not, takes the damage. */
  function DamageNearbyEnemy(w: World, a: nat, damage: int): (r: World)
    requires Placed(w.pieces) && a < |w.pieces|
    ensures Keeps(w, r)
  {
    match FirstEnemy(w.pieces, a)
    case None => w
    case Some(t) => Damage(w, a, t, damage)
  }

  /** The hits of DamageNearbyEnemies, in order. */
  function DamageFold(w: World, a: nat, targets: seq<nat>, damage: int): (r: World)
    requires a < |w.pieces| && InBounds(targets, |w.pieces|)
    ensures Keeps(w, r)
  {
    if targets == [] then w
    else Damage(DamageFold(w, a, targets[..|targets| - 1], damage), a, targets[|targets| - 1], damage)
  }

  /** One more hit of the fold. */
  lemma DamageFoldNext(w: World, a: nat, targets: seq<nat>, j: nat, damage: int)
    requires a < |w.pieces| && InBounds(targets, |w.pieces|) && j < |targets|
    ensures DamageFold(w, a, targets[..j + 1], damage) == Damage(DamageFold(w, a, targets[..j], damage), a, targets[j], damage)
  {
    assert targets[..j + 1][..j] == targets[..j];
  }

  /** The pieces DamageNearbyEnemies hits: Where(...).Take(maxTargets).ToList(). */
  function NearbyTargets(ps: seq<PieceData>, a: nat, maxTargets: int): (r: seq<nat>)
    requires Placed(ps) && a < |ps|
    ensures InBounds(r, |ps|) && Increasing(r)
    ensures maxTargets >= 0 ==> |r| <= maxTargets
    ensures forall j :: 0 <= j < |r| ==> ps[r[j]].team != ps[a].team && Adjacent(ps[a].position, ps[r[j]].position)
    ensures r == Take(Enemies(ps, a), maxTargets)
  {
    Take(Enemies(ps, a), maxTargets)
  }

  function DamageNearbyEnemies(w: World, a: nat, damage: int, maxTargets: int): (r: World)
    requires Placed(w.pieces) && a < |w.pieces|
    ensures Keeps(w, r)
  {
    DamageFold(w, a, NearbyTargets(w.pieces, a, maxTargets), damage)
  }

  /**
   * At most maxTargets adjacent enemies, the first ones in list order, are
   * hit once each; nobody else but the attacker changes.
   */
  lemma {:induction false} DamageFoldEffect(w: World, a: nat, targets: seq<nat>, damage: int)
    requires a < |w.pieces| && InBounds(targets, |w.pieces|) && Increasing(targets) && a !in targets
    ensures var r := DamageFold(w, a, targets, damage);
            (forall k :: 0 <= k < |w.pieces| && k != a ==>
               r.pieces[k] == if k in targets then w.pieces[k].(health := AfterDamage(w.pieces[k].health, damage))
                              else w.pieces[k]) &&
            r.pieces[a].totalDamageDealt == w.pieces[a].totalDamageDealt + |targets| * damage &&
            r.pieces[a].health == w.pieces[a].health
  {
    if targets != [] {
      var init := targets[..|targets| - 1];
      var last := targets[|targets| - 1];
      DamageFoldEffect(w, a, init, damage);
      var prev := DamageFold(w, a, init, damage);
      assert last !in init;
      DamageEffect(prev, a, last, damage);
      forall k | 0 <= k < |w.pieces| && k != a
        ensures DamageFold(w, a, targets, damage).pieces[k] ==
                if k in targets then w.pieces[k].(health := AfterDamage(w.pieces[k].health, damage)) else w.pieces[k]
      {
        assert k in targets <==> k in init || k == last;
      }
      MulStep(|init|, damage);
    }
  }

  lemma MulStep(n: nat, d: int)
    ensures (n + 1) * d == n * d + d
  {
  }

  lemma DamageNearbyEnemiesEffect(w: World, a: nat, damage: int, maxTargets: int)
    requires Placed(w.pieces) && a < |w.pieces|
    ensures var targets := NearbyTargets(w.pieces, a, maxTargets);
            var r := DamageNearbyEnemies(w, a, damage, maxTargets);
            (forall k :: 0 <= k < |w.pieces| && k != a ==>
               r.pieces[k] == if k in targets then w.pieces[k].(health := AfterDamage(w.pieces[k].health, damage))
                              else w.pieces[k]) &&
            r.pieces[a].totalDamageDealt == w.pieces[a].totalDamageDealt + |targets| * damage
  {
    var targets := NearbyTargets(w.pieces, a, maxTargets);
    assert a !in targets;
    DamageFoldEffect(w, a, targets, damage);
  }

  /** Board.BoostNearbyAllies: +attack and +speed for every adjacent same-team piece. */
  function BoostNearbyAllies(w: World, i: nat, attackBoost: int, speedBoost: int): (r: World)
    requires Placed(w.pieces) && i < |w.pieces|
    ensures Keeps(w, r)
  {
    AuraOverAllies(w, i, BoardBoost(attackBoost, speedBoost))
  }

  /** Board.ApplyAbilityEffect: the named ability's effect; any other name only logs. */
  function AbilityEffect(w: World, i: nat, abilityName: string): (r: World)
    requires Placed(w.pieces) && i < |w.pieces|
    ensures Keeps(w, r)
  {
    var p := w.pieces[i];
    if abilityName == "Shock Pulse" then DamageNearbyEnemy(w, i, 5)
    else if abilityName == "Blitz Protocol" then Append(SetAttack(w, i, p.attack + 5), BlitzActivated(p.team, p.id))
    else if abilityName == "Overdrive Command" then BoostNearbyAllies(w, i, 5, 2)
    else Append(w, NoEffect(p.team, p.id, abilityName))
  }

  /** Blitz Protocol: +5 Attack to the user and nothing else; an unknown name changes no piece. */
  lemma AbilityEffectCases(w: World, i: nat, abilityName: string)
    requires Placed(w.pieces) && i < |w.pieces|
    ensures abilityName == "Blitz Protocol" ==>
              AbilityEffect(w, i, abilityName).pieces == w.pieces[i := w.pieces[i].(attack := w.pieces[i].attack + 5)]
    ensures abilityName !in {"Shock Pulse", "Blitz Protocol", "Overdrive Command"} ==>
              AbilityEffect(w, i, abilityName) == Append(w, NoEffect(w.pieces[i].team, w.pieces[i].id, abilityName))
  {
  }

  /** Shock Pulse hits the first adjacent enemy in list order, or does nothing when there is none. */
  lemma ShockPulseEffect(w: World, i: nat)
    requires Placed(w.pieces) && i < |w.pieces|
    ensures FirstEnemy(w.pieces, i).None? ==> AbilityEffect(w, i, "Shock Pulse") == w
    ensures FirstEnemy(w.pieces, i).Some? ==>
              var t := FirstEnemy(w.pieces, i).value;
              t != i && AbilityEffect(w, i, "Shock Pulse").pieces[t].health == AfterDamage(w.pieces[t].health, 5)
  {
    if FirstEnemy(w.pieces, i).Some? {
      DamageEffect(w, i, FirstEnemy(w.pieces, i).value, 5);
    }
  }

  /** Overdrive Command: +5 Attack, +2 Speed for each adjacent ally, the user included. */
  lemma OverdriveEffect(w: World, i: nat)
    requires Placed(w.pieces) && i < |w.pieces|
    ensures var r := AbilityEffect(w, i, "Overdrive Command");
            forall k :: 0 <= k < |w.pieces| ==>
              r.pieces[k] == if w.pieces[k].team == w.pieces[i].team && Adjacent(w.pieces[i].position, w.pieces[k].position)
                             then w.pieces[k].(attack := w.pieces[k].attack + 5, speed := w.pieces[k].speed + 2)
                             else w.pieces[k]
  {
    AuraOverAlliesEffect(w, i, BoardBoost(5, 2));
  }

  // ---------------------------------------------------------------------
  // FindClosestSafeTile and PerformHitAndRetreat

  /** legalMoves.Where(pos => !IsTileUnderThreat(pos, team)).First(), if any. */
  function FirstSafe(ps: seq<PieceData>, team: string, moves: seq<string>): (r: Option<string>)
    requires Placed(ps) && forall j :: 0 <= j < |moves| ==> ValidLabel(moves[j])
    ensures r.Some? ==> r.value in moves && !Threatened(ps, r.value, team)
    ensures r.None? <==> forall j :: 0 <= j < |moves| ==> Threatened(ps, moves[j], team)
    ensures r.Some? ==> exists j :: 0 <= j < |moves| && moves[j] == r.value &&
                          forall m :: 0 <= m < j ==> Threatened(ps, moves[m], team)
  {
    if moves == [] then None
    else if !IsTileUnderThreat(ps, moves[0], team) then Some(moves[0])
    else
      var rest := FirstSafe(ps, team, moves[1..]);
      if rest.Some? then
        var j :| 0 <= j < |moves[1..]| && moves[1..][j] == rest.value &&
                 forall m :: 0 <= m < j ==> Threatened(ps, moves[1..][m], team);
        assert moves[j + 1] == rest.value;
        assert forall m :: 0 <= m < j + 1 ==> Threatened(ps, moves[m], team) by {
          forall m | 0 <= m < j + 1 ensures Threatened(ps, moves[m], team) {
            if m > 0 { assert moves[m] == moves[1..][m - 1]; }
          }
        }
        rest
      else
        assert forall j :: 0 <= j < |moves| ==> Threatened(ps, moves[j], team) by {
          forall j | 0 <= j < |moves| ensures Threatened(ps, moves[j], team) {
            if j > 0 { assert moves[j] == moves[1..][j - 1]; }
          }
        }
        None
  }

  /**
   * FindClosestSafeTile: the first legal move, in square order, that no
   * living enemy threatens; the piece's own square when there is none.
   */
  function ClosestSafeTile(ps: seq<PieceData>, i: nat): (r: string)
    requires Placed(ps) && i < |ps|
    ensures ValidLabel(r)
    ensures r == ps[i].position ||
            (ValidLabel(r) && MovementValidator.MoveLegal(ps[i], r, ps) && !Threatened(ps, r, ps[i].team))
    ensures (exists j :: 0 <= j < |MovementValidator.LegalMoves(ps[i], ps)| &&
                         !Threatened(ps, MovementValidator.LegalMoves(ps[i], ps)[j], ps[i].team)) ==>
              ValidLabel(r) && MovementValidator.MoveLegal(ps[i], r, ps) && !Threatened(ps, r, ps[i].team)
    ensures var moves := MovementValidator.LegalMoves(ps[i], ps);
            (exists j :: 0 <= j < |moves| && !Threatened(ps, moves[j], ps[i].team)) ==>
              exists j :: 0 <= j < |moves| && moves[j] == r && !Threatened(ps, r, ps[i].team) &&
                          forall m :: 0 <= m < j ==> Threatened(ps, moves[m], ps[i].team)
    ensures var moves := MovementValidator.LegalMoves(ps[i], ps);
            (forall j :: 0 <= j < |moves| ==> Threatened(ps, moves[j], ps[i].team)) ==> r == ps[i].position
  {
    var moves := MovementValidator.LegalMoves(ps[i], ps);
    match FirstSafe(ps, ps[i].team, moves)
    case None => ps[i].position
    case Some(m) =>
      MovementValidator.LegalMovesMembership(ps[i], ps, m);
      m
  }

  /**
   * PerformHitAndRetreat: the attacker deals its Attack as damage; a
   * surviving target makes it retreat to the closest safe tile, a
   * destroyed one lets it take the target's square.
   */
  function HitAndRetreat(w: World, a: nat, t: nat): (r: World)
    requires Placed(w.pieces) && a < |w.pieces| && t < |w.pieces|
    ensures Moves(w, r)
  {
    var w1 := Damage(w, a, t, w.pieces[a].attack);
    var attacker := w1.pieces[a];
    var target := w1.pieces[t];
    if target.health > 0 then
      var tile := ClosestSafeTile(w1.pieces, a);
      SetPosition(Append(w1, Retreats(attacker.team, attacker.id, target.team, target.id, tile)), a, tile)
    else
      SetPosition(Append(w1, Captures(attacker.team, attacker.id, target.team, target.id)), a, target.position)
  }

  /** Where the attacker ends up; every other piece keeps its square. */
  lemma HitAndRetreatEffect(w: World, a: nat, t: nat)
    requires Placed(w.pieces) && a < |w.pieces| && t < |w.pieces| && a != t
    ensures var r := HitAndRetreat(w, a, t);
            var hit := Damage(w, a, t, w.pieces[a].attack);
            r.pieces[t].health == AfterDamage(w.pieces[t].health, w.pieces[a].attack) &&
            (r.pieces[t].health > 0 ==> r.pieces[a].position == ClosestSafeTile(hit.pieces, a)) &&
            (r.pieces[t].health <= 0 ==> r.pieces[a].position == w.pieces[t].position) &&
            (forall k :: 0 <= k < |w.pieces| && k != a ==> r.pieces[k].position == w.pieces[k].position)
  {
    DamageEffect(w, a, t, w.pieces[a].attack);
  }

  // ---------------------------------------------------------------------
  // ApplySynergyBonuses and ApplyPackBonus

  /**
   * The packCounts entry of a pack: pieces of both teams, alive or not. It
   * has the shape of TeamManager.CountOfType but counts Pack, the key of the
   * Board's synergy dictionary.
   */
  function PackCount(ps: seq<PieceData>, pack: string): (n: nat)
    ensures n <= |ps|
  {
    if ps == [] then 0
    else PackCount(ps[..|ps| - 1], pack) + (if ps[|ps| - 1].pack == pack then 1 else 0)
  }

  /** The bonus test: a non-empty Pack whose count in the snapshot reaches 3. */
  predicate Qualifies(snapshot: seq<PieceData>, p: PieceData) {
    p.pack != "" && PackCount(snapshot, p.pack) >= 3
  }

  /** The stats after ApplyPackBonus; other packs only get the log entry. */
  function Bonused(d: PieceData): PieceData {
    if d.pack == "Fire Pack" then d.(attack := ScalePercent(d.attack, 105))
    else if d.pack == "Cyber Pack" then d.(defense := d.defense + 2)
    else if d.pack == "Shadow Pack" then d.(speed := d.speed + 1)
    else d
  }

  function PackBonus(w: World, k: nat): (r: World)
    requires k < |w.pieces|
    ensures Keeps(w, r)
    ensures r.pieces == w.pieces[k := Bonused(w.pieces[k])]
    ensures r.log == w.log + [SynergyBonus(w.pieces[k].team, w.pieces[k].id, w.pieces[k].pack)]
  {
    var p := w.pieces[k];
    var w1 :=
      if p.pack == "Fire Pack" then SetAttack(w, k, ScalePercent(p.attack, 105))
      else if p.pack == "Cyber Pack" then SetDefense(w, k, p.defense + 2)
      else if p.pack == "Shadow Pack" then SetSpeed(w, k, p.speed + 1)
      else w;
    Append(w1, SynergyBonus(w1.pieces[k].team, w1.pieces[k].id, w1.pieces[k].pack))
  }

  /** The foreach over Pieces as far as piece n, against the counts taken first. */
  function SynergyUpTo(w: World, snapshot: seq<PieceData>, n: nat): (r: World)
    requires n <= |w.pieces|
    ensures Keeps(w, r)
  {
    if n == 0 then w
    else
      var prev := SynergyUpTo(w, snapshot, n - 1);
      if Qualifies(snapshot, prev.pieces[n - 1]) then PackBonus(prev, n - 1) else prev
  }

  function ApplySynergyBonuses(w: World): (r: World)
    ensures Keeps(w, r)
  {
    SynergyUpTo(w, w.pieces, |w.pieces|)
  }

  /** The number of the first n pieces that qualify. */
  function QualifyingCount(snapshot: seq<PieceData>, ps: seq<PieceData>, n: nat): nat
    requires n <= |ps|
  {
    if n == 0 then 0 else QualifyingCount(snapshot, ps, n - 1) + (if Qualifies(snapshot, ps[n - 1]) then 1 else 0)
  }

  lemma {:induction false} SynergyUpToEffect(w: World, snapshot: seq<PieceData>, n: nat)
    requires n <= |w.pieces|
    ensures var r := SynergyUpTo(w, snapshot, n);
            (forall k :: 0 <= k < |w.pieces| ==>
               r.pieces[k] == if k < n && Qualifies(snapshot, w.pieces[k]) then Bonused(w.pieces[k]) else w.pieces[k]) &&
            |r.log| == |w.log| + QualifyingCount(snapshot, w.pieces, n)
  {
    if n > 0 {
      SynergyUpToEffect(w, snapshot, n - 1);
      var prev := SynergyUpTo(w, snapshot, n - 1);
      assert prev.pieces[n - 1] == w.pieces[n - 1];
      var r := SynergyUpTo(w, snapshot, n);
      if Qualifies(snapshot, w.pieces[n - 1]) {
        assert r.pieces == prev.pieces[n - 1 := Bonused(w.pieces[n - 1])];
        assert |r.log| == |prev.log| + 1;
      } else {
        assert r == prev;
      }
    }
  }

  /**
   * A piece gets its pack bonus iff its Pack is non-empty and at least three
   * pieces on the board (both teams, alive or dead) share it; the others are
   * unchanged, and one entry is logged per qualifying piece.
   */
  lemma SynergyEffect(w: World)
    ensures var r := ApplySynergyBonuses(w);
            (forall k :: 0 <= k < |w.pieces| ==>
               r.pieces[k] == if Qualifies(w.pieces, w.pieces[k]) then Bonused(w.pieces[k]) else w.pieces[k]) &&
            |r.log| == |w.log| + QualifyingCount(w.pieces, w.pieces, |w.pieces|)
  {
    SynergyUpToEffect(w, w.pieces, |w.pieces|);
  }

  lemma {:induction false} PackCountFrame(ps: seq<PieceData>, qs: seq<PieceData>, pack: string)
    requires |ps| == |qs| && forall k :: 0 <= k < |ps| ==> qs[k].pack == ps[k].pack
    ensures PackCount(qs, pack) == PackCount(ps, pack)
  {
    if ps != [] {
      PackCountFrame(ps[..|ps| - 1], qs[..|qs| - 1], pack);
    }
  }

  /** Not idempotent: a Cyber Pack piece that qualifies gains +2 Defense on each call. */
  lemma SynergyTwice(w: World, k: nat)
    requires k < |w.pieces| && w.pieces[k].pack == "Cyber Pack" && PackCount(w.pieces, "Cyber Pack") >= 3
    ensures ApplySynergyBonuses(ApplySynergyBonuses(w)).pieces[k].defense == w.pieces[k].defense + 4
  {
    var once := ApplySynergyBonuses(w);
    SynergyEffect(w);
    PackCountFrame(w.pieces, once.pieces, "Cyber Pack");
    SynergyEffect(once);
  }

  // ---------------------------------------------------------------------
  // ChargeUltimate and UseUltimateAbility

  function UseUltimate(w: World, i: nat): (r: World)
    requires Placed(w.pieces) && i < |w.pieces|
    ensures Keeps(w, r)
  {
    var p := w.pieces[i];
    AbilityEffect(Append(w, UltimateUnleashed(p.team, p.id, p.ultimate)), i, p.ultimate)
  }

  /** No ability effect touches the ultimate fields. */
  lemma AbilityEffectKeepsUltimate(w: World, i: nat, abilityName: string)
    requires Placed(w.pieces) && i < |w.pieces|
    ensures AbilityEffect(w, i, abilityName).pieces[i].ultimateUnlocked == w.pieces[i].ultimateUnlocked
  {
    if abilityName == "Shock Pulse" && FirstEnemy(w.pieces, i).Some? {
      DamageEffect(w, i, FirstEnemy(w.pieces, i).value, 5);
    } else if abilityName == "Overdrive Command" {
      AuraOverAlliesEffect(w, i, BoardBoost(5, 2));
    }
  }

  /**
   * ChargeUltimate: nothing unless the ultimate is unlocked; otherwise the
   * charge grows, and reaching 100 fires the ultimate and resets it to 0.
   */
  function ChargeUltimate(w: World, i: nat, chargeAmount: int): (r: World)
    requires Placed(w.pieces) && i < |w.pieces|
    ensures Keeps(w, r)
  {
    var p := w.pieces[i];
    if p.ultimateUnlocked then
      var w1 := SetCharge(w, i, p.ultimateCharge + chargeAmount);
      if w1.pieces[i].ultimateCharge >= 100 then SetCharge(UseUltimate(w1, i), i, 0) else w1
    else w
  }

  /**
   * The charge is below 100 afterwards iff it was below 100 before or the
   * ultimate is unlocked; a locked piece is not touched at all.
   */
  lemma ChargeUltimateBound(w: World, i: nat, chargeAmount: int)
    requires Placed(w.pieces) && i < |w.pieces|
    ensures ChargeUltimate(w, i, chargeAmount).pieces[i].ultimateCharge < 100 <==>
              w.pieces[i].ultimateUnlocked || w.pieces[i].ultimateCharge < 100
    ensures !w.pieces[i].ultimateUnlocked ==> ChargeUltimate(w, i, chargeAmount) == w
    ensures w.pieces[i].ultimateUnlocked && w.pieces[i].ultimateCharge + chargeAmount < 100 ==>
              ChargeUltimate(w, i, chargeAmount).pieces[i].ultimateCharge == w.pieces[i].ultimateCharge + chargeAmount
  {
  }

  // ---------------------------------------------------------------------
  // ProcessStartOfTurnEffects and TriggerPiecePassive

  /** Some same-team piece of the type, possibly the piece itself, stands within one tile. */
  predicate AdjacentFriendOfType(ps: seq<PieceData>, i: nat, pieceType: string)
    requires Placed(ps) && i < |ps|
  {
    exists k :: 0 <= k < |ps| && ps[k].team == ps[i].team && ps[k].pieceType == pieceType &&
                Adjacent(ps[i].position, ps[k].position)
  }

  function FriendAmong(ps: seq<PieceData>, i: nat, pieceType: string, n: nat): (r: bool)
    requires Placed(ps) && i < |ps| && n <= |ps|
    ensures r <==> exists k :: 0 <= k < n && ps[k].team == ps[i].team && ps[k].pieceType == pieceType &&
                              Adjacent(ps[i].position, ps[k].position)
  {
    if n == 0 then false
    else FriendAmong(ps, i, pieceType, n - 1) ||
         (ps[n - 1].team == ps[i].team && ps[n - 1].pieceType == pieceType && Adjacent(ps[i].position, ps[n - 1].position))
  }

  /** IsAdjacentToFriendlyPiece. */
  function IsAdjacentToFriendlyPiece(ps: seq<PieceData>, i: nat, pieceType: string): (r: bool)
    requires Placed(ps) && i < |ps|
    ensures r <==> AdjacentFriendOfType(ps, i, pieceType)
  {
    FriendAmong(ps, i, pieceType, |ps|)
  }

  /** TriggerPiecePassive: the switch on the piece's Passive; an unhandled one does nothing. */
  function TriggerPassive(w: World, i: nat): (r: World)
    requires Placed(w.pieces) && i < |w.pieces|
    ensures Keeps(w, r)
  {
    var p := w.pieces[i];
    if p.passive == "Water Ward" then AuraOverAllies(w, i, WardHeal(2))
    else if p.passive == "Rooted Resilience" then
      if IsAdjacentToFriendlyPiece(w.pieces, i, "Pawn") then
        var w1 := SetDefense(w, i, p.defense + 2);
        Append(w1, RootedResilience(w1.pieces[i].team, w1.pieces[i].id))
      else w
    else if p.passive == "Blazing Stride" then Append(w, BurningTrail(p.position))
    else if p.passive == "Commanding Presence" then AuraOverAllies(w, i, PresenceBoost(5))
    else w
  }

  /** Rooted Resilience adds 2 Defense iff a same-team Pawn is within one tile; Blazing Stride only logs. */
  lemma PassiveCases(w: World, i: nat)
    requires Placed(w.pieces) && i < |w.pieces|
    ensures w.pieces[i].passive == "Rooted Resilience" ==>
              TriggerPassive(w, i).pieces ==
                if AdjacentFriendOfType(w.pieces, i, "Pawn")
                then w.pieces[i := w.pieces[i].(defense := w.pieces[i].defense + 2)] else w.pieces
    ensures w.pieces[i].passive == "Blazing Stride" ==>
              TriggerPassive(w, i) == Append(w, BurningTrail(w.pieces[i].position))
    ensures w.pieces[i].passive !in {"Water Ward", "Rooted Resilience", "Blazing Stride", "Commanding Presence"} ==>
              TriggerPassive(w, i) == w
  {
  }

  /** A passive changes only pieces of the acting piece's team. */
  lemma TriggerPassiveTeam(w: World, i: nat)
    requires Placed(w.pieces) && i < |w.pieces|
    ensures forall k :: 0 <= k < |w.pieces| && w.pieces[k].team != w.pieces[i].team ==>
              TriggerPassive(w, i).pieces[k] == w.pieces[k]
  {
    var p := w.pieces[i];
    if p.passive == "Water Ward" {
      AuraOverAlliesEffect(w, i, WardHeal(2));
    } else if p.passive == "Commanding Presence" {
      AuraOverAlliesEffect(w, i, PresenceBoost(5));
    }
  }

  /**
   * The foreach over Pieces.Where(team, Health > 0) as far as piece n: the
   * filter is evaluated lazily, so a piece healed back above 0 earlier in
   * the same pass is visited.
   */
  function StartOfTurnUpTo(w: World, team: string, n: nat): (r: World)
    requires Placed(w.pieces) && n <= |w.pieces|
    ensures Keeps(w, r)
  {
    if n == 0 then w
    else
      var prev := StartOfTurnUpTo(w, team, n - 1);
      KeepsPlaced(w, prev);
      StartStep(prev, team, n - 1)
  }

  /** One visit of the start-of-turn loop: the filter is tested on the current board. */
  function StartStep(w: World, team: string, k: nat): (r: World)
    requires Placed(w.pieces) && k < |w.pieces|
    ensures Keeps(w, r)
    ensures forall j :: 0 <= j < |w.pieces| && w.pieces[j].team != team ==> r.pieces[j] == w.pieces[j]
    ensures !(w.pieces[k].team == team && w.pieces[k].health > 0) ==> r == w
    ensures w.pieces[k].team == team && w.pieces[k].health > 0 ==> r == TriggerPassive(w, k)
  {
    if w.pieces[k].team == team && w.pieces[k].health > 0 then
      TriggerPassiveTeam(w, k);
      TriggerPassive(w, k)
    else w
  }

  function ProcessStartOfTurnEffects(w: World, team: string): (r: World)
    requires Placed(w.pieces)
    ensures Keeps(w, r)
  {
    StartOfTurnUpTo(w, team, |w.pieces|)
  }

  /**
   * Visit n - 1 of the pass: a piece that is dead, or of another team, on the
   * board the earlier visits left triggers nothing, even among living
   * teammates; a living piece of the team triggers exactly its own passive.
   */
  lemma StartOfTurnVisit(w: World, team: string, n: nat)
    requires Placed(w.pieces) && 0 < n <= |w.pieces|
    ensures var prev := StartOfTurnUpTo(w, team, n - 1);
            Placed(prev.pieces) &&
            var p := prev.pieces[n - 1];
            (!(p.team == team && p.health > 0) ==> StartOfTurnUpTo(w, team, n) == prev) &&
            (p.team == team && p.health > 0 ==> StartOfTurnUpTo(w, team, n) == TriggerPassive(prev, n - 1))
  {
    KeepsPlaced(w, StartOfTurnUpTo(w, team, n - 1));
  }

  /** A piece of another team is untouched by the first n visits. */
  lemma {:induction false} StartOfTurnKeepsPiece(w: World, team: string, n: nat, j: nat)
    requires Placed(w.pieces) && n <= |w.pieces| && j < |w.pieces| && w.pieces[j].team != team
    ensures StartOfTurnUpTo(w, team, n).pieces[j] == w.pieces[j]
  {
    if n > 0 {
      StartOfTurnKeepsPiece(w, team, n - 1, j);
    }
  }

  /** The pieces of every other team come out of the start of a team's turn unchanged. */
  lemma StartOfTurnOtherTeams(w: World, team: string)
    requires Placed(w.pieces)
    ensures forall k :: 0 <= k < |w.pieces| && w.pieces[k].team != team ==>
              ProcessStartOfTurnEffects(w, team).pieces[k] == w.pieces[k]
  {
    forall k | 0 <= k < |w.pieces| && w.pieces[k].team != team
      ensures ProcessStartOfTurnEffects(w, team).pieces[k] == w.pieces[k]
    {
      StartOfTurnKeepsPiece(w, team, |w.pieces|, k);
    }
  }

  /** A team with no living piece has nothing triggered: the board is unchanged. */
  lemma {:induction false} StartOfTurnNoLivingPiece(w: World, team: string, n: nat)
    requires Placed(w.pieces) && n <= |w.pieces|
    requires forall k :: 0 <= k < |w.pieces| ==> w.pieces[k].team != team || w.pieces[k].health <= 0
    ensures StartOfTurnUpTo(w, team, n) == w
  {
    if n > 0 {
      StartOfTurnNoLivingPiece(w, team, n - 1);
    }
  }
}
