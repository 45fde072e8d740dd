/**
 * Entries of Board.TurnHistory. Each C# message is an event carrying the
 * values its interpolated string prints; the wording is not modelled.
 */
module Log {

  datatype Event =
    // combat
    | Dealt(attackerTeam: string, attackerId: string, damage: int, targetTeam: string, targetId: string)
    | Eliminated(targetTeam: string, targetId: string, attackerTeam: string, attackerId: string)
    | Healed(healerTeam: string, healerId: string, targetTeam: string, targetId: string, amount: int)
    | StatusApplied(team: string, id: string, status: string)
    // tile effects
    | AmbientTile(team: string, id: string, effect: string, position: string)
    | EntryTile(team: string, id: string, effect: string, position: string)
    | Warped(team: string, id: string, from: string, to: string)
    | TileSet(position: string, effect: string)
    | TileCleared(position: string)
    // abilities
    | UndefinedAbility(team: string, id: string)
    | UnknownAbility(team: string, id: string, name: string)
    | NotEnoughEnergy(team: string, id: string, name: string)
    | UsesAbility(team: string, id: string, name: string)
    | UsedAbility(team: string, id: string, name: string)
    | BlitzActivated(team: string, id: string)
    | NoEffect(team: string, id: string, name: string)
    | AbilityDamage(attackerTeam: string, attackerId: string, damage: int, enemyTeam: string, enemyId: string)
    | Boosts(team: string, id: string, allyTeam: string, allyId: string, attackBoost: int, speedBoost: int)
    | Gains(allyTeam: string, allyId: string, attackBoost: int, speedBoost: int)
    // synergy and progression
    | SynergyBonus(team: string, id: string, pack: string)
    | LeveledUp(team: string, id: string, level: int)
    | UltimateUnlocked(team: string, id: string)
    | EvolutionMissing(evolvedId: string)
    | Evolved(team: string, id: string, evolvedId: string)
    | UltimateUnleashed(team: string, id: string, ultimate: string)
    // board tactics and passives
    | Retreats(attackerTeam: string, attackerId: string, targetTeam: string, targetId: string, tile: string)
    | Captures(attackerTeam: string, attackerId: string, targetTeam: string, targetId: string)
    | WaterWard(team: string, id: string, allyTeam: string, allyId: string, amount: int)
    | RootedResilience(team: string, id: string)
    | BurningTrail(position: string)
    | CommandingPresence(team: string, id: string, allyTeam: string, allyId: string, amount: int)
    // AI turns
    | Moved(team: string, id: string, from: string, to: string)
    | NoValidMoves(team: string, id: string)
}
