/**
 * Piece.cs: a record of settable properties that every manager updates in
 * place. C# null strings are modelled as the empty string (every test in the
 * engine is string.IsNullOrEmpty or an equality that treats them alike).
 * EnergyCostModifier is read and written by the tile effects and the AI's
 * cost rule but not declared in Piece.cs; it is an int defaulting to 0.
 */
module Pieces {

  /** A value snapshot of every field of a Piece. */
  datatype PieceData = PieceData(
    pack: string, id: string, pieceType: string,
    health: int, attack: int, defense: int, speed: int,
    ability: string, passive: string, ultimate: string,
    position: string, team: string,
    energy: int, totalDamageDealt: int, totalKills: int,
    level: int, experience: int,
    ultimateUnlocked: bool, ultimateCharge: int,
    energyCostModifier: int)

  /** The field values of `new Piece()`: the declared initialisers, C# defaults elsewhere. */
  const NewPieceData: PieceData := PieceData(
    "", "", "", 0, 0, 0, 0, "", "", "", "", "",
    10, 0, 0, 1, 0, false, 0, 0)

  class Piece {
    var pack: string
    var id: string
    var pieceType: string
    var health: int
    var attack: int
    var defense: int
    var speed: int
    var ability: string
    var passive: string
    var ultimate: string
    var position: string
    var team: string
    var energy: int
    var totalDamageDealt: int
    var totalKills: int
    var level: int
    var experience: int
    var ultimateUnlocked: bool
    var ultimateCharge: int
    var energyCostModifier: int

    /** The current value of every field. */
    function Data(): PieceData
      reads this
    {
      PieceData(pack, id, pieceType, health, attack, defense, speed,
                ability, passive, ultimate, position, team,
                energy, totalDamageDealt, totalKills, level, experience,
                ultimateUnlocked, ultimateCharge, energyCostModifier)
    }

    /** `new Piece()`: Energy 10 and Level 1, counters and the ultimate fields cleared. */
    constructor ()
      ensures Data() == NewPieceData
      ensures energy == 10 && level == 1
      ensures totalDamageDealt == 0 && totalKills == 0 && experience == 0
      ensures !ultimateUnlocked && ultimateCharge == 0 && energyCostModifier == 0
    {
      pack, id, pieceType := "", "", "";
      health, attack, defense, speed := 0, 0, 0, 0;
      ability, passive, ultimate := "", "", "";
      position, team := "", "";
      energy, totalDamageDealt, totalKills := 10, 0, 0;
      level, experience := 1, 0;
      ultimateUnlocked, ultimateCharge := false, 0;
      energyCostModifier := 0;
    }

    /**
     * A fresh piece carrying the given field values: an object initialiser,
     * or Clone() of a template (assumed to copy every field).
     */
    constructor FromData(d: PieceData)
      ensures Data() == d
    {
      pack, id, pieceType := d.pack, d.id, d.pieceType;
      health, attack, defense, speed := d.health, d.attack, d.defense, d.speed;
      ability, passive, ultimate := d.ability, d.passive, d.ultimate;
      position, team := d.position, d.team;
      energy, totalDamageDealt, totalKills := d.energy, d.totalDamageDealt, d.totalKills;
      level, experience := d.level, d.experience;
      ultimateUnlocked, ultimateCharge := d.ultimateUnlocked, d.ultimateCharge;
      energyCostModifier := d.energyCostModifier;
    }
  }
}
