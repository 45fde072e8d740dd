/**
 * PieceEvolutionManager.cs and its copy inside Board.cs: experience, the XP
 * table, level-up with its stat boost, the ultimate unlock at level 5 and
 * evolution into a catalogue template.
 */
module Progression {
  import opened Wrappers
  import opened Pieces
  import opened Log
  import opened Numbers
  import opened BoardState
  import MonsterDatabase

  /** GetXPRequiredForLevel: the experience needed to leave a level. */
  function XPRequired(level: int): (r: int)
    ensures 1 <= level <= 9 ==> 10 <= r <= 220
    ensures !(1 <= level <= 9) ==> r == MaxInt
  {
    match level
    case 1 => 10
    case 2 => 20
    case 3 => 30
    case 4 => 50
    case 5 => 70
    case 6 => 100
    case 7 => 130
    case 8 => 170
    case 9 => 220
    case _ => MaxInt
  }

  /** Each level needs strictly more experience than the one before. */
  lemma XPRequiredIncreasing(a: int, b: int)
    requires 1 <= a < b <= 10
    ensures XPRequired(a) < XPRequired(b)
  {
  }

  /** ApplyLevelUpStatBoost: Health x1.05, Attack x1.03 and Defense x1.02, truncated. */
  function StatBoost(w: World, i: nat): (r: World)
    requires i < |w.pieces|
    ensures Keeps(w, r) && r.log == w.log
    ensures r.pieces == w.pieces[i := w.pieces[i].(health := ScalePercent(w.pieces[i].health, 105),
                                                   attack := ScalePercent(w.pieces[i].attack, 103),
                                                   defense := ScalePercent(w.pieces[i].defense, 102))]
  {
    var p := w.pieces[i];
    SetDefense(SetAttack(SetHealth(w, i, ScalePercent(p.health, 105)), i, ScalePercent(p.attack, 103)),
               i, ScalePercent(p.defense, 102))
  }

  /** CheckUltimateUnlock: at level 5 or more the flag is set once, and logged only then. */
  function CheckUltimateUnlock(w: World, i: nat): (r: World)
    requires i < |w.pieces|
    ensures Keeps(w, r)
    ensures var p := w.pieces[i];
            r.pieces == w.pieces[i := p.(ultimateUnlocked := p.ultimateUnlocked || p.level >= 5)] &&
            r.log == w.log + (if p.level >= 5 && !p.ultimateUnlocked then [UltimateUnlocked(p.team, p.id)] else [])
  {
    var p := w.pieces[i];
    if p.level >= 5 && !p.ultimateUnlocked then
      var w1 := SetUnlocked(w, i, true);
      Append(w1, UltimateUnlocked(w1.pieces[i].team, w1.pieces[i].id))
    else w
  }

  /** The fields evolution leaves alone: team, square, energy, progress, counters and the ultimate. */
  predicate SameProgress(d: PieceData, e: PieceData) {
    e.team == d.team && e.position == d.position && e.energy == d.energy &&
    e.level == d.level && e.experience == d.experience &&
    e.totalDamageDealt == d.totalDamageDealt && e.totalKills == d.totalKills &&
    e.ultimateUnlocked == d.ultimateUnlocked && e.ultimateCharge == d.ultimateCharge &&
    e.energyCostModifier == d.energyCostModifier
  }

  /** The piece with the ten template fields copied over. */
  function Evolved(d: PieceData, t: PieceData): PieceData {
    d.(id := t.id, pieceType := t.pieceType, health := t.health, attack := t.attack,
       defense := t.defense, speed := t.speed, ability := t.ability, passive := t.passive,
       ultimate := t.ultimate, pack := t.pack)
  }

  /**
   * EvolvePiece: a missing template only logs; otherwise exactly Id, Type,
   * the four stats, Ability, Passive, Ultimate and Pack are overwritten.
   */
  function EvolvePiece(db: MonsterDatabase.Catalog, w: World, i: nat, evolvedId: string): (r: World)
    requires i < |w.pieces|
    ensures Keeps(w, r) && |r.log| == |w.log| + 1
    ensures MonsterDatabase.Lookup(db.templates, evolvedId).None? ==>
              r.pieces == w.pieces && r.log == w.log + [EvolutionMissing(evolvedId)]
    ensures MonsterDatabase.Lookup(db.templates, evolvedId).Some? ==>
              var t := MonsterDatabase.Lookup(db.templates, evolvedId).value;
              r.pieces == w.pieces[i := Evolved(w.pieces[i], t)] &&
              SameProgress(w.pieces[i], r.pieces[i])
  {
    match MonsterDatabase.Lookup(db.templates, evolvedId)
    case None => Append(w, EvolutionMissing(evolvedId))
    case Some(t) =>
      var w1 := Become(w, i, t);
      Append(w1, Log.Evolved(w1.pieces[i].team, w1.pieces[i].id, evolvedId))
  }

  /** evolutionStages.FirstOrDefault(e => e.Level == level), or None when nothing matches. */
  function FirstStage(stages: seq<(int, string)>, level: int): (r: Option<(int, string)>)
    ensures r.None? <==> forall k :: 0 <= k < |stages| ==> stages[k].0 != level
    ensures r.Some? ==> exists k :: 0 <= k < |stages| && stages[k] == r.value && r.value.0 == level &&
                          forall j :: 0 <= j < k ==> stages[j].0 != level
  {
    if stages == [] then None
    else if stages[0].0 == level then Some(stages[0])
    else
      var rest := FirstStage(stages[1..], level);
      if rest.Some? then
        var k :| 0 <= k < |stages[1..]| && stages[1..][k] == rest.value && rest.value.0 == level &&
                 forall j :: 0 <= j < k ==> stages[1..][j].0 != level;
        assert stages[k + 1] == rest.value;
        assert forall j :: 0 <= j < k + 1 ==> stages[j].0 != level by {
          forall j | 0 <= j < k + 1 ensures stages[j].0 != level {
            if j > 0 { assert stages[j] == stages[1..][j - 1]; }
          }
        }
        rest
      else
        assert forall k :: 0 <= k < |stages| ==> stages[k].0 != level by {
          forall k | 0 <= k < |stages| ensures stages[k].0 != level {
            if k > 0 { assert stages[k] == stages[1..][k - 1]; }
          }
        }
        None
  }

  /** The form the piece evolves into at its current level, if its chain has one. */
  function NextForm(db: MonsterDatabase.Catalog, d: PieceData): Option<string> {
    match MonsterDatabase.Lookup(db.chains, d.id)
    case None => None
    case Some(stages) =>
      match FirstStage(stages, d.level)
      case None => None
      case Some(e) => if e == (0, "") then None else Some(e.1)
  }

  /** CheckForPieceEvolution. */
  function CheckForEvolution(db: MonsterDatabase.Catalog, w: World, i: nat): (r: World)
    requires i < |w.pieces|
    ensures Keeps(w, r)
    ensures NextForm(db, w.pieces[i]).None? ==> r == w
    ensures NextForm(db, w.pieces[i]).Some? ==> r == EvolvePiece(db, w, i, NextForm(db, w.pieces[i]).value)
    ensures r.pieces[i].level == w.pieces[i].level && r.pieces[i].experience == w.pieces[i].experience
    ensures r.pieces[i].ultimateUnlocked == w.pieces[i].ultimateUnlocked
    ensures forall k :: 0 <= k < |w.pieces| && k != i ==> r.pieces[k] == w.pieces[k]
  {
    match NextForm(db, w.pieces[i])
    case None => w
    case Some(f) => EvolvePiece(db, w, i, f)
  }

  /** Evolution uses the first stage of the piece's chain whose level is the piece's level. */
  lemma NextFormIsFirstStage(db: MonsterDatabase.Catalog, d: PieceData)
    ensures NextForm(db, d).Some? ==>
              exists stages: seq<(int, string)>, k: int :: MonsterDatabase.Lookup(db.chains, d.id) == Some(stages) &&
                0 <= k < |stages| && stages[k] == (d.level, NextForm(db, d).value) &&
                forall j :: 0 <= j < k ==> stages[j].0 != d.level
    ensures MonsterDatabase.Lookup(db.chains, d.id).None? ==> NextForm(db, d).None?
  {
    if NextForm(db, d).Some? {
      var stages := MonsterDatabase.Lookup(db.chains, d.id).value;
      var e := FirstStage(stages, d.level).value;
      var k :| 0 <= k < |stages| && stages[k] == e && e.0 == d.level &&
               forall j :: 0 <= j < k ==> stages[j].0 != d.level;
      assert stages[k] == (d.level, NextForm(db, d).value);
    }
  }

  /** Whether CheckLevelUp raises the level. */
  predicate LevelsUp(d: PieceData) {
    d.experience >= XPRequired(d.level) && d.level < 10
  }

  /**
   * CheckLevelUp: one level at most; the required experience is spent, the
   * stats are boosted, the level-up is logged, then the ultimate unlock and
   * evolution checks run on the new level.
   */
  function CheckLevelUp(db: MonsterDatabase.Catalog, w: World, i: nat): (r: World)
    requires i < |w.pieces|
    ensures Keeps(w, r)
  {
    var p := w.pieces[i];
    var required := XPRequired(p.level);
    if p.experience >= required && p.level < 10 then
      var w1 := SetExperience(SetLevel(w, i, p.level + 1), i, p.experience - required);
      var w2 := StatBoost(w1, i);
      var w3 := Append(w2, LeveledUp(w2.pieces[i].team, w2.pieces[i].id, w2.pieces[i].level));
      CheckForEvolution(db, CheckUltimateUnlock(w3, i), i)
    else w
  }

  /**
   * A level-up happens iff Experience reaches the requirement and Level is
   * below 10; it adds exactly one level, spends exactly the requirement and
   * unlocks the ultimate from level 5 on. Otherwise nothing changes.
   */
  lemma CheckLevelUpEffect(db: MonsterDatabase.Catalog, w: World, i: nat)
    requires i < |w.pieces|
    ensures var r := CheckLevelUp(db, w, i);
            var p := w.pieces[i];
            (!LevelsUp(p) ==> r == w) &&
            (LevelsUp(p) ==>
               r.pieces[i].level == p.level + 1 &&
               r.pieces[i].experience == p.experience - XPRequired(p.level) &&
               r.pieces[i].ultimateUnlocked == (p.ultimateUnlocked || p.level + 1 >= 5) &&
               r.pieces[i].energy == p.energy && r.pieces[i].ultimateCharge == p.ultimateCharge &&
               r.pieces[i].totalDamageDealt == p.totalDamageDealt && r.pieces[i].totalKills == p.totalKills &&
               |r.log| > |w.log|) &&
            (forall k :: 0 <= k < |w.pieces| && k != i ==> r.pieces[k] == w.pieces[k])
  {
    var p := w.pieces[i];
    if LevelsUp(p) {
      var w1 := SetExperience(SetLevel(w, i, p.level + 1), i, p.experience - XPRequired(p.level));
      var w2 := StatBoost(w1, i);
      var w3 := Append(w2, LeveledUp(w2.pieces[i].team, w2.pieces[i].id, w2.pieces[i].level));
      var w4 := CheckUltimateUnlock(w3, i);
      var w5 := CheckForEvolution(db, w4, i);
      if NextForm(db, w4.pieces[i]).Some? {
        assert SameProgress(w4.pieces[i], w5.pieces[i]);
      }
    }
  }

  /** Level 10 is never exceeded, and an unlocked ultimate stays unlocked. */
  lemma CheckLevelUpBounds(db: MonsterDatabase.Catalog, w: World, i: nat)
    requires i < |w.pieces| && w.pieces[i].level <= 10
    ensures CheckLevelUp(db, w, i).pieces[i].level <= 10
    ensures w.pieces[i].ultimateUnlocked ==> CheckLevelUp(db, w, i).pieces[i].ultimateUnlocked
    ensures CheckLevelUp(db, w, i).pieces[i].level > w.pieces[i].level && CheckLevelUp(db, w, i).pieces[i].level >= 5 ==>
              CheckLevelUp(db, w, i).pieces[i].ultimateUnlocked
  {
    CheckLevelUpEffect(db, w, i);
  }

  /** AwardXP: Experience += xp, then one level-up check. */
  function AwardXP(db: MonsterDatabase.Catalog, w: World, i: nat, xp: int): (r: World)
    requires i < |w.pieces|
    ensures Keeps(w, r)
  {
    CheckLevelUp(db, SetExperience(w, i, w.pieces[i].experience + xp), i)
  }

  /** However much experience is awarded, the level rises by at most one. */
  lemma AwardXPRaisesLevelByAtMostOne(db: MonsterDatabase.Catalog, w: World, i: nat, xp: int)
    requires i < |w.pieces|
    ensures var r := AwardXP(db, w, i, xp);
            var gained := w.pieces[i].(experience := w.pieces[i].experience + xp);
            (r.pieces[i].level == w.pieces[i].level + 1 <==> LevelsUp(gained)) &&
            (r.pieces[i].level == w.pieces[i].level <==> !LevelsUp(gained)) &&
            (!LevelsUp(gained) ==> r.pieces[i].experience == w.pieces[i].experience + xp)
  {
    CheckLevelUpEffect(db, SetExperience(w, i, w.pieces[i].experience + xp), i);
  }

  /** Each level-up keeps the remaining experience non-negative. */
  lemma LevelUpKeepsExperience(db: MonsterDatabase.Catalog, w: World, i: nat)
    requires i < |w.pieces| && w.pieces[i].experience >= 0
    ensures CheckLevelUp(db, w, i).pieces[i].experience >= 0
  {
    CheckLevelUpEffect(db, w, i);
  }
}
