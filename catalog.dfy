/**
 * MonsterDatabase.cs: the static catalogue (ability costs, piece templates
 * and evolution chains), the standard starting layout, and the two team
 * generators. The catalogue dictionaries are public and mutable in C#, so
 * the operations take a `Catalog` value; `Shipped()` holds the tables as
 * the source initialises them. A random pick is an oracle parameter whose
 * value is reduced into the list's index range, as Random.Next(n) is.
 */
module MonsterDatabase {
  import opened Wrappers
  import opened Pieces
  import opened Squares
  import opened Text

  /** Dictionaries as their entries in insertion order. */
  datatype Catalog = Catalog(
    abilityCosts: seq<(string, int)>,
    templates: seq<(string, PieceData)>,
    chains: seq<(string, seq<(int, string)>)>)

  /** Dictionary keys are unique. */
  predicate DistinctKeys<V>(entries: seq<(string, V)>) {
    forall i, j :: 0 <= i < j < |entries| ==> entries[i].0 != entries[j].0
  }

  predicate WellFormed(db: Catalog) {
    DistinctKeys(db.abilityCosts) && DistinctKeys(db.templates) && DistinctKeys(db.chains)
  }

  /** Dictionary.TryGetValue: the value stored under key, if any. */
  function Lookup<V>(entries: seq<(string, V)>, key: string): (r: Option<V>)
    ensures r.None? <==> forall k :: 0 <= k < |entries| ==> entries[k].0 != key
    ensures r.Some? ==> exists k :: 0 <= k < |entries| && entries[k] == (key, r.value)
  {
    if entries == [] then None
    else if entries[0].0 == key then Some(entries[0].1)
    else Lookup(entries[1..], key)
  }

  /** With unique keys, the entry at index k is what a lookup of its key finds. */
  lemma {:induction false} LookupDistinct<V>(entries: seq<(string, V)>, k: nat)
    requires DistinctKeys(entries) && k < |entries|
    ensures Lookup(entries, entries[k].0) == Some(entries[k].1)
  {
    if k > 0 {
      assert entries[0].0 != entries[k].0;
      assert entries[1..][k - 1] == entries[k];
      LookupDistinct(entries[1..], k - 1);
    }
  }

  /** An object initialiser `new Piece { Id = ..., ... }` as used by PieceTemplates. */
  function Template(pieceId: string, pieceType: string, pack: string, health: int, attack: int,
                    defense: int, speed: int, ability: string, passive: string, ultimate: string): PieceData
  {
    NewPieceData.(id := pieceId, pieceType := pieceType, pack := pack, health := health,
                  attack := attack, defense := defense, speed := speed,
                  ability := ability, passive := passive, ultimate := ultimate)
  }

  /** The tables as shipped. */
  function Shipped(): Catalog {
    Catalog(ShippedAbilityCosts(), ShippedTemplates(), ShippedEvolutionChains())
  }

  function ShippedAbilityCosts(): seq<(string, int)> {
    [("Shock Pulse", 2), ("Blitz Protocol", 4), ("Mind Hack", 5), ("Plasma Barrage", 6),
     ("Overdrive Command", 5), ("Fire Leap", 3), ("Healing Mist", 3), ("Stonewall", 2),
     ("Psychic Blast", 5), ("Dark Strike", 2), ("Arcane Pulse", 4)]
  }

  /** The six templates; the two Cyber Pack ones set no Ultimate. */
  function ShippedTemplates(): seq<(string, PieceData)> {
    [("FireKnight1", Template("FireKnight1", "Knight", "Fire Pack", 35, 9, 4, 6,
                              "Fire Leap", "Blazing Stride", "Sky Strike")),
     ("AquaBishop1", Template("AquaBishop1", "Bishop", "Water Pack", 30, 7, 3, 5,
                              "Healing Mist", "Water Ward", "Blessing of the Stars")),
     ("EarthRook1", Template("EarthRook1", "Rook", "Earth Pack", 40, 8, 5, 4,
                             "Stonewall", "Immovable Object", "Fortress Mode")),
     ("ShadowPawn1", Template("ShadowPawn1", "Pawn", "Shadow Pack", 25, 6, 2, 5,
                              "Dark Strike", "Shadow Step", "Swarm Assault")),
     ("OverclockKnight1", Template("OverclockKnight1", "Knight", "Cyber Pack", 40, 17, 4, 5,
                                   "Blitz Protocol", "System Reboot", "")),
     ("PlasmaQueen1", Template("PlasmaQueen1", "Queen", "Cyber Pack", 45, 21, 5, 4,
                               "Plasma Barrage", "Energy Surge", ""))]
  }

  function ShippedEvolutionChains(): seq<(string, seq<(int, string)>)> {
    [("SparkPawn1", [(5, "ThunderPawn1"), (10, "StormPawn1")]),
     ("StoneRook1", [(5, "IronRook1"), (10, "ObsidianRook1")])]
  }

  lemma ShippedWellFormed()
    ensures WellFormed(Shipped())
  {
  }

  /** Every shipped ability costs between 2 and 6 energy. */
  lemma ShippedCostsInRange(name: string)
    ensures Lookup(Shipped().abilityCosts, name).Some? ==> 2 <= Lookup(Shipped().abilityCosts, name).value <= 6
  {
  }

  /** No shipped template has type King. */
  lemma ShippedHasNoKing()
    ensures forall k :: 0 <= k < |ShippedTemplates()| ==>
              ShippedTemplates()[k].1.pieceType in ["Knight", "Bishop", "Rook", "Pawn", "Queen"]
    ensures KeysOfType(ShippedTemplates(), "King") == []
  {
  }

  /** Every other type of the fixed order has at least one shipped template. */
  lemma ShippedHasOtherTypes()
    ensures forall t :: t in ["Pawn", "Knight", "Bishop", "Rook", "Queen"] ==> |KeysOfType(ShippedTemplates(), t)| > 0
  {
    var ts := ShippedTemplates();
    assert ts[0].1.pieceType == "Knight" && ts[1].1.pieceType == "Bishop" && ts[2].1.pieceType == "Rook";
    assert ts[3].1.pieceType == "Pawn" && ts[5].1.pieceType == "Queen";
  }

  // ---------------------------------------------------------------------------
  // Starting layout

  /** The largest count for which 'A' + count is still a char below the surrogate range. */
  const MaxCount: nat := 0xD800 - 66

  /**
   * AssignStartingPosition(type, team, count): pawn number `count` on file
   * 'A' + count of rank 2 (Player) or 7 (anything else); the other standard
   * types on the back rank 1 or 8; any other type on "A1".
   */
  function AssignStartingPosition(pieceType: string, team: string, count: nat): string
    requires count <= MaxCount
  {
    var rank := if team == "Player" then "1" else "8";
    var pawnRank := if team == "Player" then "2" else "7";
    if pieceType == "Pawn" then [(65 + count) as char] + pawnRank
    else if pieceType == "Rook" then (if count == 0 then "A" else "H") + rank
    else if pieceType == "Knight" then (if count == 0 then "B" else "G") + rank
    else if pieceType == "Bishop" then (if count == 0 then "C" else "F") + rank
    else if pieceType == "Queen" then "D" + rank
    else if pieceType == "King" then "E" + rank
    else "A1"
  }

  function PawnRank(team: string): int { if team == "Player" then 2 else 7 }
  function BackRank(team: string): int { if team == "Player" then 1 else 8 }

  /** The layout in board coordinates: pawn k on file k of the pawn rank, the rest on the back rank. */
  lemma StartingPositionSquares(team: string, count: nat)
    requires count <= MaxCount
    ensures count < 8 ==> AssignStartingPosition("Pawn", team, count) == Label(count, PawnRank(team))
    ensures AssignStartingPosition("Rook", team, count) == Label(if count == 0 then 0 else 7, BackRank(team))
    ensures AssignStartingPosition("Knight", team, count) == Label(if count == 0 then 1 else 6, BackRank(team))
    ensures AssignStartingPosition("Bishop", team, count) == Label(if count == 0 then 2 else 5, BackRank(team))
    ensures AssignStartingPosition("Queen", team, count) == Label(3, BackRank(team))
    ensures AssignStartingPosition("King", team, count) == Label(4, BackRank(team))
    ensures forall t :: t !in ["Pawn", "Rook", "Knight", "Bishop", "Queen", "King"] ==>
              AssignStartingPosition(t, team, count) == "A1"
  {
  }

  /** The standard piece counts (maxPieces). */
  function MaxPieces(pieceType: string): nat {
    if pieceType == "Pawn" then 8
    else if pieceType == "Knight" || pieceType == "Bishop" || pieceType == "Rook" then 2
    else 1
  }

  /** The 0-based file of a standard slot. */
  function StartFile(t: string, count: nat): int {
    if t == "Pawn" then count
    else if t == "Rook" then (if count == 0 then 0 else 7)
    else if t == "Knight" then (if count == 0 then 1 else 6)
    else if t == "Bishop" then (if count == 0 then 2 else 5)
    else if t == "Queen" then 3
    else 4
  }

  function StartRank(t: string, team: string): int {
    if t == "Pawn" then PawnRank(team) else BackRank(team)
  }

  lemma StartingPositionLabel(t: string, team: string, count: nat)
    requires t in OrderedTypes() && count < MaxPieces(t)
    ensures 0 <= StartFile(t, count) < 8 && 1 <= StartRank(t, team) <= 8
    ensures AssignStartingPosition(t, team, count) == Label(StartFile(t, count), StartRank(t, team))
  {
    StartingPositionSquares(team, count);
  }

  /** The standard slots (type, count < MaxPieces(type)) land on pairwise different squares. */
  lemma StartingPositionsDistinct(t1: string, c1: nat, t2: string, c2: nat, team: string)
    requires t1 in OrderedTypes() && t2 in OrderedTypes()
    requires c1 < MaxPieces(t1) && c2 < MaxPieces(t2)
    requires (t1, c1) != (t2, c2)
    ensures AssignStartingPosition(t1, team, c1) != AssignStartingPosition(t2, team, c2)
  {
    StartingPositionLabel(t1, team, c1);
    StartingPositionLabel(t2, team, c2);
    assert StartFile(t1, c1) != StartFile(t2, c2) || StartRank(t1, team) != StartRank(t2, team);
  }

  // ---------------------------------------------------------------------------
  // GenerateBalancedStarterTeam

  /** King and queen first, pawns last. */
  function OrderedTypes(): seq<string> { ["King", "Queen", "Rook", "Bishop", "Knight", "Pawn"] }

  /** PieceTemplates.Values filtered by type (ASCII case-insensitively) and exact pack. */
  function Eligible(templates: seq<(string, PieceData)>, pieceType: string, pack: string): (r: seq<PieceData>)
    ensures forall k :: 0 <= k < |r| ==> EqualsIgnoreCase(r[k].pieceType, pieceType) && r[k].pack == pack
    ensures |r| == 0 <==> forall k :: 0 <= k < |templates| ==>
              !(EqualsIgnoreCase(templates[k].1.pieceType, pieceType) && templates[k].1.pack == pack)
  {
    if templates == [] then []
    else
      var v := templates[0].1;
      (if EqualsIgnoreCase(v.pieceType, pieceType) && v.pack == pack then [v] else [])
      + Eligible(templates[1..], pieceType, pack)
  }

  /** The clone chosen for slot i of a type: Team set, position from the layout. */
  function StarterPiece(eligible: seq<PieceData>, pieceType: string, team: string, i: nat,
                        pick: (string, nat) -> nat): (p: PieceData)
    requires |eligible| > 0 && i <= MaxCount
    ensures p.team == team && p.position == AssignStartingPosition(pieceType, team, i)
  {
    eligible[pick(pieceType, i) % |eligible|].(team := team, position := AssignStartingPosition(pieceType, team, i))
  }

  /** The first n slots of one type's group. */
  function GroupUpTo(eligible: seq<PieceData>, pieceType: string, team: string, n: nat,
                     pick: (string, nat) -> nat): (r: seq<PieceData>)
    requires |eligible| > 0 && n <= MaxCount + 1
    ensures |r| == n
    ensures forall i :: 0 <= i < n ==> r[i] == StarterPiece(eligible, pieceType, team, i, pick)
  {
    if n == 0 then [] else GroupUpTo(eligible, pieceType, team, n - 1, pick) + [StarterPiece(eligible, pieceType, team, n - 1, pick)]
  }

  /** The pieces one type contributes: none without an eligible template, else MaxPieces(type). */
  function Group(db: Catalog, pieceType: string, team: string, pack: string, pick: (string, nat) -> nat): seq<PieceData> {
    var eligible := Eligible(db.templates, pieceType, pack);
    if |eligible| == 0 then [] else GroupUpTo(eligible, pieceType, team, MaxPieces(pieceType), pick)
  }

  /** The groups of the given types, concatenated in order. */
  function Groups(db: Catalog, types: seq<string>, team: string, pack: string, pick: (string, nat) -> nat): seq<PieceData> {
    if types == [] then []
    else Groups(db, types[..|types| - 1], team, pack, pick) + Group(db, types[|types| - 1], team, pack, pick)
  }

  function BalancedStarterTeam(db: Catalog, team: string, pack: string, pick: (string, nat) -> nat): seq<PieceData> {
    Groups(db, OrderedTypes(), team, pack, pick)
  }

  method GenerateBalancedStarterTeam(db: Catalog, team: string, pack: string, pick: (string, nat) -> nat)
    returns (teamPieces: seq<PieceData>)
    ensures teamPieces == BalancedStarterTeam(db, team, pack, pick)
  {
    var orderedTypes := OrderedTypes();
    teamPieces := [];
    var t := 0;
    while t < |orderedTypes|
      invariant 0 <= t <= |orderedTypes|
      invariant teamPieces == Groups(db, orderedTypes[..t], team, pack, pick)
    {
      var pieceType := orderedTypes[t];
      GroupsNext(db, orderedTypes, t, team, pack, pick);
      var eligible := Eligible(db.templates, pieceType, pack);
      if |eligible| == 0 {
        t := t + 1;
        continue;
      }
      var group := AddGroup(eligible, pieceType, team, pick);
      assert group == Group(db, pieceType, team, pack, pick);
      teamPieces := teamPieces + group;
      t := t + 1;
    }
    assert orderedTypes[..t] == orderedTypes;
  }

  lemma GroupsNext(db: Catalog, types: seq<string>, t: nat, team: string, pack: string, pick: (string, nat) -> nat)
    requires t < |types|
    ensures Groups(db, types[..t + 1], team, pack, pick) ==
            Groups(db, types[..t], team, pack, pick) + Group(db, types[t], team, pack, pick)
  {
    assert types[..t + 1][..t] == types[..t];
  }

  /** The inner loop: MaxPieces(type) clones of picked eligible templates. */
  method AddGroup(eligible: seq<PieceData>, pieceType: string, team: string, pick: (string, nat) -> nat)
    returns (group: seq<PieceData>)
    requires |eligible| > 0
    ensures group == GroupUpTo(eligible, pieceType, team, MaxPieces(pieceType), pick)
  {
    var piecesToAdd := MaxPieces(pieceType);
    group := [];
    var i := 0;
    while i < piecesToAdd
      invariant 0 <= i <= piecesToAdd
      invariant group == GroupUpTo(eligible, pieceType, team, i, pick)
    {
      var selected := eligible[pick(pieceType, i) % |eligible|];
      selected := selected.(team := team);
      selected := selected.(position := AssignStartingPosition(pieceType, team, i));
      group := group + [selected];
      i := i + 1;
    }
  }

  /** Where a group sits in the concatenation: the index of its first piece. */
  function GroupStart(db: Catalog, types: seq<string>, t: nat, team: string, pack: string, pick: (string, nat) -> nat): nat
    requires t <= |types|
  {
    |Groups(db, types[..t], team, pack, pick)|
  }

  /** Every piece of the team carries Team = team and a layout square of its group's type and slot. */
  lemma {:induction false} GroupsShape(db: Catalog, types: seq<string>, team: string, pack: string,
                                       pick: (string, nat) -> nat)
    ensures forall k :: 0 <= k < |Groups(db, types, team, pack, pick)| ==>
              Groups(db, types, team, pack, pick)[k].team == team
    ensures |Groups(db, types, team, pack, pick)| ==
              (if types == [] then 0
               else |Groups(db, types[..|types| - 1], team, pack, pick)| + |Group(db, types[|types| - 1], team, pack, pick)|)
    decreases |types|
  {
    if types != [] {
      GroupsShape(db, types[..|types| - 1], team, pack, pick);
    }
  }

  /** A type with an eligible template contributes exactly MaxPieces(type) pieces, others none. */
  lemma GroupSize(db: Catalog, pieceType: string, team: string, pack: string, pick: (string, nat) -> nat)
    ensures |Group(db, pieceType, team, pack, pick)| ==
              if |Eligible(db.templates, pieceType, pack)| == 0 then 0 else MaxPieces(pieceType)
  {
  }

  /**
   * p is of the pack and has, up to letter case, one of the types that have
   * an eligible template of the pack.
   */
  predicate TypedFrom(db: Catalog, types: seq<string>, pack: string, p: PieceData) {
    p.pack == pack &&
    exists t :: t in types && |Eligible(db.templates, t, pack)| > 0 && EqualsIgnoreCase(p.pieceType, t)
  }

  /** A piece of a starter team has the (case-insensitive) type of its group. */
  lemma {:induction false} GroupsTypeAt(db: Catalog, types: seq<string>, team: string, pack: string,
                                        pick: (string, nat) -> nat, k: nat)
    requires k < |Groups(db, types, team, pack, pick)|
    ensures TypedFrom(db, types, pack, Groups(db, types, team, pack, pick)[k])
    decreases |types|
  {
    var front := types[..|types| - 1];
    var last := types[|types| - 1];
    var g := Groups(db, types, team, pack, pick);
    var gf := Groups(db, front, team, pack, pick);
    var grp := Group(db, last, team, pack, pick);
    assert g == gf + grp;
    if k < |gf| {
      assert g[k] == gf[k];
      GroupsTypeAt(db, front, team, pack, pick, k);
      var t :| t in front && |Eligible(db.templates, t, pack)| > 0 && EqualsIgnoreCase(gf[k].pieceType, t);
      assert t in types;
      assert TypedFrom(db, types, pack, g[k]);
    } else {
      var i := k - |gf|;
      assert g[k] == grp[i];
      var el := Eligible(db.templates, last, pack);
      assert |el| > 0;
      assert grp[i] == StarterPiece(el, last, team, i, pick);
      assert EqualsIgnoreCase(el[pick(last, i) % |el|].pieceType, last) && el[pick(last, i) % |el|].pack == pack;
      assert last in types;
      assert TypedFrom(db, types, pack, g[k]);
    }
  }

  lemma GroupsTypes(db: Catalog, types: seq<string>, team: string, pack: string, pick: (string, nat) -> nat)
    ensures forall k :: 0 <= k < |Groups(db, types, team, pack, pick)| ==>
              TypedFrom(db, types, pack, Groups(db, types, team, pack, pick)[k])
  {
    forall k | 0 <= k < |Groups(db, types, team, pack, pick)|
      ensures TypedFrom(db, types, pack, Groups(db, types, team, pack, pick)[k])
    {
      GroupsTypeAt(db, types, team, pack, pick, k);
    }
  }

  /** pos is the layout square of some slot of type t. */
  predicate InLayout(pos: string, t: string, team: string) {
    exists i :: 0 <= i < MaxPieces(t) && pos == AssignStartingPosition(t, team, i)
  }

  /** The squares of one group: slot i on the layout square of its type and slot. */
  lemma GroupPositions(db: Catalog, t: string, team: string, pack: string, pick: (string, nat) -> nat)
    ensures |Group(db, t, team, pack, pick)| <= MaxPieces(t)
    ensures forall i :: 0 <= i < |Group(db, t, team, pack, pick)| ==>
              Group(db, t, team, pack, pick)[i].position == AssignStartingPosition(t, team, i)
  {
    var el := Eligible(db.templates, t, pack);
    var grp := Group(db, t, team, pack, pick);
    forall i | 0 <= i < |grp|
      ensures grp[i].position == AssignStartingPosition(t, team, i)
    {
      assert grp[i] == StarterPiece(el, t, team, i, pick);
    }
  }

  /** Every piece of the concatenated groups stands on a layout square of one of the types. */
  lemma {:induction false} GroupsInLayoutAt(db: Catalog, types: seq<string>, team: string, pack: string,
                                            pick: (string, nat) -> nat, k: nat)
    requires k < |Groups(db, types, team, pack, pick)|
    ensures exists t :: t in types && InLayout(Groups(db, types, team, pack, pick)[k].position, t, team)
    decreases |types|
  {
    var front := types[..|types| - 1];
    var last := types[|types| - 1];
    var g := Groups(db, types, team, pack, pick);
    var gf := Groups(db, front, team, pack, pick);
    var grp := Group(db, last, team, pack, pick);
    assert g == gf + grp;
    if k < |gf| {
      assert g[k] == gf[k];
      GroupsInLayoutAt(db, front, team, pack, pick, k);
      var t :| t in front && InLayout(gf[k].position, t, team);
      assert t in types;
    } else {
      GroupPositions(db, last, team, pack, pick);
      assert g[k] == grp[k - |gf|];
      assert InLayout(g[k].position, last, team);
      assert last in types;
    }
  }

  lemma LayoutsDisjoint(p: string, t1: string, q: string, t2: string, team: string)
    requires t1 in OrderedTypes() && t2 in OrderedTypes() && t1 != t2
    requires InLayout(p, t1, team) && InLayout(q, t2, team)
    ensures p != q
  {
    var i :| 0 <= i < MaxPieces(t1) && p == AssignStartingPosition(t1, team, i);
    var j :| 0 <= j < MaxPieces(t2) && q == AssignStartingPosition(t2, team, j);
    StartingPositionsDistinct(t1, i, t2, j, team);
  }

  /** Groups of distinct standard types occupy pairwise different squares. */
  lemma {:induction false} GroupsPositionsDistinctAt(db: Catalog, types: seq<string>, team: string, pack: string,
                                                     pick: (string, nat) -> nat, a: nat, b: nat)
    requires forall k :: 0 <= k < |types| ==> types[k] in OrderedTypes()
    requires forall x, y :: 0 <= x < y < |types| ==> types[x] != types[y]
    requires a < b < |Groups(db, types, team, pack, pick)|
    ensures Groups(db, types, team, pack, pick)[a].position != Groups(db, types, team, pack, pick)[b].position
    decreases |types|
  {
    var front := types[..|types| - 1];
    var last := types[|types| - 1];
    var g := Groups(db, types, team, pack, pick);
    var gf := Groups(db, front, team, pack, pick);
    var grp := Group(db, last, team, pack, pick);
    assert g == gf + grp;
    if b < |gf| {
      assert g[a] == gf[a] && g[b] == gf[b];
      GroupsPositionsDistinctAt(db, front, team, pack, pick, a, b);
    } else if a >= |gf| {
      GroupPositions(db, last, team, pack, pick);
      assert g[a] == grp[a - |gf|] && g[b] == grp[b - |gf|];
      StartingPositionsDistinct(last, a - |gf|, last, b - |gf|, team);
    } else {
      assert g[a] == gf[a] && g[b] == grp[b - |gf|];
      CrossGroupDistinct(db, types, team, pack, pick, a, b - |gf|);
    }
  }

  /** A piece of an earlier group and slot i of the last group stand on different squares. */
  lemma CrossGroupDistinct(db: Catalog, types: seq<string>, team: string, pack: string,
                           pick: (string, nat) -> nat, a: nat, i: nat)
    requires forall k :: 0 <= k < |types| ==> types[k] in OrderedTypes()
    requires forall x, y :: 0 <= x < y < |types| ==> types[x] != types[y]
    requires types != []
    requires a < |Groups(db, types[..|types| - 1], team, pack, pick)|
    requires i < |Group(db, types[|types| - 1], team, pack, pick)|
    ensures Groups(db, types[..|types| - 1], team, pack, pick)[a].position !=
            Group(db, types[|types| - 1], team, pack, pick)[i].position
  {
    var front := types[..|types| - 1];
    var last := types[|types| - 1];
    var gf := Groups(db, front, team, pack, pick);
    var grp := Group(db, last, team, pack, pick);
    GroupPositions(db, last, team, pack, pick);
    GroupsInLayoutAt(db, front, team, pack, pick, a);
    var t :| t in front && InLayout(gf[a].position, t, team);
    var ti :| 0 <= ti < |front| && front[ti] == t;
    assert types[ti] == t;
    assert InLayout(grp[i].position, last, team);
    LayoutsDisjoint(gf[a].position, t, grp[i].position, last, team);
  }

  /** Every balanced starter team stands on pairwise different squares. */
  lemma BalancedStarterTeamDistinct(db: Catalog, team: string, pack: string, pick: (string, nat) -> nat)
    ensures var ps := BalancedStarterTeam(db, team, pack, pick);
            forall a, b :: 0 <= a < b < |ps| ==> ps[a].position != ps[b].position
  {
    var ps := BalancedStarterTeam(db, team, pack, pick);
    assert forall k :: 0 <= k < |OrderedTypes()| ==> OrderedTypes()[k] in OrderedTypes();
    forall a, b | 0 <= a < b < |ps|
      ensures ps[a].position != ps[b].position
    {
      GroupsPositionsDistinctAt(db, OrderedTypes(), team, pack, pick, a, b);
    }
  }

  /**
   * No starter team built from the shipped catalogue contains a King: the
   * King group has no eligible template and every other group's type differs
   * from "King" in every letter case.
   */
  lemma ShippedStarterTeamHasNoKing(team: string, pack: string, pick: (string, nat) -> nat)
    ensures forall k :: 0 <= k < |BalancedStarterTeam(Shipped(), team, pack, pick)| ==>
              BalancedStarterTeam(Shipped(), team, pack, pick)[k].pieceType != "King"
  {
    var db := Shipped();
    ShippedHasNoKing();
    assert |Eligible(db.templates, "King", pack)| == 0 by {
      forall k | 0 <= k < |db.templates|
        ensures !EqualsIgnoreCase(db.templates[k].1.pieceType, "King")
      {
        var ty := db.templates[k].1.pieceType;
        assert AsciiUpper(ty[0]) != 'K' || |ty| != 4;
      }
    }
    GroupsTypes(db, OrderedTypes(), team, pack, pick);
    var g := BalancedStarterTeam(db, team, pack, pick);
    forall k | 0 <= k < |g|
      ensures g[k].pieceType != "King"
    {
      assert TypedFrom(db, OrderedTypes(), pack, g[k]);
      var t :| t in OrderedTypes() && |Eligible(db.templates, t, pack)| > 0 && EqualsIgnoreCase(g[k].pieceType, t);
      assert t != "King";
    }
  }

  // ---------------------------------------------------------------------------
  // GenerateRandomTeam

  function PieceOrder(): seq<string> {
    ["Pawn", "Pawn", "Pawn", "Pawn", "Pawn", "Pawn", "Pawn", "Pawn",
     "Knight", "Knight", "Bishop", "Bishop", "Rook", "Rook", "Queen", "King"]
  }

  /** The fixed squares of GenerateRandomTeam: ranks 1 and 2 for either team. */
  function RandomTeamPositions(): seq<string> {
    ["A2", "B2", "C2", "D2", "E2", "F2", "G2", "H2",
     "B1", "G1", "C1", "F1", "A1", "H1", "D1", "E1"]
  }

  /** The keys of the templates whose Type is exactly pieceType, in table order. */
  function KeysOfType(templates: seq<(string, PieceData)>, pieceType: string): (r: seq<string>)
    ensures forall k :: 0 <= k < |r| ==> exists j :: 0 <= j < |templates| && templates[j].0 == r[k] && templates[j].1.pieceType == pieceType
    ensures |r| == 0 <==> forall j :: 0 <= j < |templates| ==> templates[j].1.pieceType != pieceType
  {
    if templates == [] then []
    else (if templates[0].1.pieceType == pieceType then [templates[0].0] else []) + KeysOfType(templates[1..], pieceType)
  }

  /**
   * The piece built for slot i from the selected template, or the type whose
   * template list is empty (indexing it throws ArgumentOutOfRange).
   */
  function RandomSlot(db: Catalog, team: string, i: nat, pick: nat -> nat): (r: Result<PieceData, string>)
    requires i < 16
  {
    var available := KeysOfType(db.templates, PieceOrder()[i]);
    if |available| == 0 then Err(PieceOrder()[i])
    else
      var selectedId := available[pick(i) % |available|];
      var template := Lookup(db.templates, selectedId).value;
      Ok(NewPieceData.(id := template.id, pieceType := template.pieceType, health := template.health,
                       attack := template.attack, defense := template.defense, speed := template.speed,
                       ability := template.ability, passive := template.passive, ultimate := template.ultimate,
                       position := RandomTeamPositions()[i], team := team, energy := 10))
  }

  /** The first n slots, stopping at the first failure. */
  function RandomTeamUpTo(db: Catalog, team: string, n: nat, pick: nat -> nat): (r: Result<seq<PieceData>, string>)
    requires n <= 16
    ensures r.Ok? ==> |r.value| == n
    ensures r.Ok? ==> forall i :: 0 <= i < n ==> RandomSlot(db, team, i, pick) == Ok(r.value[i])
    ensures r.Err? <==> exists i :: 0 <= i < n && RandomSlot(db, team, i, pick).Err?
  {
    if n == 0 then Ok([])
    else match RandomTeamUpTo(db, team, n - 1, pick)
      case Err(e) => Err(e)
      case Ok(prefix) =>
        match RandomSlot(db, team, n - 1, pick)
        case Err(e) => Err(e)
        case Ok(p) => Ok(prefix + [p])
  }

  method GenerateRandomTeam(db: Catalog, team: string, pick: nat -> nat) returns (r: Result<seq<PieceData>, string>)
    ensures r == RandomTeamUpTo(db, team, 16, pick)
  {
    var pieceOrder := PieceOrder();
    var positions := RandomTeamPositions();
    var teamPieces := [];
    var i := 0;
    while i < |pieceOrder|
      invariant 0 <= i <= 16
      invariant RandomTeamUpTo(db, team, i, pick) == Ok(teamPieces)
    {
      var pieceType := pieceOrder[i];
      var position := positions[i];
      var available := KeysOfType(db.templates, pieceType);
      if |available| == 0 {
        assert RandomTeamUpTo(db, team, i + 1, pick) == Err(pieceType);
        RandomTeamErrSticks(db, team, i + 1, 16, pick);
        return Err(pieceType);
      }
      var selectedId := available[pick(i) % |available|];
      LookupFindsKey(db.templates, pieceType, selectedId);
      var template := Lookup(db.templates, selectedId).value;
      var piece := NewPieceData.(id := template.id, pieceType := template.pieceType, health := template.health,
                                 attack := template.attack, defense := template.defense, speed := template.speed,
                                 ability := template.ability, passive := template.passive,
                                 ultimate := template.ultimate, position := position, team := team, energy := 10);
      assert RandomSlot(db, team, i, pick) == Ok(piece);
      teamPieces := teamPieces + [piece];
      i := i + 1;
    }
    assert i == 16;
    return Ok(teamPieces);
  }

  lemma LookupFindsKey(templates: seq<(string, PieceData)>, pieceType: string, key: string)
    requires key in KeysOfType(templates, pieceType)
    ensures Lookup(templates, key).Some?
  {
    var k :| 0 <= k < |KeysOfType(templates, pieceType)| && KeysOfType(templates, pieceType)[k] == key;
  }

  /**
   * A generated team: 16 pieces on the fixed squares, types in the fixed order
   * (the catalogue keys being unique), Energy 10, no Pack, a fresh level-1 record.
   */
  lemma RandomTeamShape(db: Catalog, team: string, pick: nat -> nat)
    requires DistinctKeys(db.templates)
    requires RandomTeamUpTo(db, team, 16, pick).Ok?
    ensures var ps := RandomTeamUpTo(db, team, 16, pick).value;
            |ps| == 16 &&
            forall i :: 0 <= i < 16 ==>
              ps[i].position == RandomTeamPositions()[i] && ps[i].team == team &&
              ps[i].pieceType == PieceOrder()[i] && ps[i].energy == 10 && ps[i].pack == "" &&
              ps[i].level == 1 && ps[i].totalKills == 0 && !ps[i].ultimateUnlocked
  {
    var ps := RandomTeamUpTo(db, team, 16, pick).value;
    forall i | 0 <= i < 16
      ensures ps[i].pieceType == PieceOrder()[i]
    {
      assert RandomSlot(db, team, i, pick) == Ok(ps[i]);
      var available := KeysOfType(db.templates, PieceOrder()[i]);
      var selectedId := available[pick(i) % |available|];
      var j :| 0 <= j < |db.templates| && db.templates[j].0 == selectedId && db.templates[j].1.pieceType == PieceOrder()[i];
      LookupDistinct(db.templates, j);
    }
  }

  /** After the first failing slot every longer prefix fails the same way. */
  lemma {:induction false} RandomTeamErrSticks(db: Catalog, team: string, n: nat, m: nat, pick: nat -> nat)
    requires n <= m <= 16
    requires RandomTeamUpTo(db, team, n, pick).Err?
    ensures RandomTeamUpTo(db, team, m, pick) == RandomTeamUpTo(db, team, n, pick)
    decreases m - n
  {
    if n < m {
      RandomTeamErrSticks(db, team, n + 1, m, pick);
    }
  }

  /** With the shipped catalogue the King slot has no template, so generation always fails there. */
  lemma ShippedRandomTeamFails(team: string, pick: nat -> nat)
    ensures RandomTeamUpTo(Shipped(), team, 16, pick) == Err("King")
  {
    ShippedHasNoKing();
    ShippedHasOtherTypes();
    RandomTeamFailsAtKing(Shipped(), team, pick);
  }

  /** A catalogue with templates of every type but King fails at the sixteenth slot, the King. */
  lemma RandomTeamFailsAtKing(db: Catalog, team: string, pick: nat -> nat)
    requires forall t :: t in ["Pawn", "Knight", "Bishop", "Rook", "Queen"] ==> |KeysOfType(db.templates, t)| > 0
    requires KeysOfType(db.templates, "King") == []
    ensures RandomTeamUpTo(db, team, 16, pick) == Err("King")
  {
    forall i | 0 <= i < 15
      ensures RandomSlot(db, team, i, pick).Ok?
    {
      assert PieceOrder()[i] in ["Pawn", "Knight", "Bishop", "Rook", "Queen"];
    }
    assert RandomTeamUpTo(db, team, 15, pick).Ok?;
    assert RandomSlot(db, team, 15, pick) == Err("King");
  }
}
