# MonsterTactics rules engine in Dafny

This project models the rules engine of the MonsterTactics text tester, a chess variant in which every piece is a monster with stats. The model covers:

- **Squares and the two position codecs.** `Squares` and `Utils` hold the 0-based codec; `MovementValidator` holds the 1-based dictionary and its inverse.
- **The movement validator.** It has the King, Knight, sliding and Pawn checks and `GetLegalMoves`.
- **The `Piece` record and the `Board`.** This includes the Board's duplicated combat, aura, synergy, progression, ultimate and start-of-turn code.
- **The managers.** These are `CombatManager`, `SynergyManager`, `PieceEvolutionManager`, `AbilityManager` and `TileEffectManager`.
- **The AI.** This covers the board evaluation, the alpha-beta search, the AI's ability use, the move-commit loop of `TakeTurn` and the personality bonus.
- **Team building.** This covers `GenerateBalancedStarterTeam`, `GenerateRandomTeam` and `PlayerCreateTeam`, with their starting positions.

**How state is modelled.** A board's value is a `World`: the field values of every piece in list order (`PieceData`), plus the turn history.

- The turn history is a sequence of abstract `Event`s, one per `LogTurn` message.
- Every state-changing rule is a function on `World`s in `BoardRules`, `Progression`, `Abilities`, `TileEffects` or `AI`.
- Lemmas beside each function state its effect: which fields of which pieces change, which stay, and how many entries are logged.

**How the classes are modelled.** The classes are `Pieces.Piece`, `GameBoard.Board`, the managers and `TileEffects.TileEffectManager`.

- Each changes `Piece` objects in place and appends to the history.
- Each method is proved to leave exactly the state the corresponding function describes.

**Randomness, user input and the MCTS search** are parameters (oracles):

- a draw index for each random pick;
- the sequence of numbers the player types;
- a function that gives the move the hard AI picks.

**Arithmetic.**

- C#'s `/` on `int` truncates toward zero (`Numbers.TruncDiv`).
- A `(int)(x * 1.05)` cast is the exact `x * 105 / 100`, truncated toward zero (`Numbers.ScalePercent`).

**Where the model departs from the written code.** The one departure on purpose is the Rook/Queen scan over its own square (see "## Findings").

- The corrected `MovementValidator.MoveLegal` is what the rest of the model uses.
- The code as written is `MovementValidator.MoveLegalAsWritten`.

The model's values are also narrower than C#'s in a few places, each listed under "## Left out":

- there are no null strings;
- case folding covers ASCII letters only;
- a character code must lie below the surrogate range;
- integers do not overflow.

## Model

| member | source | states |
|---|---|---|
| Utils.PositionToCoordinates | MT_TextBaseTester/Utils.cs:25-30 | defined (no exception) exactly when the label has a second character that is a digit, the only failure of int.Parse on one character |
| Utils.CoordinatesToPosition | MT_TextBaseTester/Utils.cs:32-37 | the label is the character 'A' + col followed by the decimal text of row + 1 |
| Utils.LabelRoundTrip | MT_TextBaseTester/Utils.cs:25-37 | every label A1..H8 decodes to a row and column in 0..7 that encode back to the same label |
| Utils.CoordinatesRoundTrip | MT_TextBaseTester/Utils.cs:25-37 | every row and column in 0..7 encode to a board label that decodes back to the same pair |
| Utils.RandomPosition | MT_TextBaseTester/Utils.cs:18-23 | each pair of draws gives a board label, which lies in the codec's domain and decodes to (rank draw - 1, file draw) |
| Squares.Label | MT_TextBaseTester/MovementValidator.cs:149 | the label of a file index 0..7 and rank 1..8 is a board label whose characters encode exactly that file and rank |
| Squares.AllLabelsShape | MT_TextBaseTester/MovementValidator.cs:145-152 | the rank-by-rank enumeration has 64 board labels, the k-th of which has board index k |
| Squares.AllLabelsExactlyValid | MT_TextBaseTester/MovementValidator.cs:145-152 | a string is enumerated if and only if it is a board label |
| Squares.AllLabelsDistinct | MT_TextBaseTester/MovementValidator.cs:145-152 | the enumeration holds no label twice |
| Squares.AllLabelsAt | MT_TextBaseTester/TileEffectManager.cs:130-136 | the label of rank r and file f sits at position (r - 1) * 8 + f of the enumeration |
| Pieces.Piece.constructor | MT_TextBaseTester/Piece.cs:17-24 | a new Piece has Energy 10, Level 1, zero damage, kills, experience and charge, its ultimate locked and cost modifier 0 |
| Pieces.Piece.FromData | MT_TextBaseTester/Piece.cs:5-24 | a Piece built from field values holds exactly those values |
| Numbers.TruncDiv | MT_TextBaseTester/AIPersonalityManager.cs:80 | C# division by a positive number: Euclidean on non-negative operands, and the quotient keeps the sign of the dividend |
| Text.NatToString | MT_TextBaseTester/AIController.cs:52 | the decimal text of a number is non-empty and made only of digits |
| Text.TrimStart | MT_TextBaseTester/AIController.cs:165 | the result is a suffix starting with no white space, and everything removed is white space |
| Text.TrimEnd | MT_TextBaseTester/AIController.cs:165 | the result is a prefix ending with no white space, and everything removed is white space |
| Text.BeforeFirst | MT_TextBaseTester/AIController.cs:165 | the first part of Split is a prefix that does not hold the separator, and it is followed by the separator unless it is the whole string |
| Text.TrimPlain | MT_TextBaseTester/AIController.cs:165 | a string with no white space at either end trims to itself |
| Text.BeforeFirstAbsent | MT_TextBaseTester/AIController.cs:165 | without the separator, Split's first part is the whole string |
| MovementValidator.MapCoordinates | MT_TextBaseTester/MovementValidator.cs:150 | the stored pair (rank, file index + 1) lies in 1..8 x 1..8 |
| MovementValidator.CoordinatesToPosition | MT_TextBaseTester/MovementValidator.cs:156-160 | defined (no index exception) exactly when 1 <= col <= 8; on the board the result is the label of file col - 1 and rank row |
| MovementValidator.GeneratePositionMap | MT_TextBaseTester/MovementValidator.cs:140-154 | the nested loops insert the 64 labels in rank-by-rank order, and the dictionary is exactly label to (rank, file + 1) |
| MovementValidator.PositionMapShape | MT_TextBaseTester/MovementValidator.cs:140-154 | the dictionary has exactly the 64 board labels as keys, each mapped to its coordinates |
| MovementValidator.MapOfContents | MT_TextBaseTester/MovementValidator.cs:145-152 | inserting distinct labels gives a dictionary with exactly those keys, one entry per label, each holding its coordinates |
| MovementValidator.LabelCoordinatesRoundTrip | MT_TextBaseTester/MovementValidator.cs:140-160 | the private CoordinatesToPosition inverts the dictionary: label to coordinates to the same label |
| MovementValidator.CoordinatesLabelRoundTrip | MT_TextBaseTester/MovementValidator.cs:140-160 | every on-board pair is encoded, then looked up, back to the same pair |
| MovementValidator.FirstOn | MT_TextBaseTester/MovementValidator.cs:134-138 | FirstOrDefault: the first piece standing on the square, or none exactly when no piece stands there |
| MovementValidator.IsStraightMoveLegal | MT_TextBaseTester/MovementValidator.cs:61-84 | the scan loops return true exactly when start and target share a row or column, differ, and no piece stands strictly between them |
| MovementValidator.IsDiagonalMoveLegal | MT_TextBaseTester/MovementValidator.cs:86-101 | the scan loop returns true exactly when the row and column distances are equal and every square strictly between is empty |
| MovementValidator.IsStraightOrDiagonalMoveLegal | MT_TextBaseTester/MovementValidator.cs:55-59 | a Queen move is a straight or a diagonal move |
| MovementValidator.IsMoveLegal | MT_TextBaseTester/MovementValidator.cs:11-26 | the dispatch on the piece type computes the legality predicate MoveLegal |
| MovementValidator.GetLegalMoves | MT_TextBaseTester/MovementValidator.cs:28-41 | the loop over the dictionary's keys keeps exactly the labels MoveLegal accepts, in key order |
| MovementValidator.LegalMoves | MT_TextBaseTester/MovementValidator.cs:28-41 | every listed move is a board label |
| MovementValidator.LegalMovesMembership | MT_TextBaseTester/MovementValidator.cs:28-41 | a string is in the move list if and only if it is a board label and a legal target |
| MovementValidator.LegalMovesOrdered | MT_TextBaseTester/MovementValidator.cs:32 | the move list is in board order, so no label is listed twice |
| MovementValidator.UnknownTypeHasNoMoves | MT_TextBaseTester/MovementValidator.cs:24 | a piece of a type the switch does not name has an empty move list |
| MovementValidator.KingMoves | MT_TextBaseTester/MovementValidator.cs:43-46 | a King move is legal iff both distances are at most 1, whatever stands where, and its own square is included |
| MovementValidator.KnightMoves | MT_TextBaseTester/MovementValidator.cs:48-53 | a Knight move is legal iff the distances are (2,1) or (1,2), and occupancy never changes the answer |
| MovementValidator.KnightInCentreHasEightMoves | MT_TextBaseTester/MovementValidator.cs:48-53 | a lone Knight on D4 has exactly the eight moves C2, E2, B3, F3, B5, F5, C6, E6, in that order |
| MovementValidator.KnightInCornerHasTwoMoves | MT_TextBaseTester/MovementValidator.cs:48-53 | a lone Knight on A1 has exactly the moves C2 and B3 |
| MovementValidator.SameMembersSameList | MT_TextBaseTester/MovementValidator.cs:28-41 | two move lists in board order that hold the same labels are the same list |
| MovementValidator.RookMoves | MT_TextBaseTester/MovementValidator.cs:61-84 | a Rook never lists its own square, stays on its rank or file, and is legal exactly when no piece (any team, any Health) stands strictly between |
| MovementValidator.BishopMoves | MT_TextBaseTester/MovementValidator.cs:86-101 | a Bishop's own square is a legal target, and every legal target lies at equal row and column distance |
| MovementValidator.QueenIsRookOrBishop | MT_TextBaseTester/MovementValidator.cs:55-59 | a Queen move is legal iff the same move is legal for a Rook or for a Bishop on that square |
| MovementValidator.PawnMoves | MT_TextBaseTester/MovementValidator.cs:103-132 | a pawn move is legal if and only if it is one step forward onto an empty square, two steps from rank 2 (Player) or 7 (AI) over two empty squares, or a diagonal step onto a piece of another team |
| MovementValidator.MoveLegalAsWritten | MT_TextBaseTester/MovementValidator.cs:11-14 | the code as written: an unknown start or target label is a KeyNotFound fault |
| MovementValidator.RowScanRight | MT_TextBaseTester/MovementValidator.cs:65-70 | the rightward row scan reports true exactly when the columns it visits are empty |
| MovementValidator.RowScanLeft | MT_TextBaseTester/MovementValidator.cs:65-70 | the leftward row scan that reaches its target reports true exactly when the columns it visits are empty |
| MovementValidator.RowScanPast | MT_TextBaseTester/MovementValidator.cs:65-70 | a leftward scan that starts at or left of its target faults exactly when the row is empty to its left, and otherwise reports false |
| MovementValidator.StraightAsWrittenAgrees | MT_TextBaseTester/MovementValidator.cs:61-84 | the written straight scan agrees with StraightLegal whenever it returns, and faults exactly on the own square with an empty row to its left |
| MovementValidator.MoveLegalAsWrittenAgrees | MT_TextBaseTester/MovementValidator.cs:11-26 | the written IsMoveLegal agrees with MoveLegal except for a Rook or Queen aimed at its own square with an empty row to its left, where it throws |
| MovementValidator.LegalAmongAsWrittenAgrees | MT_TextBaseTester/MovementValidator.cs:28-41 | the written filter returns MoveLegal's list, or throws iff some listed square throws |
| MovementValidator.LegalMovesAsWrittenAgrees | MT_TextBaseTester/MovementValidator.cs:28-41 | the written GetLegalMoves throws exactly for a Rook or Queen with no piece to its left on its rank, and otherwise equals LegalMoves |
| MovementValidator.RookOnFileACrashes | MT_TextBaseTester/MovementValidator.cs:63-70 | a Rook or Queen on file A always throws in GetLegalMoves as written |
| MovementValidator.StartingRookHasMoveList | MT_TextBaseTester/MovementValidator.cs:159 | the starting Rook on A1 throws as written, and the corrected list exists without A1 in it |
| BoardState.KeepsTransitive | MT_TextBaseTester/Board.cs:53-57 | two stat-only updates that only append to the history compose into one |
| BoardState.KeepsPlaced | MT_TextBaseTester/Board.cs:53-57 | a stat-only update keeps every piece on its square |
| BoardState.MovesTransitive | MT_TextBaseTester/Board.cs:79-94 | two updates that may relocate pieces on the board compose into one |
| BoardState.IsAdjacentToPosition | MT_TextBaseTester/Board.cs:446-455 | false for an empty label; otherwise true iff the file and rank character codes each differ by at most one |
| BoardState.AdjacentReflexive | MT_TextBaseTester/Board.cs:157-162 | every label is adjacent to itself |
| BoardState.AdjacentSymmetric | MT_TextBaseTester/Board.cs:157-162 | adjacency is symmetric |
| BoardState.AdjacentIsKingStep | MT_TextBaseTester/Board.cs:157-162 | on board labels, adjacency is exactly the King's move test |
| BoardState.EmptyIsNeverAdjacent | MT_TextBaseTester/Board.cs:448-449 | an empty label is adjacent to nothing |
| BoardState.AnyLivingKing | MT_TextBaseTester/Board.cs:35-36 | true iff the team has a King with Health above 0 |
| BoardState.CheckWinCondition | MT_TextBaseTester/Board.cs:33-51 | over iff some team has no living King; "AI Wins!" iff the Player has none (checked first), "Player Wins!" iff only the AI has none, "" iff not over |
| BoardState.WinConditionFrame | MT_TextBaseTester/Board.cs:33-51 | the verdict depends only on team, type and Health of each piece |
| BoardState.ThreatAmong | MT_TextBaseTester/Board.cs:198-199 | true iff one of the first n pieces threatens the square |
| BoardState.IsTileUnderThreat | MT_TextBaseTester/Board.cs:196-200 | true iff some living piece of another team has a legal move to the square |
| BoardState.ThreatNeedsLivingEnemy | MT_TextBaseTester/Board.cs:196-200 | with no living opponent, no square is under threat |
| BoardState.Allies | MT_TextBaseTester/Board.cs:147 | the list holds, in list order, exactly the same-team pieces within one tile |
| BoardState.ActorIsOwnAlly | MT_TextBaseTester/Board.cs:147 | the acting piece is among its own allies |
| BoardState.Enemies | MT_TextBaseTester/Board.cs:120 | the list holds, in list order, exactly the other-team pieces within one tile, alive or not |
| BoardState.FirstEnemy | MT_TextBaseTester/Board.cs:111 | the first other-team piece within one tile in list order, or none exactly when there is none |
| BoardState.Take | MT_TextBaseTester/Board.cs:121 | Take(n) is the prefix of length min(n, count), empty for n <= 0 |
| BoardRules.Damage | MT_TextBaseTester/Board.cs:130-143 | DamagePiece only changes stats and appends to the history |
| BoardRules.DamageEffect | MT_TextBaseTester/Board.cs:130-143 | target Health becomes old - damage if positive, else 0; the attacker gains exactly the damage and one kill iff old - damage <= 0; one entry is logged, two on a kill; nothing else changes |
| BoardRules.Heal | MT_TextBaseTester/CombatManager.cs:29-33 | only the target's Health changes, by the amount with no cap, and one entry is logged |
| BoardRules.StatusEffect | MT_TextBaseTester/CombatManager.cs:35-39 | no piece changes; exactly the status entry is logged |
| BoardRules.AuraStep | MT_TextBaseTester/Board.cs:149-154 | one visited ally gets the boost or heal and one entry is logged |
| BoardRules.AuraFoldNext | MT_TextBaseTester/Board.cs:149-154 | the loop over the snapshot list is one visit per element, in order |
| BoardRules.AuraFoldEffect | MT_TextBaseTester/Board.cs:145-155 | after the loop, the listed pieces are boosted once each, the others are unchanged, and one entry per listed piece is logged |
| BoardRules.AuraOverAlliesEffect | MT_TextBaseTester/Board.cs:333-362 | the boost or heal reaches exactly the same-team pieces within one tile, whatever their Health, the actor included, with one entry each |
| BoardRules.DamageFoldNext | MT_TextBaseTester/Board.cs:124-127 | the damage loop is one DamagePiece per listed enemy, in order |
| BoardRules.NearbyTargets | MT_TextBaseTester/Board.cs:120-122 | at most maxTargets adjacent enemies, the first ones in list order |
| BoardRules.DamageFoldEffect | MT_TextBaseTester/Board.cs:124-127 | each listed enemy is damaged once with the clamp, the others are unchanged, and the attacker is credited with count x damage |
| BoardRules.DamageNearbyEnemiesEffect | MT_TextBaseTester/Board.cs:118-128 | DamageNearbyEnemies hits exactly the first maxTargets adjacent enemies, once each |
| BoardRules.AbilityEffectCases | MT_TextBaseTester/Board.cs:59-77 | Blitz Protocol adds 5 Attack to the user only; any name without a case only logs |
| BoardRules.ShockPulseEffect | MT_TextBaseTester/Board.cs:63-65 | Shock Pulse damages the first adjacent enemy by 5 with the clamp, and does nothing when there is none |
| BoardRules.OverdriveEffect | MT_TextBaseTester/Board.cs:70-72 | Overdrive Command gives +5 Attack and +2 Speed to every same-team piece within one tile, the user included, and to no other |
| BoardRules.FirstSafe | MT_TextBaseTester/Board.cs:99-103 | the first legal move that is not under threat, or none exactly when every one is threatened |
| BoardRules.ClosestSafeTile | MT_TextBaseTester/Board.cs:96-107 | the retreat square is the first legal unthreatened move when there is one, and otherwise the piece's own square |
| BoardRules.HitAndRetreat | MT_TextBaseTester/Board.cs:79-94 | only positions move, and every position stays on the board |
| BoardRules.HitAndRetreatEffect | MT_TextBaseTester/Board.cs:79-94 | the target takes Attack damage; a survivor sends the attacker to the closest safe tile, a kill puts it on the target's tile; no other piece moves |
| BoardRules.PackCount | MT_TextBaseTester/Board.cs:166-168 | the number of pieces of a pack, both teams, alive or not |
| BoardRules.PackBonus | MT_TextBaseTester/Board.cs:179-194 | only that piece's Fire (x1.05), Cyber (+2 Defense) or Shadow (+1 Speed) stat changes, and it gets exactly one entry |
| BoardRules.SynergyUpToEffect | MT_TextBaseTester/Board.cs:170-176 | after n visits, exactly the qualifying pieces among the first n have their bonus, with one entry each |
| BoardRules.SynergyEffect | MT_TextBaseTester/Board.cs:164-177 | a piece gets its bonus iff its pack is non-empty and counts three or more; the others are unchanged, and one entry per qualifying piece is logged |
| BoardRules.PackCountFrame | MT_TextBaseTester/Board.cs:166-168 | pack counts depend only on the pieces' packs |
| BoardRules.SynergyTwice | MT_TextBaseTester/Board.cs:186-188 | not idempotent: running the bonuses twice gives a Cyber Pack piece +4 Defense |
| BoardRules.UseUltimate | MT_TextBaseTester/Board.cs:289-293 | unleashing the ultimate only changes stats and appends to the history |
| BoardRules.AbilityEffectKeepsUltimate | MT_TextBaseTester/Board.cs:59-77 | no ability effect changes the user's ultimate unlock |
| BoardRules.ChargeUltimateBound | MT_TextBaseTester/Board.cs:276-287 | locked: nothing changes; unlocked: charge below 100 stays added, reaching 100 fires and resets, so the result is below 100 iff the piece is unlocked or started below 100 |
| BoardRules.FriendAmong | MT_TextBaseTester/Board.cs:345 | true iff one of the first n pieces is a same-team piece of that type within one tile |
| BoardRules.IsAdjacentToFriendlyPiece | MT_TextBaseTester/Board.cs:343-346 | true iff a same-team piece of that type, possibly the piece itself, is within one tile |
| BoardRules.PassiveCases | MT_TextBaseTester/Board.cs:303-331 | Rooted Resilience adds 2 Defense iff a friendly Pawn is within one tile; Blazing Stride only logs the burning tile; an unknown passive does nothing |
| BoardRules.TriggerPassiveTeam | MT_TextBaseTester/Board.cs:303-331 | a passive never changes a piece of another team |
| BoardRules.DamageNearbyEnemy | MT_TextBaseTester/Board.cs:109-116 | no piece changes team or square and the history only grows; the effect is stated by BoardRules.ShockPulseEffect |
| BoardRules.DamageNearbyEnemies | MT_TextBaseTester/Board.cs:118-128 | no piece changes team or square and the history only grows |
| BoardRules.BoostNearbyAllies | MT_TextBaseTester/Board.cs:145-155 | no piece changes team or square and the history only grows |
| BoardRules.AbilityEffect | MT_TextBaseTester/Board.cs:59-77 | no piece changes team or square and the history only grows |
| BoardRules.ApplySynergyBonuses | MT_TextBaseTester/Board.cs:164-177 | no piece changes team or square and the history only grows |
| BoardRules.ChargeUltimate | MT_TextBaseTester/Board.cs:276-287 | no piece changes team or square and the history only grows |
| BoardRules.TriggerPassive | MT_TextBaseTester/Board.cs:303-331 | no piece changes team or square and the history only grows |
| BoardRules.ProcessStartOfTurnEffects | MT_TextBaseTester/Board.cs:295-301 | no piece changes team or square and the history only grows |
| BoardRules.StartStep | MT_TextBaseTester/Board.cs:297-300 | a visit to a dead piece, or to a piece of another team, changes nothing; a visit to a living piece of the team is exactly that piece's TriggerPassive; other teams' pieces never change |
| BoardRules.StartOfTurnVisit | MT_TextBaseTester/Board.cs:295-301 | on the board the earlier visits left, visit n - 1 changes nothing unless its piece is a living piece of the team, and then it is exactly that piece's passive, so a piece that died earlier in the pass triggers none |
| BoardRules.StartOfTurnKeepsPiece | MT_TextBaseTester/Board.cs:295-301 | after any number of visits, a piece of another team is unchanged |
| BoardRules.StartOfTurnOtherTeams | MT_TextBaseTester/Board.cs:295-301 | start-of-turn effects leave every other team's pieces untouched |
| BoardRules.StartOfTurnNoLivingPiece | MT_TextBaseTester/Board.cs:297 | with no living piece of the team, start-of-turn effects change nothing |
| GameBoard.Board.constructor | MT_TextBaseTester/Board.cs:9-10 | a board of distinct piece objects with an empty history |
| GameBoard.Board.LogTurn | MT_TextBaseTester/Board.cs:53-57 | the message is appended to the history and nothing else changes |
| GameBoard.Board.DamagePiece | MT_TextBaseTester/Board.cs:130-143 | the in-place statements leave exactly the state BoardRules.Damage describes |
| GameBoard.Board.DamageNearbyEnemy | MT_TextBaseTester/Board.cs:109-116 | leaves exactly BoardRules.DamageNearbyEnemy's state: the first adjacent enemy, if any, is damaged |
| GameBoard.Board.DamageNearbyEnemies | MT_TextBaseTester/Board.cs:118-128 | the loop leaves exactly BoardRules.DamageNearbyEnemies' state |
| GameBoard.Board.BoostNearbyAllies | MT_TextBaseTester/Board.cs:145-155 | the loop leaves exactly the aura state of BoardRules.BoostNearbyAllies |
| GameBoard.Board.HealAdjacentAllies | MT_TextBaseTester/Board.cs:333-341 | the loop heals every listed ally by the amount, with one entry each |
| GameBoard.Board.BoostAdjacentAllies | MT_TextBaseTester/Board.cs:354-362 | the loop adds the Attack boost to every listed ally, with one entry each |
| GameBoard.Board.ApplyAbilityEffect | MT_TextBaseTester/Board.cs:59-77 | the switch leaves exactly BoardRules.AbilityEffect's state |
| GameBoard.Board.PerformHitAndRetreat | MT_TextBaseTester/Board.cs:79-94 | leaves exactly BoardRules.HitAndRetreat's state |
| GameBoard.Board.ApplySynergyBonuses | MT_TextBaseTester/Board.cs:164-177 | the counting and the loop leave exactly BoardRules.ApplySynergyBonuses' state |
| GameBoard.Board.ApplyPackBonus | MT_TextBaseTester/Board.cs:179-194 | leaves exactly BoardRules.PackBonus's state |
| GameBoard.Board.AwardXP | MT_TextBaseTester/Board.cs:222-226 | leaves exactly Progression.AwardXP's state |
| GameBoard.Board.CheckLevelUp | MT_TextBaseTester/Board.cs:228-240 | leaves exactly Progression.CheckLevelUp's state |
| GameBoard.Board.ApplyLevelUpStatBoost | MT_TextBaseTester/Board.cs:259-264 | Health x1.05, Attack x1.03 and Defense x1.02, each truncated |
| GameBoard.Board.CheckUltimateUnlock | MT_TextBaseTester/Board.cs:267-274 | leaves exactly Progression.CheckUltimateUnlock's state |
| GameBoard.Board.CheckForPieceEvolution | MT_TextBaseTester/Board.cs:364-374 | leaves exactly Progression.CheckForEvolution's state |
| GameBoard.Board.EvolvePiece | MT_TextBaseTester/Board.cs:376-396 | leaves exactly Progression.EvolvePiece's state |
| GameBoard.Board.ChargeUltimate | MT_TextBaseTester/Board.cs:276-287 | leaves exactly BoardRules.ChargeUltimate's state |
| GameBoard.Board.UseUltimateAbility | MT_TextBaseTester/Board.cs:289-293 | the announcement, then the ultimate's ability effect |
| GameBoard.Board.ProcessStartOfTurnEffects | MT_TextBaseTester/Board.cs:295-301 | the loop leaves exactly BoardRules.ProcessStartOfTurnEffects' state |
| GameBoard.Board.TriggerPiecePassive | MT_TextBaseTester/Board.cs:303-331 | the switch leaves exactly BoardRules.TriggerPassive's state |
| GameBoard.Board.LeaveBurningTile | MT_TextBaseTester/Board.cs:348-352 | only the burning-tile entry is appended |
| Progression.XPRequired | MT_TextBaseTester/PieceEvolutionManager.cs:36-51 | levels 1..9 need between 10 and 220, and any other level int.MaxValue |
| Progression.XPRequiredIncreasing | MT_TextBaseTester/PieceEvolutionManager.cs:36-51 | the requirement strictly increases from level 1 to level 10 |
| Progression.StatBoost | MT_TextBaseTester/PieceEvolutionManager.cs:53-58 | only that piece's Health, Attack and Defense change, to truncated x1.05, x1.03 and x1.02; nothing is logged |
| Progression.CheckUltimateUnlock | MT_TextBaseTester/PieceEvolutionManager.cs:60-67 | from level 5 the ultimate is unlocked and stays so; the entry is logged only on the change from locked to unlocked |
| Progression.EvolvePiece | MT_TextBaseTester/PieceEvolutionManager.cs:81-101 | a missing template only logs; otherwise exactly the ten template fields are copied, and team, position, energy, level, experience, counters and ultimate fields stay |
| Progression.FirstStage | MT_TextBaseTester/PieceEvolutionManager.cs:73 | the first chain entry with that level, or none exactly when no entry has it |
| Progression.CheckForEvolution | MT_TextBaseTester/PieceEvolutionManager.cs:69-79 | no chain or no matching entry changes nothing; otherwise the piece evolves into the first matching form; level, experience and unlock are kept |
| Progression.NextFormIsFirstStage | MT_TextBaseTester/PieceEvolutionManager.cs:71-76 | the form chosen is that of the first chain entry whose level equals the piece's level |
| Progression.AwardXP | MT_TextBaseTester/PieceEvolutionManager.cs:16-20 | no piece changes team or square and the history only grows |
| Progression.CheckLevelUp | MT_TextBaseTester/PieceEvolutionManager.cs:22-34 | no piece changes team or square and the history only grows |
| Progression.CheckLevelUpEffect | MT_TextBaseTester/PieceEvolutionManager.cs:22-34 | no level-up changes nothing; otherwise level + 1, experience minus the requirement, the unlock from level 5, energy, charge and counters kept, and something logged |
| Progression.CheckLevelUpBounds | MT_TextBaseTester/PieceEvolutionManager.cs:25-31 | Level <= 10 is preserved, an unlock never reverts, and a level-up to 5 or more unlocks |
| Progression.AwardXPRaisesLevelByAtMostOne | MT_TextBaseTester/PieceEvolutionManager.cs:16-34 | after adding the experience the level rises by one exactly when a level-up is due, and otherwise stays with all experience kept |
| Progression.LevelUpKeepsExperience | MT_TextBaseTester/PieceEvolutionManager.cs:24-28 | non-negative experience stays non-negative through a level-up |
| MonsterDatabase.Lookup | MT_TextBaseTester/MonsterDatabase.cs:11-24 | TryGetValue: none exactly when no entry has the key, otherwise an entry's value |
| MonsterDatabase.LookupDistinct | MT_TextBaseTester/MonsterDatabase.cs:11-24 | with distinct keys, each entry is found under its own key |
| MonsterDatabase.ShippedWellFormed | MT_TextBaseTester/MonsterDatabase.cs:11-123 | the shipped tables have distinct keys |
| MonsterDatabase.ShippedCostsInRange | MT_TextBaseTester/MonsterDatabase.cs:11-24 | every shipped ability cost is between 2 and 6 |
| MonsterDatabase.ShippedHasNoKing | MT_TextBaseTester/MonsterDatabase.cs:45-53 | no shipped template is a King |
| MonsterDatabase.ShippedHasOtherTypes | MT_TextBaseTester/MonsterDatabase.cs:45-53 | every other type has at least one shipped template |
| MonsterDatabase.StartingPositionSquares | MT_TextBaseTester/MonsterDatabase.cs:184-199 | pawn k on file k of rank 2 (Player) or 7; Rook, Knight, Bishop on A/H, B/G, C/F by count 0 or not; Queen D and King E on rank 1 or 8; any other type "A1" |
| MonsterDatabase.StartingPositionLabel | MT_TextBaseTester/MonsterDatabase.cs:184-199 | each standard slot is the board label of its file and rank |
| MonsterDatabase.StartingPositionsDistinct | MT_TextBaseTester/MonsterDatabase.cs:184-199 | two different standard slots never share a square |
| MonsterDatabase.Eligible | MT_TextBaseTester/MonsterDatabase.cs:157-159 | the templates of the type (case-insensitive) and pack, empty exactly when there is none |
| MonsterDatabase.StarterPiece | MT_TextBaseTester/MonsterDatabase.cs:171-173 | the copy gets the team and the starting square of its type and index |
| MonsterDatabase.GroupUpTo | MT_TextBaseTester/MonsterDatabase.cs:169-175 | n picks, the i-th on the starting square of index i |
| MonsterDatabase.GenerateBalancedStarterTeam | MT_TextBaseTester/MonsterDatabase.cs:128-179 | the nested loops build the King, Queen, Rook, Bishop, Knight, Pawn groups in that order |
| MonsterDatabase.AddGroup | MT_TextBaseTester/MonsterDatabase.cs:167-175 | the inner loop adds maxPieces[type] picks |
| MonsterDatabase.GroupsShape | MT_TextBaseTester/MonsterDatabase.cs:155-176 | every added piece has the team, and the team is the groups concatenated |
| MonsterDatabase.GroupSize | MT_TextBaseTester/MonsterDatabase.cs:161-167 | a type adds maxPieces[type] pieces (8/2/2/2/1/1) when it has an eligible template, and none otherwise |
| MonsterDatabase.GroupsTypes | MT_TextBaseTester/MonsterDatabase.cs:126-174 | every piece is of the given pack and has, case-insensitively, the type of the group that added it |
| MonsterDatabase.GroupPositions | MT_TextBaseTester/MonsterDatabase.cs:169-173 | piece i of a group stands on the starting square of its type and index |
| MonsterDatabase.LayoutsDisjoint | MT_TextBaseTester/MonsterDatabase.cs:184-199 | two different types never share a starting square |
| MonsterDatabase.BalancedStarterTeamDistinct | MT_TextBaseTester/MonsterDatabase.cs:128-179 | no two pieces of a starter team share a square |
| MonsterDatabase.ShippedStarterTeamHasNoKing | MT_TextBaseTester/MonsterDatabase.cs:45-53 | with the shipped templates a starter team has no King |
| MonsterDatabase.KeysOfType | MT_TextBaseTester/MonsterDatabase.cs:72-75 | keys of templates of exactly that type, empty exactly when there is none |
| MonsterDatabase.RandomTeamUpTo | MT_TextBaseTester/MonsterDatabase.cs:67-97 | n slots, each the one the loop body builds, or the failure of the first slot with no template of its type |
| MonsterDatabase.GenerateRandomTeam | MT_TextBaseTester/MonsterDatabase.cs:57-100 | the loop builds exactly the 16 slots, or fails where a type has no template |
| MonsterDatabase.LookupFindsKey | MT_TextBaseTester/MonsterDatabase.cs:77-78 | a chosen key is always found in the templates |
| MonsterDatabase.RandomTeamShape | MT_TextBaseTester/MonsterDatabase.cs:59-94 | piece i has type pieceOrder[i], square positions[i] on ranks 1-2 for either team, the team, Energy 10, no Pack and the other defaults |
| MonsterDatabase.RandomTeamErrSticks | MT_TextBaseTester/MonsterDatabase.cs:67-77 | once a slot fails, the whole generation fails with it |
| MonsterDatabase.ShippedRandomTeamFails | MT_TextBaseTester/MonsterDatabase.cs:72-77 | with the shipped templates the King slot fails |
| MonsterDatabase.RandomTeamFailsAtKing | MT_TextBaseTester/MonsterDatabase.cs:59-77 | with every type but King present, generation fails at exactly the King slot |
| TeamManager.PieceTypesBySlot | MT_TextBaseTester/TeamManager.cs:17-25 | the 16 slots are 8 Pawns, 2 Knights, 2 Bishops, 2 Rooks, a Queen and a King, in this order |
| TeamManager.CountOfType | MT_TextBaseTester/TeamManager.cs:78 | the count of already-selected pieces of the type, at most the number selected |
| TeamManager.OfType | MT_TextBaseTester/TeamManager.cs:32-34 | templates of exactly that type, empty exactly when there is none |
| TeamManager.GetValidChoice | MT_TextBaseTester/TeamManager.cs:57-68 | the first typed number in [min, max] with the count of inputs read, or none exactly when none qualifies |
| TeamManager.SelectStep | MT_TextBaseTester/TeamManager.cs:30-47 | one slot appends exactly one piece and consumes at least one input |
| TeamManager.PlayerCreateTeam | MT_TextBaseTester/TeamManager.cs:13-52 | the loop over the 16 slots builds exactly the selection CreatedTeam describes |
| TeamManager.SelectPiece | MT_TextBaseTester/TeamManager.cs:30-47 | one loop iteration is one SelectStep |
| TeamManager.StepIs | MT_TextBaseTester/TeamManager.cs:42-47 | the chosen template, given the team, stands on the square AssignStartingPosition gives it |
| TeamManager.Selection | MT_TextBaseTester/TeamManager.cs:28-48 | a completed selection of n slots has n pieces and reads no more input than was typed |
| TeamManager.SelectionErrSticks | MT_TextBaseTester/TeamManager.cs:42 | once a slot gets no valid choice, the whole selection fails with it |
| TeamManager.TallyTotals | MT_TextBaseTester/TeamManager.cs:17-25 | the slots hold 8/2/2/2/1/1 pieces of the six types |
| TeamManager.CountIsTally | MT_TextBaseTester/TeamManager.cs:78 | a selection following the slot order counts each type as the slots before it |
| TeamManager.SelectionLayout | MT_TextBaseTester/TeamManager.cs:28-48 | selected piece k has slot k's type, the team and slot k's square |
| TeamManager.PlayerSlotSquares | MT_TextBaseTester/TeamManager.cs:73-89 | a Player's slots land on A2..H2, B1, G1, C1, F1, A1, H1, D1, E1, all distinct |
| TeamManager.CreatedTeamLayout | MT_TextBaseTester/TeamManager.cs:13-52 | a completed team has 16 pieces of the slot types and the team; a Player team stands on exactly the squares above |
| TeamManager.CreatedTeamCounts | MT_TextBaseTester/TeamManager.cs:28-48 | a completed team counts 8 Pawns, 2 Knights, 2 Bishops, 2 Rooks, 1 Queen and 1 King |
| TeamManager.ShippedTeamNeverCompletes | MT_TextBaseTester/TeamManager.cs:32-42 | with the shipped templates no input completes the King slot |
| TileEffects.AmbientPiece | MT_TextBaseTester/TileEffectManager.cs:33-72 | only Health, Energy, Defense and the cost modifier can change, and a tag without a case changes nothing |
| TileEffects.AmbientLog | MT_TextBaseTester/TileEffectManager.cs:33-72 | one entry for a handled tag, none otherwise |
| TileEffects.AmbientHealth | MT_TextBaseTester/TileEffectManager.cs:37-50 | Burning -5, Healing +3, Poisoned -3 Health, none clamped, and no other tag changes Health |
| TileEffects.EnergizedCapped | MT_TextBaseTester/TileEffectManager.cs:52-55 | Energized gives min(Energy + 1, 10) |
| TileEffects.CostModifierDoesNotAccumulate | MT_TextBaseTester/TileEffectManager.cs:62-70 | Cursed sets the modifier to 1 and Blessed to -1, and applying either twice is applying it once |
| TileEffects.ShieldedAccumulates | MT_TextBaseTester/TileEffectManager.cs:57-60 | two Shielded applications add 4 Defense |
| TileEffects.EntryPiece | MT_TextBaseTester/TileEffectManager.cs:74-94 | only Health, Speed and Position can change, and a tag without a case changes nothing |
| TileEffects.EntryLog | MT_TextBaseTester/TileEffectManager.cs:74-94 | one entry for a handled tag, none otherwise |
| TileEffects.EntryStats | MT_TextBaseTester/TileEffectManager.cs:78-92 | Spiked -5 Health unclamped, Frozen max(1, Speed - 1), Warp moves the piece to the chosen tile |
| TileEffects.StartOfTurnPiece | MT_TextBaseTester/TileEffectManager.cs:17-23 | no tag on the piece's square leaves it unchanged |
| TileEffects.StartOfTurnLog | MT_TextBaseTester/TileEffectManager.cs:17-23 | no tag on the piece's square logs nothing |
| TileEffects.OnEntryPiece | MT_TextBaseTester/TileEffectManager.cs:25-31 | no tag on the entered square leaves the piece unchanged |
| TileEffects.OnEntryLog | MT_TextBaseTester/TileEffectManager.cs:25-31 | no tag on the entered square logs nothing |
| TileEffects.VacantAmong | MT_TextBaseTester/TileEffectManager.cs:98-100 | exactly the listed tiles no piece stands on |
| TileEffects.EmptyTiles | MT_TextBaseTester/TileEffectManager.cs:98-100 | exactly the board squares no piece stands on |
| TileEffects.RandomSafeTile | MT_TextBaseTester/TileEffectManager.cs:96-109 | an empty square when one exists, and "A1" when the board is full |
| TileEffects.EveryEmptyTileReachable | MT_TextBaseTester/TileEffectManager.cs:102-106 | every empty square is chosen by some draw |
| TileEffects.DrawPicks | MT_TextBaseTester/TileEffectManager.cs:105 | draw j picks the j-th empty square |
| TileEffects.GenerateAllBoardTiles | MT_TextBaseTester/TileEffectManager.cs:126-138 | the loops list the 64 squares rank by rank |
| TileEffects.AmbientUpToEffect | MT_TextBaseTester/TileEffectManager.cs:142-148 | after n visits, exactly the living pieces among the first n have had their square's ambient effect |
| TileEffects.AmbientAll | MT_TextBaseTester/TileEffectManager.cs:140-149 | the piece list keeps its length and the history only grows |
| TileEffects.AmbientAllEffect | MT_TextBaseTester/TileEffectManager.cs:140-149 | each piece with Health > 0 gets its square's ambient effect once, and no other piece changes |
| TileEffects.NoTagsNoChange | MT_TextBaseTester/TileEffectManager.cs:140-149 | with an empty tag table nothing changes |
| TileEffects.TileEffectManager.constructor | MT_TextBaseTester/TileEffectManager.cs:9-15 | the manager holds the board and an empty tag table |
| TileEffects.TileEffectManager.ApplyTileEffect | MT_TextBaseTester/TileEffectManager.cs:33-72 | the piece takes the ambient effect and its one entry is logged; the board's list is unchanged |
| TileEffects.TileEffectManager.ApplyTileEntryEffect | MT_TextBaseTester/TileEffectManager.cs:74-94 | the piece takes the entry effect, with Warp's tile drawn among the empty squares, and its one entry is logged |
| TileEffects.TileEffectManager.ApplyStartOfTurnEffects | MT_TextBaseTester/TileEffectManager.cs:17-23 | the ambient effect of the piece's square, if tagged |
| TileEffects.TileEffectManager.ApplyOnEntryEffects | MT_TextBaseTester/TileEffectManager.cs:25-31 | the entry effect of the new square, if tagged |
| TileEffects.TileEffectManager.GetRandomSafeTile | MT_TextBaseTester/TileEffectManager.cs:96-109 | the draw among the board's empty squares, or "A1" |
| TileEffects.TileEffectManager.SetTileEffect | MT_TextBaseTester/TileEffectManager.cs:111-115 | exactly one key is overwritten and exactly one entry logged |
| TileEffects.TileEffectManager.ClearTileEffect | MT_TextBaseTester/TileEffectManager.cs:117-124 | the key is removed, other keys are kept, and one entry is logged only if the key was present |
| TileEffects.TileEffectManager.ApplyEffectsToAllPieces | MT_TextBaseTester/TileEffectManager.cs:140-149 | the loop leaves the other board's pieces exactly as AmbientAll describes, and the manager's own board keeps its piece list |
| Abilities.ManagerAbilityEffect | MT_TextBaseTester/AbilityManager.cs:42-63 | the effect only changes stats and appends to the history |
| Abilities.Pay | MT_TextBaseTester/AbilityManager.cs:35-37 | only the user's Energy changes, by exactly the cost, and exactly the use is logged |
| Abilities.AbilityUse | MT_TextBaseTester/AbilityManager.cs:15-40 | a use only changes stats and appends to the history |
| Abilities.RefusedUseOnlyLogs | MT_TextBaseTester/AbilityManager.cs:17-33 | an empty name, a name without a cost, or too little energy changes no piece and logs exactly one entry |
| Abilities.UseAbilityPaysRawCost | MT_TextBaseTester/AbilityManager.cs:29-39 | otherwise the user's Energy drops by exactly the table cost, with no modifier, and no other piece's Energy changes |
| Abilities.UncasedAbilityOnlyPays | MT_TextBaseTester/AbilityManager.cs:35-39 | a costed ability without an effect case (Fire Leap) pays and logs the use and the missing effect, nothing else |
| Abilities.ManagerEffectKeepsEnergy | MT_TextBaseTester/AbilityManager.cs:42-63 | no ability effect changes anyone's Energy |
| Abilities.BlitzBoostsUserOnly | MT_TextBaseTester/AbilityManager.cs:50-53 | Blitz Protocol adds 5 Attack to the user and changes no other piece |
| Abilities.ManagerDamageNearbyEnemy | MT_TextBaseTester/AbilityManager.cs:65-73 | no piece changes team or square and the history only grows |
| Abilities.ShockPulseHitsFirstEnemy | MT_TextBaseTester/AbilityManager.cs:65-73 | Shock Pulse damages the first adjacent enemy in list order by 5 through the combat rule and logs the ability hit; no enemy, no change |
| Abilities.OverdriveBoostsAllies | MT_TextBaseTester/AbilityManager.cs:75-85 | Overdrive Command gives +5 Attack and +2 Speed to every same-team piece within one tile, the user included, and no other |
| Abilities.AbilityManager.constructor | MT_TextBaseTester/AbilityManager.cs:10-13 | the manager holds the board |
| Abilities.AbilityManager.UseAbility | MT_TextBaseTester/AbilityManager.cs:15-40 | the statements leave exactly AbilityUse's state |
| Abilities.AbilityManager.ApplyAbilityEffect | MT_TextBaseTester/AbilityManager.cs:42-63 | the switch leaves exactly ManagerAbilityEffect's state |
| Abilities.AbilityManager.DamageNearbyEnemy | MT_TextBaseTester/AbilityManager.cs:65-73 | leaves exactly ManagerDamageNearbyEnemy's state |
| Abilities.AbilityManager.BoostNearbyAllies | MT_TextBaseTester/AbilityManager.cs:75-85 | the loop leaves exactly the manager's aura state over the allies |
| Managers.CombatManager.constructor | MT_TextBaseTester/CombatManager.cs:9-12 | the manager holds the board |
| Managers.CombatManager.DamagePiece | MT_TextBaseTester/CombatManager.cs:14-27 | the statements leave exactly BoardRules.Damage's state |
| Managers.CombatManager.ApplyHit | MT_TextBaseTester/CombatManager.cs:16-19 | Health down, damage credited, the hit logged |
| Managers.CombatManager.CreditKill | MT_TextBaseTester/CombatManager.cs:21-26 | Health clamped to 0, the kill credited and logged |
| Managers.CombatManager.HealPiece | MT_TextBaseTester/CombatManager.cs:29-33 | leaves exactly BoardRules.Heal's state |
| Managers.CombatManager.ApplyStatusEffect | MT_TextBaseTester/CombatManager.cs:35-39 | leaves exactly BoardRules.StatusEffect's state |
| Managers.SynergyManager.constructor | MT_TextBaseTester/SynergyManager.cs:11-14 | the manager holds the board |
| Managers.SynergyManager.ApplySynergyBonuses | MT_TextBaseTester/SynergyManager.cs:16-31 | leaves exactly BoardRules.ApplySynergyBonuses' state |
| Managers.SynergyManager.ApplyPackBonus | MT_TextBaseTester/SynergyManager.cs:33-48 | leaves exactly BoardRules.PackBonus's state |
| Managers.PieceEvolutionManager.constructor | MT_TextBaseTester/PieceEvolutionManager.cs:11-14 | the manager holds the board and the catalogue |
| Managers.PieceEvolutionManager.AwardXP | MT_TextBaseTester/PieceEvolutionManager.cs:16-20 | leaves exactly Progression.AwardXP's state |
| Managers.PieceEvolutionManager.CheckLevelUp | MT_TextBaseTester/PieceEvolutionManager.cs:22-34 | leaves exactly Progression.CheckLevelUp's state |
| Managers.PieceEvolutionManager.CheckUltimateUnlock | MT_TextBaseTester/PieceEvolutionManager.cs:60-67 | leaves exactly Progression.CheckUltimateUnlock's state |
| Managers.PieceEvolutionManager.CheckForPieceEvolution | MT_TextBaseTester/PieceEvolutionManager.cs:69-79 | leaves exactly Progression.CheckForEvolution's state |
| Managers.PieceEvolutionManager.EvolvePiece | MT_TextBaseTester/PieceEvolutionManager.cs:81-101 | leaves exactly Progression.EvolvePiece's state |
| Personality.FirstOpponentFrom | MT_TextBaseTester/AIPersonalityManager.cs:77 | the first piece of another team on the square, or none exactly when there is none |
| Personality.FirstKingFrom | MT_TextBaseTester/AIPersonalityManager.cs:87 | the first King of the team, alive or not, or none exactly when there is none |
| Personality.AggressiveBonus | MT_TextBaseTester/AIPersonalityManager.cs:75-83 | 0 with no opponent on the square; otherwise 15 plus the first opponent's Health halved toward zero |
| Personality.DefensiveBonus | MT_TextBaseTester/AIPersonalityManager.cs:85-97 | always -10, 0 or 10; -10 only on a threatened square, and with no King of the team -10 exactly when the square is threatened |
| Personality.SamePackNear | MT_TextBaseTester/AIPersonalityManager.cs:101 | true iff one of the first n pieces is same-team, same-pack and within one tile |
| Personality.SynergyHunterBonus | MT_TextBaseTester/AIPersonalityManager.cs:99-103 | 10 iff some same-team, same-pack piece is within one tile of the move, else 0 |
| Personality.EvaluateMoveBonus | MT_TextBaseTester/AIPersonalityManager.cs:53-73 | each of the three personality types gets its own bonus (Defensive in -10, 0 or 10, SynergyHunter 0 or 10), and any other type gets 0 |
| Personality.UnknownPersonalityScoresZero | MT_TextBaseTester/AIPersonalityManager.cs:53-73 | any other personality scores 0 |
| Personality.DefensiveCases | MT_TextBaseTester/AIPersonalityManager.cs:85-97 | always -10, 0 or 10: 10 iff next to the team's first King, threat or not; -10 iff not, and the square is threatened |
| Personality.AggressiveHalfTruncates | MT_TextBaseTester/AIPersonalityManager.cs:80 | a target at Health -3 is worth 14: the halving truncates toward zero |
| Personality.AggressiveCaptureAtLeast15 | MT_TextBaseTester/AIPersonalityManager.cs:78-80 | a first opponent with non-negative Health is worth at least 15 |
| Personality.SynergyHunterCountsSelf | MT_TextBaseTester/AIPersonalityManager.cs:101 | the moving piece within one tile of the move is its own same-pack neighbour |
| AI.EvaluateBoard | MT_TextBaseTester/AIController.cs:146-161 | the loop sums Health + 2 x Attack over the team's pieces minus that of all others, dead ones included |
| AI.EvaluateZeroSum | MT_TextBaseTester/AIController.cs:151-158 | with only Player and AI pieces, the Player's score is minus the AI's |
| AI.EvaluateHealthShift | MT_TextBaseTester/AIController.cs:153-157 | changing one piece's Health by d moves the score by d for its own team and by -d for the other |
| AI.Relocated | MT_TextBaseTester/AIController.cs:59-60 | the copied board has the same length; the piece moved has only its Position changed, to the target square, and every other piece is unchanged |
| AI.Search | MT_TextBaseTester/AIController.cs:46-94 | every call below depth 3 answers with a score |
| AI.Scan | MT_TextBaseTester/AIController.cs:54-93 | a maximising level never lowers its best value, a minimising one never raises it; the move chosen is a listed one, and it changes only for a strictly better value |
| AI.FindBestMoveAlphaBeta | MT_TextBaseTester/AIController.cs:46-94 | the recursive method computes exactly Search |
| AI.MaximizingLevel | MT_TextBaseTester/AIController.cs:54-73 | the loop computes a maximising Scan from int.MinValue with no move |
| AI.MinimizingLevel | MT_TextBaseTester/AIController.cs:74-93 | the loop computes a minimising Scan from int.MaxValue with no move |
| AI.ReplyScore | MT_TextBaseTester/AIController.cs:59-62 | the reply's score is Search one level down on the board with the piece moved, for the other side |
| AI.ScanStep | MT_TextBaseTester/AIController.cs:57-70 | one iteration keeps a strictly better value and its move, updates alpha or beta, and stops once beta <= alpha |
| AI.SearchAnswers | MT_TextBaseTester/AIController.cs:51-52 | a move answer only at depth 3 with the game not over; depth 0 or a finished game answers the evaluation of that board |
| AI.ChosenMoveIsLegal | MT_TextBaseTester/AIController.cs:54-72 | a move the root returns is a legal move of the piece |
| AI.NoMovesAnswer | MT_TextBaseTester/AIController.cs:54-93 | with no legal moves the root answers no move, and deeper levels int.MinValue or int.MaxValue |
| AI.RootPicksAMove | MT_TextBaseTester/AIController.cs:57-67 | with a legal first move whose value beats int.MinValue, the root picks a move |
| AI.AdjustedCost | MT_TextBaseTester/AIController.cs:170 | max(1, cost + modifier): at least 1 and at least cost + modifier, equal to it when that is positive |
| AI.PayAdjusted | MT_TextBaseTester/AIController.cs:173-184 | only the user's Energy changes, by the adjusted cost, and exactly the use is logged |
| AI.PlainAbilityNameUnchanged | MT_TextBaseTester/AIController.cs:165 | an Ability text with no en dash and no white space at either end is its own name |
| AI.AIUseAbility | MT_TextBaseTester/AIController.cs:163-186 | the use only changes stats and appends to the history |
| AI.UseAbility | MT_TextBaseTester/AIController.cs:163-186 | the statements leave exactly AIUseAbility's state |
| AI.UseNamedAbility | MT_TextBaseTester/AIController.cs:167-185 | the use of a found name changes no piece's team or square and only appends to the history |
| AI.UseNamed | MT_TextBaseTester/AIController.cs:167-185 | the statements leave exactly UseNamedAbility's state |
| AI.AbilityEffectKeepsEnergy | MT_TextBaseTester/AIController.cs:185 | the Board's ability effect changes no piece's Energy |
| AI.AIRefusalChangesNothing | MT_TextBaseTester/AIController.cs:167-171 | a name without a cost, or energy below the adjusted cost, changes nothing at all, log included |
| AI.AIUsePaysAdjustedCost | MT_TextBaseTester/AIController.cs:170-185 | otherwise Energy drops by exactly max(1, cost + modifier), so by at least 1, no other Energy changes, and the use is logged before the effect |
| AI.NamedUsePays | MT_TextBaseTester/AIController.cs:167-185 | the same for the trimmed name once it is found |
| AI.LivingAmong | MT_TextBaseTester/AIController.cs:17 | exactly the team's pieces with Health > 0, in list order |
| AI.TurnStep | MT_TextBaseTester/AIController.cs:33-41 | with a chosen move the piece ends on it and "moved from its square to the move" is logged; with none the pieces are unchanged and "no valid moves" is logged; no other piece changes and exactly one entry is added |
| AI.TurnUpTo | MT_TextBaseTester/AIController.cs:20-42 | after n visits the history has grown by n entries, pieces still to visit are unchanged, and each visited piece and its entry are what its own visit left |
| AI.VisitKeepsLaterPieces | MT_TextBaseTester/AIController.cs:20-42 | a visit keeps the earlier history and the pieces still to visit |
| AI.VisitKeepsEarlierVisits | MT_TextBaseTester/AIController.cs:20-42 | a visit keeps each earlier visited piece and its entry, because the snapshot lists every piece once |
| AI.TakeTurn | MT_TextBaseTester/AIController.cs:13-43 | the method leaves exactly PlayTurn's state |
| AI.TurnLoop | MT_TextBaseTester/AIController.cs:20-42 | the foreach over the snapshot leaves exactly TurnUpTo's state over the whole snapshot |
| AI.TurnNext | MT_TextBaseTester/AIController.cs:22-41 | one iteration leaves exactly the state of one more visit |
| AI.PickMove | MT_TextBaseTester/AIController.cs:24-31 | the move is ChosenMove: alpha-beta to depth 3 below difficulty 3, the Monte Carlo oracle otherwise |
| AI.TurnMovesOnlyLivingTeamPieces | MT_TextBaseTester/AIController.cs:13-43 | after start-of-turn effects, only the team's living pieces may move, nothing but their Position changes, and one entry per such piece is logged |
| AI.TurnUpToSkips | MT_TextBaseTester/AIController.cs:20 | a piece the snapshot does not list is never touched |
| AI.TurnUpToOnlyMoves | MT_TextBaseTester/AIController.cs:33-37 | visits change at most the Position of each piece |
| AI.TurnStepCommits | MT_TextBaseTester/AIController.cs:33-41 | a visit leaves its piece on the chosen move with the "moved" entry, or unchanged with the "no valid moves" entry |
| AI.AfterVisitCommits | MT_TextBaseTester/AIController.cs:33-41 | right after visit j, its piece and entry are what the move chosen on the board before it commits |
| AI.TurnUpToVisit | MT_TextBaseTester/AIController.cs:20-42 | after any later visits, visit j's piece and entry are still what the move chosen for it on the board the earlier visits left commits |
| AI.VisitCommitsChosenMove | MT_TextBaseTester/AIController.cs:20-42 | on placed pieces a visited piece is still on its square when its turn comes, and its visit commits ChosenMove for it |
| AI.LoopCommitsChosenMoves | MT_TextBaseTester/AIController.cs:20-42 | every visit of the loop commits ChosenMove for its piece on the board the earlier visits left |
| AI.TurnCommitsChosenMoves | MT_TextBaseTester/AIController.cs:13-43 | TakeTurn ends each living team piece of the snapshot on the move chosen for it on the board left by the earlier visits, logging "moved", or leaves it in place logging "no valid moves" |
| AI.CommittedMoveIsLegal | MT_TextBaseTester/AIController.cs:24-36 | below difficulty 3, on a game not over, a committed move is a legal move of the piece |
| AI.FinishedGameWritesScore | MT_TextBaseTester/AIController.cs:33-52 | on a finished game the AI "moves" the piece to the text of its score, which is not a board square |

## Left out

- Console output is not modelled. The echo in `LogTurn` and the messages outside `LogTurn` are out, and each history entry is an abstract `Event`, not the formatted text.
- Menus, input loops, persistence (`LoadPersonality` included), rendering and the end-of-game reports are not part of this model.
- The Hard AI's Monte Carlo search and its random rollouts are not modelled, because the rollout loop has no bound. `FindBestMoveMCTS` is an oracle parameter of `AI.TakeTurn`.
- Random draws are parameters: the template picks, the Warp tile and `Utils.RandomPosition`'s draws. `AssignRandomPersonality` is out; the personality is a parameter.
- Floating point: the `* 1.05`, `* 1.03` and `* 1.02` casts are modelled as exact integer percentages truncated toward zero. They can differ from the double product where the decimal factor is not exact in binary.
- C# `int` overflow is not modelled: integers are unbounded, and int.MinValue and int.MaxValue are named constants.
- `Board.MovePiece` and `Board.Clone` are not part of this model. The search assumes that a clone is a value copy and that a move sets the piece's Position and nothing else; the Warp effect assumes the same move.
- `Board.CombatManager` is not part of this model. It is assumed to be a combat manager on the same board.
- `Piece.Clone` is not part of this model. It is assumed to copy every field.
- `Piece.EnergyCostModifier` is used but never declared in `Piece.cs`. The model adds it as an ordinary field defaulting to 0.
- The AI's `int.Parse` of a child's score string is the score itself, because the score was written by `ToString` one level down.
- The position dictionary's `KeyNotFound` on a label that is not a board square is modelled only in `MovementValidator.MoveLegalAsWritten`. The other movement and board members require their pieces to stand on board labels (`Placed`), as every team generator places them.
- `GenerateRandomTeam`'s indexing of an empty list (the shipped templates hold no King) is modelled as the error result `Err("King")`, not as an exception.
- `PlayerCreateTeam` waiting forever for a valid choice is modelled as running out of typed input (an error result).
- The description and pack-bonus text tables (`AbilityDescriptions`, `PackBonuses`) and `PackPersonalities` are out; they only feed console text.
- `Board.RandomlyGeneratePieces`, `Board.PlayerCreateTeam`, `DisplayBoard` and `ShowTeamPreview` are out. They only call the team generators or print.
- AI.Search: its contract only says which answers a level gives. The value it computes is tied to the code through AI.FindBestMoveAlphaBeta and the lemmas.
- AI.TakeTurn: the move of a piece is chosen on the board left by the pieces visited before it, as in the code. No lemma relates the moves of two pieces to each other.
- AI.AIUseAbility: a piece whose Ability is null makes `Split` throw a `NullReferenceException` at AIController.cs:165. The model has no null strings: a null Ability is the empty string, whose name "" has no cost in the shipped table, so the use is refused and nothing changes.
- MonsterDatabase.Eligible: `OrdinalIgnoreCase` folds the case of every letter, the model only of the ASCII letters. The type names it compares ("King" to "Pawn") and the shipped templates' types are ASCII, where the two agree.
- BoardState.IsAdjacentToPosition: it requires both labels to have two characters when neither is empty. A non-empty one-character label makes Board.cs:451-452 read `position[1]` and throw `IndexOutOfRangeException`; that throw is not modelled. The model calls it only on board labels.
- Utils.CoordinatesToPosition: it requires 'A' + col to be a character code below the surrogate range. C#'s `(char)` cast instead wraps any int modulo 65536. The model applies it only to columns 0..7.
- TileEffects.TileEffectManager.ApplyTileEntryEffect: the Warp relocation is a field update of the piece. The on-entry effects of the warp target are not re-applied, and neither is anything else `Board.MovePiece` might do.

## Findings

| source | as written | input that shows it | evidently intended | confidence | as-written member | corrected member |
|---|---|---|---|---|---|---|
| MT_TextBaseTester/MovementValidator.cs:63-70 | When a Rook or Queen is tested against its own square, `step` is -1. `col != targetCol` then never stops the scan, and it walks left until a piece blocks it or the lookup reaches col 0, where `files[col - 1]` (line 159) throws `IndexOutOfRangeException`. `GetLegalMoves` tests every square, so the whole list throws. | A Rook on A1 (its starting square), or any Rook or Queen with no piece to its left on its rank | The own square is simply not a straight move, so the list is computed without it | high (derived from the code by proof; not executed) | MovementValidator.RookOnFileACrashes | MovementValidator.RookMoves |
