# Monstris: a verified model of the falling-block engine and its battle rules

Monstris is a falling-block puzzle game in which clearing lines damages a
monster. The player levels up from the experience that defeated monsters
give and spends skill points on skills that add damage. This project
models the game's rules in Dafny and proves what they promise. It leaves
out the rendering and the timers.

One module per source file:

| module | file | what it holds |
|---|---|---|
| `Types` | `src/game/types.ts` | pieces, cells, boards, active pieces, kicks, `Option` |
| `Tetromino` | `src/game/tetromino.ts` | the seven base shapes and pivots; the matrix rotation, written as the nested loop the source runs; the four orientations; orientation lookup; the Fisher–Yates bag shuffle on an array, with the random indices as an input |
| `BoardRules` | `src/game/board.ts` | the 20×10 board; `canMove`, `mergePieceToBoard`, `clearCompletedLines` and `getTSpinType` as loop methods, each proved against a specification function; spawn placement; `advancePosition` |
| `Rotation` | `src/game/rotation.ts` | the per-type wall-kick tables, keyed by the transition `from>to`; `getKickTests`; the first-fit search of `attemptRotation` |
| `Battle` | `src/game/battle.ts` | the damage calculator |
| `Skills` | `src/data/skills.ts` | skill definitions, levels, totals and available points |
| `Stages` | `src/data/stages.ts` | the ten stages, the stage lookup and the level curve |
| `GameState` | `src/contexts/GameStateContext.tsx` | the progression reducer and its initial state |
| `Events` | `src/game/events.ts` | the `GameEventBus` class, whose `listeners` map `on` and `off` change in place |
| `SessionRules`, `SessionKicks`, `SessionSpec`, `Session` | `src/components/TetrisGame.tsx` | the game component's rule logic (below) |

## The game session

The component keeps copies of the engine helpers (`TetrisGame.tsx:215-590`).
Where the copies match the engine, the session uses the engine modules:
- the shapes, pivots and rotation;
- `canMove`, `mergePieceToBoard` and `clearCompletedLines`;
- `createPiece` and `getTSpinType`.

Where they differ, the session has its own definitions:
- The kick tables. The I piece's `0>3` list and the half-turn lists differ
  from the engine's (`SessionKicks.IZeroToThreeDiverges`,
  `SessionKicks.HalfTurnsDiverge`).
- `getKickTests`.
- The back-to-back tracker. It raises its flag only on the second
  qualifying clear in a row.
- A skill record of seven skills.

`Session.GameSession` is a class. It holds the component's state and refs in
one field, `state`. Each method is one of the component's operations:
- `startGame` and `dealDamageToMonster`, with the experience loop;
- `lockPiece`, in the source's order of steps:
  1. merge and clear;
  2. line damage and the T-spin and back-to-back bonuses;
  3. the charged strike;
  4. the flame burn;
  5. the hit on the monster;
  6. the next piece, the spawn check and the steady-mind strike;
- `movePiece`, and `hardDrop` with its descent loop;
- `attemptRotation`, `handleHold` and the skill choice.

The class runs the corrected behaviour of the two defects listed under
"## Findings":
- the draw: `SessionRules.DrawNext` restarts the index only with a new
  queue. This affects `GetNextPieceType`, `SpawnNext`, `LockPiece`,
  `HardDrop` and `HandleHold`.
- the kick lookup: `SessionKicks.KickTests` uses the list of the transition
  performed. This affects `AttemptRotation`.
The source's behaviour as written is modelled beside them, as
`SessionRules.DrawAsWritten` and `SessionKicks.KickTestsAsWritten`, with a
lemma that exhibits each difference.

Each method's `ensures` states its new state as a function of the old one
in module `SessionSpec`. That module's lemmas prove what those functions
mean and that every operation keeps the invariant `ValidState`. Module
`SessionRules` holds the session's smaller rules:
- the monster table and the level curve;
- the experience loop;
- the back-to-back tracker;
- the charged-strike, flame and steady-mind counters;
- the piece queue and its preview;
- the hard-drop target.

## Model

| member | source | states |
|---|---|---|
| `Tetromino.AllTypesOnce` | src/game/tetromino.ts:3 | the seven piece types are listed once each |
| `Tetromino.EachKindOnce` | src/game/tetromino.ts:3 | a bag that is a permutation of the seven types has length 7 and holds every type exactly once |
| `Tetromino.BaseShape` | src/game/tetromino.ts:15-58 | every base shape is a 4×4 matrix |
| `Tetromino.PivotsOnLattice` | src/game/tetromino.ts:60-68 | every pivot has both coordinates whole or both half-odd (1 or 1.5), so the doubled pivot is exact |
| `Tetromino.RoundingIsExact` | src/game/tetromino.ts:78-84 | for such a pivot, the rounded target column and row are exactly `px+py−y` and `py−px+x`, so `Math.round` changes nothing |
| `Tetromino.Rotated` | src/game/tetromino.ts:70-93 | the rotation of a square matrix is a square matrix of the same size |
| `Tetromino.RotatedAt` | src/game/tetromino.ts:70-93 | each cell of the rotated matrix holds the source cell that lands on it, and 0 when no source cell in the box does |
| `Tetromino.CellLands` | src/game/tetromino.ts:76-88 | every source cell whose target is inside the box lands there with its value |
| `Tetromino.CellHasSource` | src/game/tetromino.ts:76-88 | every occupied cell of the rotated matrix comes from a source cell that maps onto it: no other cell is set |
| `Tetromino.RotatedMovesCells` | src/game/tetromino.ts:70-93 | both directions at once: in-box source cells land at their targets, and each occupied target has such a source |
| `Tetromino.RotateMatrix` | src/game/tetromino.ts:70-93 | the nested loop that fills a fresh zero matrix computes exactly `Rotated` |
| `Tetromino.Turned` | src/game/tetromino.ts:95-102 | any number of quarter turns keeps a square matrix square and of its size |
| `Tetromino.GenerateRotations` | src/game/tetromino.ts:95-102 | the loop yields exactly four matrices, the first the base shape unchanged, the k-th the base turned k times |
| `Tetromino.Rotations` | src/game/tetromino.ts:104-112 | every type has four 4×4 orientations, the first its base shape |
| `Tetromino.RotationMatrix` | src/game/tetromino.ts:114-115 | orientation `r` is the base shape turned `r % 4` times, a 4×4 matrix |
| `Tetromino.RotationIndexWraps` | src/game/tetromino.ts:114-115 | orientations `r` and `r + 4` are the same matrix |
| `Tetromino.PieceMatrix` | src/game/tetromino.ts:117 | `getPieceMatrix` is orientation 0, the base shape |
| `Tetromino.QuarterTurn` | src/game/tetromino.ts:70-93 | a quarter turn about the centre of the piece's box keeps every cell of a matrix that fits the box, and the result still fits the box |
| `Tetromino.WideQuarterCount` | src/game/tetromino.ts:70-93 | a quarter turn in the 4×4 box keeps the number of occupied cells |
| `Tetromino.NarrowQuarterCount` | src/game/tetromino.ts:70-93 | a quarter turn in the 3×3 box keeps the number of occupied cells |
| `Tetromino.FourQuarters` | src/game/tetromino.ts:95-102 | four quarter turns in a box give back the matrix |
| `Tetromino.BaseShapeCells` | src/game/tetromino.ts:15-68 | every base shape has exactly four occupied cells, all inside the box its pivot turns |
| `Tetromino.QuarterChain` | src/game/tetromino.ts:95-102 | all three turned orientations of a four-cell shape keep four cells, and a fourth turn gives back the base |
| `Tetromino.TurnsOfFourCells` | src/game/tetromino.ts:95-102 | each of the four orientations has four cells, and turning orientation 3 once more gives the base |
| `Tetromino.CatalogueOrientations` | src/game/tetromino.ts:104-112 | every orientation in the catalogue has four occupied cells, and turning orientation 3 gives back the base shape |
| `Tetromino.Shuffled` | src/game/tetromino.ts:119-126 | the shuffle keeps the bag's length |
| `Tetromino.ShuffledPermutes` | src/game/tetromino.ts:119-126 | for every choice of indices `j ≤ i`, the shuffled bag is a permutation of the input |
| `Tetromino.SwapPermutes` | src/game/tetromino.ts:123 | a swap is a permutation |
| `Tetromino.SwapInPlace` | src/game/tetromino.ts:123 | the array after the swap is the old contents with entries `i` and `j` exchanged |
| `Tetromino.CreateShuffledBag` | src/game/tetromino.ts:119-126 | the in-place loop computes `Shuffled`, and the bag has length 7 and holds each type exactly once |
| `BoardRules.EmptyRow` | src/game/board.ts:7 | a row is 10 empty cells |
| `BoardRules.CreateEmptyBoard` | src/game/board.ts:4-8 | the board has 20 rows of 10 cells, all empty |
| `BoardRules.CanMove` | src/game/board.ts:50-73 | the answer is `Fits`: no occupied cell of the orientation, after the offset, is outside columns 0..9, at row 20 or below, or on an occupied cell at row 0 or below; cells above the board never collide |
| `BoardRules.ScanMatrix` | src/game/board.ts:57-72 | the nested loop with early return answers exactly `FitsAt` |
| `BoardRules.AdvancePosition` | src/game/board.ts:120-126 | the offset is added to x and y; type and orientation are kept |
| `BoardRules.FitsAfterAdvance` | src/game/board.ts:120-126 | an advanced piece fits at an offset exactly when the original fits at the summed offset |
| `BoardRules.CreatePiece` | src/game/board.ts:75-82 | a new piece has orientation 0 at position (3, −1) |
| `BoardRules.SpawnFitsEmptyBoard` | src/game/board.ts:75-82 | every new piece fits on the empty board |
| `BoardRules.Merged` | src/game/board.ts:10-28 | the board keeps its 20×10 size; every cell the piece does not cover is unchanged; a cell is occupied after exactly when it was before or the piece covers it |
| `BoardRules.MergedLocksPiece` | src/game/board.ts:21-23 | every in-board occupied cell of the piece gets the piece's colour |
| `BoardRules.MergedBlocksPiece` | src/game/board.ts:10-28 | once merged, a piece with an in-board cell no longer fits where it was |
| `BoardRules.MergePieceToBoard` | src/game/board.ts:10-28 | the copy-and-write loop computes `Merged`; the input board is a value and is not changed |
| `BoardRules.Kept` | src/game/board.ts:34-41 | the rows kept are no more than the rows given |
| `BoardRules.CountFull` | src/game/board.ts:34-41 | full rows and kept rows add up to all rows |
| `BoardRules.EmptyRows` | src/game/board.ts:43-45 | the refill is the given number of empty rows |
| `BoardRules.Cleared` | src/game/board.ts:30-48 | the cleared board has 20 rows |
| `BoardRules.ClearCompletedLines` | src/game/board.ts:30-48 | the loop returns `Cleared`, and `clearedLines` is the number of full rows |
| `BoardRules.KeptRows` | src/game/board.ts:34-41 | every kept row is a row of the input and is not full |
| `BoardRules.KeptAll` | src/game/board.ts:34-41 | a board without full rows is kept whole and clears nothing |
| `BoardRules.ClearedShape` | src/game/board.ts:30-48 | the top `clearedLines` rows are empty, the rest are the non-full input rows in their order, and no row is full |
| `BoardRules.ClearIdempotent` | src/game/board.ts:30-48 | clearing a cleared board clears 0 rows and changes nothing |
| `BoardRules.FilledCorners` | src/game/board.ts:102-109 | at most the number of corners inspected are counted |
| `BoardRules.TSpinRule` | src/game/board.ts:91-118 | none exactly when the last move was not a rotation, the piece is not T, or fewer than 3 corners are off-board or occupied; otherwise triple for 3 or more lines, double for 2, mini for the rest, 0 lines included |
| `BoardRules.GetTSpinType` | src/game/board.ts:84-118 | the corner-counting loop returns the classification `TSpinRule` describes |
| `Rotation.GetKickTests` | src/game/rotation.ts:221-240 | the list is never empty and starts with the zero kick; for a key the type's table has, it is that table's list |
| `Rotation.StandardKeys` | src/game/rotation.ts:50-107 | the standard table has exactly the eight quarter-turn transitions |
| `Rotation.HalfTurnKeys` | src/game/rotation.ts:191-196 | the half-turn table has exactly the four half-turn transitions |
| `Rotation.IKeys` | src/game/rotation.ts:128-189 | the I table has exactly the twelve transitions |
| `Rotation.OKeys` | src/game/rotation.ts:200-213 | the O table has exactly the twelve transitions |
| `Rotation.TablesComplete` | src/game/rotation.ts:198-219 | every type's table has exactly the twelve transitions `a>b` with `a ≠ b` in 0..3 |
| `Rotation.ZeroFirstUnion` | src/game/rotation.ts:199 | a table spread over another keeps "every list is non-empty and starts at (0,0)" |
| `Rotation.StandardZeroFirst` | src/game/rotation.ts:50-107 | every standard list is non-empty and starts at (0,0) |
| `Rotation.HalfTurnZeroFirst` | src/game/rotation.ts:191-196 | every half-turn list is non-empty and starts at (0,0) |
| `Rotation.IZeroFirst` | src/game/rotation.ts:128-189 | every I list is non-empty and starts at (0,0) |
| `Rotation.OZeroFirst` | src/game/rotation.ts:200-213 | every O list is non-empty and starts at (0,0) |
| `Rotation.KickListsStartAtZero` | src/game/rotation.ts:198-219 | every list of `SRS_KICKS` is non-empty and starts at (0,0) |
| `Rotation.OPieceNeverKicks` | src/game/rotation.ts:200-213 | the O piece only ever tries the zero offset |
| `Rotation.TransitionsUseTable` | src/game/rotation.ts:221-227 | for every transition key the lookup is the type's table entry, so the fallbacks serve only keys outside the table |
| `Rotation.TargetRotation` | src/game/rotation.ts:249 | the target orientation lies in 0..3 and, for turns of −1, 1 or 2 from 0..3, is the orientation reached by wrapping |
| `Rotation.KicksFor` | src/game/rotation.ts:249-252 | the kicks a turn tries are non-empty and start with the zero kick |
| `Rotation.Kicked` | src/game/rotation.ts:255-262 | a kicked piece has the target orientation at the original position plus the kick |
| `Rotation.FirstFit` | src/game/rotation.ts:254-267 | the index found is the first kick that fits: it fits, every earlier one does not, and none fits when the index is the list's length |
| `Rotation.NoChangeKeepsPiece` | src/game/rotation.ts:247 | a change of 0 returns the piece unchanged and not rotated |
| `Rotation.RotationSucceeds` | src/game/rotation.ts:254-266 | a success has the target orientation, fits, sits at the original position plus a listed kick, is marked rotated, and every earlier kick fails |
| `Rotation.RotationFails` | src/game/rotation.ts:254-269 | the result is empty exactly when no kick fits, and an empty result is not marked rotated |
| `Rotation.ZeroKickFirst` | src/game/rotation.ts:254-266 | when the turn fits in place, the piece turns in place |
| `Rotation.EmptyBoardTurnsInPlace` | src/game/rotation.ts:198-266 | on the empty board, a target orientation inside the walls and above the floor is accepted with the zero kick |
| `Battle.GetLineDamage` | src/game/battle.ts:16-19 | 1, 2, 3 and 4 lines deal 1, 2, 3 and 6; any other count deals 0 |
| `Battle.ComputeTSpinDamage` | src/game/battle.ts:21-32 | no spin adds nothing; every spin adds at least 2 |
| `Battle.TSpinBonusValues` | src/game/battle.ts:21-32 | mini adds `2 + max(0, lines − 1)`, double 6, triple 9 |
| `Battle.CalculateDamage` | src/game/battle.ts:34-70 | no lines gives zero damage, combo 0 and no flag whatever the rest; otherwise the combo grows by one and the output flag is set exactly for a T-spin or four lines |
| `Battle.BackToBackBonus` | src/game/battle.ts:59-67 | the incoming flag adds exactly 2 when the clear qualifies, and nothing otherwise |
| `Battle.FlatAttackAddsLevel` | src/game/battle.ts:41-42 | one more flat-attack level adds exactly one damage to every clear |
| `Battle.SingleLineBonusAddsLevel` | src/game/battle.ts:44-45 | one more single-line level adds exactly one damage to a one-line clear and nothing to any other |
| `Battle.TetrisBonusAddsTwice` | src/game/battle.ts:46-48 | one more four-line level adds exactly two damage to a four-line clear and nothing to any other |
| `Battle.ComboBonusPerLink` | src/game/battle.ts:50-53 | a positive combo level adds `link × level` from the second link of a chain on, and nothing on the first link or at a level of 0 or less |
| `Battle.TSpinAddsBonus` | src/game/battle.ts:55-67 | a T-spin adds its bonus to the same clear without a spin, plus the back-to-back bonus with the incoming flag when the clear would not qualify without the spin |
| `Battle.PlainClearDamage` | src/game/battle.ts:34-70 | without skills, spin or incoming flag, a clear deals exactly its line damage |
| `Battle.FirstLinkHasNoComboBonus` | src/game/battle.ts:50-53 | the combo skill adds nothing to the first clear of a chain |
| `Battle.TetrisDamage` | src/game/battle.ts:34-70 | without skills, four lines deal 6, and 8 with the incoming back-to-back flag |
| `Battle.DamageNonNegative` | src/game/battle.ts:34-70 | with non-negative skills the damage is never negative, and at least 1 for 1 to 4 lines |
| `Skills.InitialKeys` | src/data/skills.ts:34-44 | the initial levels have an entry for every skill |
| `Skills.CreateInitialSkillLevels` | src/data/skills.ts:34-44 | every skill, all nine, starts at level 0 |
| `Skills.Find` | src/data/skills.ts:46 | a found definition is in the list with the id asked for; nothing found means no entry has that id |
| `Skills.GetSkillDefinition` | src/data/skills.ts:46 | a found definition is one of `SKILL_DEFINITIONS` with the id asked for |
| `Skills.DefinitionIdsDistinct` | src/data/skills.ts:20-30 | the definitions list every skill once, in order, and no two share an id |
| `Skills.FindUnique` | src/data/skills.ts:46 | with distinct ids, `find` returns the one definition with that id |
| `Skills.EverySkillDefined` | src/data/skills.ts:20-30 | every skill id has a definition, and it is the only one with that id |
| `Skills.SumAfterIncrement` | src/data/skills.ts:50 | changing one listed skill's level changes the sum by the difference |
| `Skills.SumUnchanged` | src/data/skills.ts:50 | changing an unlisted skill leaves the sum alone |
| `Skills.SumOfZeros` | src/data/skills.ts:50 | all-zero levels sum to 0 |
| `Skills.InitialTotalIsZero` | src/data/skills.ts:34-50 | the initial levels total 0 |
| `Skills.TotalAfterGain` | src/data/skills.ts:48-50 | raising one skill by one (a missing entry counting 0) raises the total by one |
| `Skills.AllSkillsOnce` | src/data/skills.ts:20-30 | every skill id occurs once in the list of ids |
| `Skills.GetAvailableSkillPoints` | src/data/skills.ts:52-56 | the points are never negative; they are positive exactly when fewer than `max(0, level − 1)` levels are spent, and then points plus spent make that number; at level ≤ 1 there are none |
| `Skills.GainSpendsPoint` | src/data/skills.ts:52-56 | with a point available, raising a skill spends exactly one point |
| `Stages.StageIndex` | src/data/stages.ts:153-156 | the index is `id − 1` clamped to 0..9 |
| `Stages.GetStageDefinition` | src/data/stages.ts:153-156 | the result is a stage of the table |
| `Stages.StageIdsInOrder` | src/data/stages.ts:29-151 | the table has ten stages with ids 1..10 in order |
| `Stages.LookupGivesStage` | src/data/stages.ts:153-156 | ids below 1 give stage 1, ids above 10 give stage 10, the others their own stage |
| `Stages.OnlyFirstStagesAttack` | src/data/stages.ts:40-61 | exactly stages 1 and 2 carry an attack pattern |
| `Stages.StagesPositive` | src/data/stages.ts:29-151 | every stage has positive hit points and reward |
| `Stages.GetLevelRequirement` | src/data/stages.ts:158 | the requirement is 30 at level 1 and at least 30 from level 1 on |
| `Stages.LevelRequirementStep` | src/data/stages.ts:158 | each level needs 18 more than the one before |
| `Stages.LevelRequirementIncreasing` | src/data/stages.ts:158 | the requirement strictly increases with the level |
| `GameState.InitialState` | src/contexts/GameStateContext.tsx:30-41 | the player starts at level 1 without experience or skills, on stage 1 with none cleared and no pending choice |
| `GameState.Reduce` | src/contexts/GameStateContext.tsx:46-115 | no action lowers the highest cleared stage, and only the two skill actions change the skills |
| `GameState.SetStageOnlyMoves` | src/contexts/GameStateContext.tsx:48-55 | `SET_STAGE` changes only the current stage |
| `GameState.StageClearedRecords` | src/contexts/GameStateContext.tsx:56-69 | `STAGE_CLEARED` sets level and experience, sets the current and the highest cleared stage each to the larger of its old value and the cleared stage, keeps the skills, and sets the pending choices |
| `GameState.StagesNeverDecrease` | src/contexts/GameStateContext.tsx:46-115 | the highest cleared stage never decreases, and the current stage only decreases by `SET_STAGE` |
| `GameState.ProgressKeepsPending` | src/contexts/GameStateContext.tsx:70-79 | `SET_PLAYER_PROGRESS` sets level and experience and keeps the previous pending choices when none are given |
| `GameState.GainRaisesOneSkill` | src/contexts/GameStateContext.tsx:88-101 | `GAIN_SKILL_LEVEL` raises the named skill by one (a missing entry counting 0), leaves the others, raises the total by one and clears the pending choices |
| `GameState.GainSpendsAvailablePoint` | src/contexts/GameStateContext.tsx:88-101 | with a point available, a gain spends exactly one |
| `GameState.PendingActionsOnlyPending` | src/contexts/GameStateContext.tsx:102-111 | `CLEAR_PENDING_SKILLS` and `SET_PENDING_SKILLS` change only the pending choices |
| `GameState.SkillLevelsAndOther` | src/contexts/GameStateContext.tsx:80-113 | `SET_SKILL_LEVELS` replaces only the skills, and an unknown action changes nothing |
| `Events.Added` | src/game/events.ts:34-35 | adding keeps a handler set free of repeats, holds the new handler, and holds nothing else new |
| `Events.Removed` | src/game/events.ts:43 | removing leaves exactly the other handlers, without repetitions when there were none |
| `Events.RemovedKeepsOrder` | src/game/events.ts:43 | removing a registered handler drops its one occurrence and keeps the others in order |
| `Events.RemovedAbsent` | src/game/events.ts:43 | removing an absent handler changes nothing |
| `Events.RemoveAfterAdd` | src/game/events.ts:33-47 | removing a handler just added gives back the set it was added to |
| `Events.Registered` | src/game/events.ts:33-38 | after `on`, the handler is in the event's set, other events are unchanged, and no set is empty |
| `Events.Unregistered` | src/game/events.ts:40-47 | after `off`, the handler is not in the event's set, a set left empty is deleted, other events are unchanged, and an unknown event is a no-op |
| `Events.OffUndoesOn` | src/game/events.ts:33-47 | `off` after `on` of a new handler gives back the registry |
| `Events.GameEventBus.constructor` | src/game/events.ts:25 | a new bus has no listeners |
| `Events.GameEventBus.Emit` | src/game/events.ts:27-31 | an event without listeners calls nothing; otherwise each handler is called once with the payload, in registration order |
| `Events.GameEventBus.On` | src/game/events.ts:33-38 | the listeners become `Registered`, and the returned unsubscribe names the same event and handler |
| `Events.GameEventBus.Off` | src/game/events.ts:40-47 | the listeners become `Unregistered` |
| `Events.GameEventBus.RunUnsubscribe` | src/game/events.ts:37 | calling what `on` returned is `off` for the same event and handler |
| `SessionRules.GetMonsterMaxHP` | src/components/TetrisGame.tsx:17-25 | a monster has 18 + 8 × stage + 28 × loop hit points, at least 18 |
| `SessionRules.NextMonster` | src/components/TetrisGame.tsx:816-820 | the next monster is the next stage of the loop, or stage 0 of the next loop after the fifth |
| `SessionRules.FiveDefeatsMakeALoop` | src/components/TetrisGame.tsx:816-820 | five defeats return to the same stage one loop later, with 28 more hit points |
| `SessionRules.GetLevelRequirement` | src/components/TetrisGame.tsx:27 | the component's level curve is the one of the stage data, at least 30 |
| `SessionRules.LevelUp` | src/components/TetrisGame.tsx:790-801 | the loop ends below the requirement of the level reached, never lowers the level, keeps experience non-negative, and raises the level exactly when the experience reached the requirement |
| `SessionRules.LevelUpConservesExperience` | src/components/TetrisGame.tsx:790-801 | levelling up spends experience and loses none: the total experience the level and remainder stand for is unchanged |
| `SessionRules.UpdateBackToBack` | src/components/TetrisGame.tsx:827-846 | the tracker remembers whether this clear qualified and keeps its invariant |
| `SessionRules.BackToBackOnSecondInARow` | src/components/TetrisGame.tsx:827-846 | the flag is raised exactly on a qualifying clear that follows a qualifying clear |
| `SessionRules.Raised` | src/components/TetrisGame.tsx:1516-1518 | the chosen skill gains one level and the others stay |
| `SessionRules.FirstThree` | src/components/TetrisGame.tsx:807-809 | the offered skills are the first three of the shuffled list, or all of it when shorter |
| `SessionRules.ClearDamageMatchesCalculator` | src/components/TetrisGame.tsx:855-912 | the component's clear damage equals the calculator's when the calculator's incoming flag is "the previous clear qualified", and the component's flag is the calculator's output flag and that |
| `SessionRules.EmptyLockKeepsSessionStreak` | src/components/TetrisGame.tsx:945-948 | a lock without lines resets the calculator's flag but leaves the component's streak, which two qualifying clears still complete |
| `SessionRules.ChargeRule` | src/components/TetrisGame.tsx:915-932 | a ready charge adds 3 × level once; the charge becomes ready exactly on the third single in a row; a single with the skill counts one more up to the third, which starts the count over; any other clear, or level 0, resets the count |
| `SessionRules.ThreeSinglesCharge` | src/components/TetrisGame.tsx:915-932 | three singles in a row make the next clear add 3 × level |
| `SessionRules.FlameBurn` | src/components/TetrisGame.tsx:934-937 | while turns are left, a clear adds 3 × level and uses one turn; otherwise nothing changes |
| `SessionRules.FlameAfterHit` | src/components/TetrisGame.tsx:939-943 | after a hit, the flame is out if the monster fell and lasts 2 × level turns otherwise |
| `SessionRules.SteadyStep` | src/components/TetrisGame.tsx:957-961 | each spawn counts one placement; at level > 0 the fifth deals 3 × level and restarts the count |
| `SessionRules.FifthSpawnStrikes` | src/components/TetrisGame.tsx:957-961 | from a fresh count, spawns one to four deal nothing and the fifth deals 3 × level |
| `SessionRules.Preview` | src/components/TetrisGame.tsx:1465-1475 | the preview is the next five pieces of the queue, or all that are left |
| `SessionRules.DrawAsWrittenRepeatsFirstBag` | src/components/TetrisGame.tsx:651-675 | as written, a draw can deal the previewed piece and then restart the queue from its first bag, so the next piece is not the previewed one |
| `SessionRules.DrawNext` | src/components/TetrisGame.tsx:661-675 | the corrected draw keeps the queue valid |
| `SessionRules.DrawFollowsPreview` | src/components/TetrisGame.tsx:661-675 | the corrected draw deals the first previewed piece, and the new preview continues the old one |
| `SessionRules.Lowered` | src/components/TetrisGame.tsx:1042-1048 | one step of the descent moves the piece down one row |
| `SessionRules.DropTarget` | src/components/TetrisGame.tsx:1041-1050 | the ghost stays in the piece's column and orientation, cannot move down one more row, and could from every row above it |
| `SessionRules.DropTargetFits` | src/components/TetrisGame.tsx:1041-1050 | a ghost lower than the piece fits on the board |
| `SessionKicks.SessionIKeys` | src/components/TetrisGame.tsx:348-405 | the component's I table has exactly the eight quarter-turn transitions |
| `SessionKicks.SessionHalfTurnKeys` | src/components/TetrisGame.tsx:407-444 | the component's half-turn table has exactly the four half-turn transitions |
| `SessionKicks.SessionIZeroFirst` | src/components/TetrisGame.tsx:348-405 | every list of the component's I table starts at (0,0) |
| `SessionKicks.SessionHalfTurnZeroFirst` | src/components/TetrisGame.tsx:407-444 | every list of the component's half-turn table starts at (0,0) |
| `SessionKicks.SessionTablesComplete` | src/components/TetrisGame.tsx:446-467 | every type's table has exactly the twelve transitions, each list non-empty and starting at (0,0) |
| `SessionKicks.SessionTableKeys` | src/components/TetrisGame.tsx:446-467 | every type's table has exactly the twelve transitions |
| `SessionKicks.SessionTableZeroFirst` | src/components/TetrisGame.tsx:446-467 | every list of every type's table starts at (0,0) |
| `SessionKicks.IZeroToThreeDiverges` | src/components/TetrisGame.tsx:398-404 | the component's I `0>3` list is not the engine's |
| `SessionKicks.HalfTurnsDiverge` | src/components/TetrisGame.tsx:407-444 | the component tries seven offsets for a half turn where the engine tries six |
| `SessionKicks.LookupKicks` | src/components/TetrisGame.tsx:1064-1087 | the list is non-empty and starts at (0,0), and it is the table's entry when the table has the key |
| `SessionKicks.CounterClockwiseUsesClockwiseList` | src/components/TetrisGame.tsx:1097-1099 | as written, a counter-clockwise turn of T, S or Z from 0 tries the `0>1` list, which is not the `0>3` list of the turn it makes |
| `SessionKicks.TurnedTo` | src/components/TetrisGame.tsx:1097 | the target orientation lies in 0..3 |
| `SessionKicks.KickTests` | src/components/TetrisGame.tsx:1064-1099 | the corrected lookup returns a non-empty list starting at (0,0) |
| `SessionKicks.KickTestsFollowTransition` | src/components/TetrisGame.tsx:1064-1099 | for every turn the game makes, the corrected lookup tries exactly the table's list for the transition performed |
| `SessionSpec.InitialRule` | src/components/TetrisGame.tsx:593-649 | before the first game there is no piece, nothing runs, the invariant holds and the preview is the first bag |
| `SessionSpec.StartedRule` | src/components/TetrisGame.tsx:677-714 | a new game runs on the empty board with the first bag's first piece in play, the preview continuing the bag, and the first monster at full health |
| `SessionSpec.DamageKeepsValid` | src/components/TetrisGame.tsx:779-825 | dealing damage keeps the invariant |
| `SessionSpec.DamageFrame` | src/components/TetrisGame.tsx:779-825 | dealing damage touches only the monster, the player's level and experience, the offered skills and their menu, the flame and the combo |
| `SessionSpec.DamageWounds` | src/components/TetrisGame.tsx:779-787 | no damage changes nothing and defeats nothing; damage short of the hit points takes exactly that many |
| `SessionSpec.DamageDefeats` | src/components/TetrisGame.tsx:788-825 | a defeat adds the monster's hit points as experience and levels up as the loop does, offers three skills exactly when the level rose, brings the next monster at full health, puts out the flame, resets the combo, and changes nothing else |
| `SessionSpec.ScoredKeepsValid` | src/components/TetrisGame.tsx:855-943 | the bookkeeping of a clear keeps the invariant |
| `SessionSpec.ScoreKeepsValid` | src/components/TetrisGame.tsx:855-943 | scoring a clear keeps the invariant |
| `SessionSpec.ScoreFrame` | src/components/TetrisGame.tsx:855-943 | scoring a clear adds the lines, updates the tracker by whether the clear qualified, steps the charge, forgets the spin, and leaves the board, queue, piece, hold and skills alone |
| `SessionSpec.SpawnKeepsValid` | src/components/TetrisGame.tsx:950-967 | spawning keeps the invariant |
| `SessionSpec.SpawnFrame` | src/components/TetrisGame.tsx:950-967 | spawning draws from the queue and leaves the board, tracker, charge, skills, lines and spin alone |
| `SessionSpec.SettledKeepsValid` | src/components/TetrisGame.tsx:850-967 | settling a piece keeps the invariant |
| `SessionSpec.LockKeepsValid` | src/components/TetrisGame.tsx:848-972 | locking keeps the invariant |
| `SessionSpec.LockDamageBreakdown` | src/components/TetrisGame.tsx:855-937 | a clear deals the calculator's damage plus the charged-strike and flame bonuses |
| `SessionSpec.LockWithClear` | src/components/TetrisGame.tsx:848-943 | a clearing lock leaves the merged and cleared board, counts the lines, keeps the level in step, forgets the spin, updates the tracker and steps the charge |
| `SessionSpec.LockWithoutClear` | src/components/TetrisGame.tsx:945-948 | a lock without lines resets the combo, forgets the spin, and leaves the tracker, charge and lines alone |
| `SessionSpec.ScoreBurns` | src/components/TetrisGame.tsx:934-943 | with the flame skill, a hit that defeats puts the flame out, a hit that wounds relights it for 2 × level turns, and no damage only burns a turn |
| `SessionSpec.ScoreHits` | src/components/TetrisGame.tsx:939-943 | with or without the flame skill: no damage leaves the monster and the player alone; a wound takes exactly the lock's damage off; a defeat pays the monster's maximum hit points as experience, resets the combo and brings the next monster at full health |
| `SessionSpec.SpawnRule` | src/components/TetrisGame.tsx:950-967 | a spawn that fits puts the previewed piece in play, allows a hold again and counts a placement; a blocked spawn ends the game with no piece; both draw from the queue |
| `SessionSpec.MoveKeepsValid` | src/components/TetrisGame.tsx:974-1012 | a move keeps the invariant |
| `SessionSpec.MoveBackUndoes` | src/components/TetrisGame.tsx:974-1012 | a sideways move that succeeds is undone by the opposite move; a move that fails changes nothing |
| `SessionSpec.Dropped` | src/components/TetrisGame.tsx:1051-1053 | moving the piece down to where it lands keeps the invariant |
| `SessionSpec.HardDropKeepsValid` | src/components/TetrisGame.tsx:1035-1058 | a hard drop keeps the invariant |
| `SessionSpec.HardDropLands` | src/components/TetrisGame.tsx:1035-1058 | a hard drop locks the piece where it cannot fall one more row, in its column and orientation; the T-spin test sees the spin only if the piece did not fall |
| `SessionSpec.RotationKeepsValid` | src/components/TetrisGame.tsx:1089-1124 | a rotation keeps the invariant |
| `SessionSpec.RotationRule` | src/components/TetrisGame.tsx:1089-1124 | a turn changes nothing exactly when no kick fits; otherwise it places the piece with the first kick that fits, in the target orientation, marks the spin and changes nothing else |
| `SessionSpec.TurnChangesOrientation` | src/components/TetrisGame.tsx:1097 | every turn the game makes changes the orientation |
| `SessionSpec.HoldKeepsValid` | src/components/TetrisGame.tsx:1157-1182 | a hold keeps the invariant |
| `SessionSpec.HoldRule` | src/components/TetrisGame.tsx:1157-1182 | a second hold for one piece does nothing; an empty slot takes the piece and brings in the next; an occupied slot swaps only when its piece fits at spawn |
| `SessionSpec.AfterSkillChoice` | src/components/TetrisGame.tsx:1516-1518 | the chosen skill gains one level, the others stay, the menu closes and nothing else changes |
| `SessionSpec.SkillChoiceKeepsValid` | src/components/TetrisGame.tsx:1516-1518 | a skill choice keeps the invariant |
| `Session.ApplyLevelUps` | src/components/TetrisGame.tsx:790-801 | the `while` loop computes `LevelUp` |
| `Session.ClearBaseDamage` | src/components/TetrisGame.tsx:860-870 | the line damage with the flat, single, four-line and combo bonuses is the clear damage without spin or back-to-back |
| `Session.DropGhost` | src/components/TetrisGame.tsx:1041-1050 | the descent loop stops at `DropTarget`, and the distance is how far it fell |
| `Session.FindKick` | src/components/TetrisGame.tsx:1100-1121 | the kick loop stops at the first kick that fits |
| `Session.GameSession.constructor` | src/components/TetrisGame.tsx:593-649 | the component starts in the initial state |
| `Session.GameSession.StartGame` | src/components/TetrisGame.tsx:677-714 | starting sets the started state |
| `Session.GameSession.DealDamageToMonster` | src/components/TetrisGame.tsx:779-825 | the new state and the defeat flag are those of `AfterDamage` |
| `Session.GameSession.DefeatMonster` | src/components/TetrisGame.tsx:788-823 | a defeat sets the state to `Defeat` |
| `Session.GameSession.UpdateBackToBackState` | src/components/TetrisGame.tsx:827-846 | only the tracker changes, as `UpdateBackToBack` says |
| `Session.GameSession.GetNextPieceType` | src/components/TetrisGame.tsx:661-675 | the piece and queue are the corrected draw's; nothing else changes |
| `Session.GameSession.NextPiecesPreview` | src/components/TetrisGame.tsx:1465-1475 | the preview is `Preview` of the queue |
| `Session.GameSession.ScoreClear` | src/components/TetrisGame.tsx:855-943 | scoring a clear sets `AfterScore` |
| `Session.GameSession.ScoreBookkeeping` | src/components/TetrisGame.tsx:855-937 | the bookkeeping sets `Scored` and returns `LockDamage` |
| `Session.GameSession.RecordClear` | src/components/TetrisGame.tsx:855-859 | the combo grows by one, the lines are added and the level follows the lines |
| `Session.GameSession.ScoreSpin` | src/components/TetrisGame.tsx:872-913 | the spin is classified, the tracker updated and the spin forgotten; the bonus is the T-spin bonus plus 2 on a back-to-back |
| `Session.GameSession.ChargedStrikeStep` | src/components/TetrisGame.tsx:915-932 | the charge steps as `ChargeStep` says and its bonus is returned |
| `Session.GameSession.FlameBurnStep` | src/components/TetrisGame.tsx:934-937 | the flame burns as `FlameBurn` says and its bonus is returned |
| `Session.GameSession.SpawnNext` | src/components/TetrisGame.tsx:950-967 | the spawn sets `AfterSpawn` |
| `Session.GameSession.CountPlacement` | src/components/TetrisGame.tsx:957-961 | the placement is counted and a fifth strikes the monster |
| `Session.GameSession.LockPiece` | src/components/TetrisGame.tsx:848-972 | locking sets `AfterLock` |
| `Session.GameSession.SettlePiece` | src/components/TetrisGame.tsx:850-948 | merging, clearing and scoring set `Settled` |
| `Session.GameSession.MovePiece` | src/components/TetrisGame.tsx:974-1012 | the move sets `AfterMove` and reports whether it moved |
| `Session.GameSession.HardDrop` | src/components/TetrisGame.tsx:1035-1058 | the hard drop sets `AfterHardDrop` |
| `Session.GameSession.AttemptRotation` | src/components/TetrisGame.tsx:1089-1124 | the rotation sets `AfterRotation` |
| `Session.GameSession.HandleHold` | src/components/TetrisGame.tsx:1157-1182 | the hold sets `AfterHold` |
| `Session.GameSession.ChooseSkill` | src/components/TetrisGame.tsx:1516-1518 | the skill choice sets `AfterSkillChoice` |

## Left out

- Rendering: the board, ghost overlay, panels and monster figure. These are UI.
- Timers and input:
  - the lock delay of `movePiece` and gravity (`handleDrop`);
  - key auto-repeat and keyboard listeners;
  - the smash banner's timeout.
  Scheduling is not part of the rules.
- Pause and resume around the level-up menu (`TetrisGame.tsx:716-724, 1519-1522`): scheduling glue.
- `dropSpeed`: floating-point division.
- `Math.random`. The shuffle takes its indices as input, and a session step takes its two bags and its shuffled skill lists as `Luck`. The `sort` that shuffles the offered skills is not modelled; its result is an input.
- The debug tools panel, and the React context plumbing around the reducer: thin library wrappers.
- Garbage lines and the loading burst: they appear only as stage data.
- `luckyStrike` and `manaBurst`: they are defined but never used.
- Event handlers are opaque identities. What a handler does when called is outside the bus.
- React state updates are taken to apply at once, in call order, as the refs they mirror do.
- The steady-mind counter is reset before the strike it triggers, rather than after. The strike does not read the counter, so the state after is the same.
- `clearCompletedLines`'s `linesType` (`TetrisGame.tsx:561`) is a copy of `clearedLines` that nothing reads.
- Kick-table keys are the pairs of orientations rather than the strings `"a>b"`; the formatting of 0..3 is one-to-one.
- Colours are the source's strings.
- `Session.GameSession.AttemptRotation`: requires `rotationChange ≥ −4`. The game only turns by −1, 1 and 2, and JavaScript's `%` of a negative dividend is negative.
- `Session.GameSession.GetNextPieceType`: draws with the corrected `SessionRules.DrawNext` (see "## Findings"). The as-written draw, which restarts the first bag, is `SessionRules.DrawAsWritten`.
- `Session.GameSession.SpawnNext`: spawns the piece of the corrected draw. The as-written draw is `SessionRules.DrawAsWritten`.
- `Session.GameSession.LockPiece`: spawns the next piece with the corrected draw. The as-written draw is `SessionRules.DrawAsWritten`.
- `Session.GameSession.HardDrop`: locks through `LockPiece`, so it draws with the corrected draw. The as-written draw is `SessionRules.DrawAsWritten`.
- `Session.GameSession.HandleHold`: a first hold draws with the corrected draw. The as-written draw is `SessionRules.DrawAsWritten`.
- `Session.GameSession.AttemptRotation`: tries the corrected kick list, the list of the transition performed (see "## Findings"). The as-written lookup, which uses the clockwise list for a counter-clockwise turn, is `SessionKicks.KickTestsAsWritten`.
- `Tetromino.RotationMatrix`: requires a non-negative orientation index, for the same reason.
- `Skills.GetSkillLevel` and `Skills.GetTotalSkillLevels` carry no contract of their own. Their properties are the lemmas in their rows (`Skills.TotalAfterGain`, `GameState.GainRaisesOneSkill`).

## Findings

| source | as written | input that shows it | evidently intended | confidence | as-written member | corrected member |
|---|---|---|---|---|---|---|
| src/components/TetrisGame.tsx:651-675 | `getNextPieceType` calls `replenishQueue` when fewer than eight pieces remain after the next. That call resets the index to 0 even when it keeps the queue, so the draw after it starts the first bag again | queue `I O T J L S Z Z S L J T O I` at index 6: the draw deals the previewed `Z`, and the next piece is `I` although the preview showed `Z` | the next draw deals the first previewed piece; the index restarts only with a new queue | not executed | `SessionRules.DrawAsWrittenRepeatsFirstBag` | `SessionRules.DrawFollowsPreview` |
| src/components/TetrisGame.tsx:1097-1099 | `attemptRotation` passes `Math.abs(rotationChange)` to `getKickTests`, which builds the key `r>((r + delta + 4) % 4)`, so a counter-clockwise turn looks up the clockwise transition's list | a T, S or Z piece at orientation 0 turned counter-clockwise tries the `0>1` list while turning `0>3` | the list of the transition performed, as the engine's `attemptRotation` builds its key | not executed | `SessionKicks.CounterClockwiseUsesClockwiseList` | `SessionKicks.KickTestsFollowTransition` |
