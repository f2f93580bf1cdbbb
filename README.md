# Space Killer — a verified model of the game engine

Space Killer is a shooter played on an 18 × 18 grid. Each tick, the
player's queued move and shot are carried out. Then every projectile family
advances one row, the enemy formation takes a random step or shoots, and on
the boss level the boss teleports, moves and fires. A milestone check then
decides between a respawn, a game over and the start of the level-clear
animation. That animation (the player rises, the board fills row by row) ends
in the next level or the end of the campaign.

This project models that engine in Dafny:

- the modular engine (`space-killer-react/src/game/engine/*.js`, `board.js`);
- the older single-file engine (`space-killer-react/src/game/engine.js`);
- the session layer (`state.js`): the leaderboard, the initial state and the reducer;
- the two leaderboard helpers of the original browser game (`js/functions.js`).

The draft state that immer hands to the engine functions is a class,
`GameState.Game`. Its `board` is an `array2<Cell>` changed in place, and its
other fields are reassigned in place. Each engine function is a method over
that object, framed field by field. Each method is proved against a pure
function of the state before it:

- a collision table (`Projectiles.RiseTable`, `Legacy.FallTable`, …);
- a plan (`Projectiles.EnemyBulletPlan`, `Enemy.WanderPlan`, …);
- a decision (`Progression.MilestoneOf`);
- or the side effects of a hit (`Player.AfterHit`, `Enemy.AfterEnemyKill`, `Legacy.AfterKill`).

Those functions carry the branches of the source one for one. `produce` is
`GameState.Produce`: a fresh copy on which the step runs, leaving the given
state untouched.

`Math.random()` is a tape of naturals (`Oracle.Random`), read by
`Below(n)`:

- a die roll is `1 + Below(6)`;
- a coin is `Below(2)`;
- a `Math.random() < p` test is `Below(10) < 10 p`.

`generateScoreId` is a parameter `mint`, `Date.now()` is a parameter `now`,
and the stored leaderboard is a parameter `stored` of the initial state.

| file | module | source |
|---|---|---|
| constants.dfy | Constants | constants.js (only the values the core reads) |
| grid.dfy | Grid | engine/grid.js |
| board.dfy | Board | board.js |
| status.dfy | Status | engine/status.js |
| gamestate.dfy | GameState | the draft shape used throughout; immer's `produce` |
| oracle.dfy | Oracle | `Math.random()` |
| player.dfy | Player | engine/player.js |
| enemy.dfy | Enemy | engine/enemy.js |
| boss.dfy | Boss | engine/boss.js |
| projectiles.dfy | Projectiles | engine/projectiles.js |
| progression.dfy | Progression | engine/progression.js |
| engine.dfy | Engine | engine/index.js |
| legacy.dfy | Legacy | engine.js |
| session.dfy | Session | state.js |
| scores.dfy | Scores | js/functions.js (`isHighScore`, `sortAndSliceScores`) |

## Model

| member | source | states |
|---|---|---|
| Grid.GetCell | space-killer-react/src/game/engine/grid.js:3-8 | no cell exactly when the coordinates are off the board, otherwise the stored cell |
| Grid.CellAt | space-killer-react/src/game/engine/grid.js:3-8 | the stored cell on the board, a border cell off it (how every `!cell` test of the engine reads) |
| Grid.SetCellType | space-killer-react/src/game/engine/grid.js:10-22 | writes exactly when the cell is on the board and not border; the written cell has the new kind, blocked only for merged bullets, no occupant; nothing else changes; the border stays intact |
| Grid.ClearCell | space-killer-react/src/game/engine/grid.js:24-35 | a writable cell becomes empty; a border or off-board cell leaves the board unchanged |
| Grid.DrawEnemyBullet | space-killer-react/src/game/engine/grid.js:37-42 | a writable cell becomes an unblocked enemy bullet, else nothing changes |
| Grid.DrawPlayerBullet | space-killer-react/src/game/engine/grid.js:44-49 | a writable cell becomes an unblocked player bullet, else nothing changes |
| Grid.DrawBothBullets | space-killer-react/src/game/engine/grid.js:51-56 | a writable cell becomes a blocked merged bullet, else nothing changes |
| Grid.DrawBossDiagonalBullet | space-killer-react/src/game/engine/grid.js:58-64 | a writable cell becomes a diagonal bullet carrying its heading |
| Grid.DrawBossCombinedBullet | space-killer-react/src/game/engine/grid.js:66-72 | a writable cell becomes a combined bullet carrying its heading |
| Grid.MoveCell | space-killer-react/src/game/engine/grid.js:74-87 | with both ends on the board the origin's content lands on the target and the origin empties (unless it is border); otherwise nothing changes; the border survives a move onto the interior |
| Grid.CollectCellsOfType | space-killer-react/src/game/engine/grid.js:89-99 | exactly the cells of the kind, each once, in row-major order |
| Grid.RowScan | space-killer-react/src/game/engine/grid.js:89-99 | the cells of the kind in one row, left to right, each once, all of them |
| Grid.Scan | space-killer-react/src/game/engine/grid.js:89-99 | the cells of the kind in the first rows, in row-major order, each once, all of them |
| Grid.FillRowWithFiller | space-killer-react/src/game/engine/grid.js:101-111 | the interior of an interior row becomes blocked filler; every other cell, and the whole board for rows 0 and 17, is unchanged |
| Grid.Bounce | space-killer-react/src/game/engine/projectiles.js:213-219 | the heading is kept when the next column is interior and flipped otherwise; from an interior column the bounced step always lands inside |
| Board.CreateBaseBoard | space-killer-react/src/game/board.js:20-31 | a fresh 18 × 18 board with border cells on the rim and empty cells inside |
| Board.SeedStandardEnemies | space-killer-react/src/game/board.js:33-40 | enemies on row 1, columns 3 to 15 (13 of them), nothing else changed, no boss |
| Board.PlaceBoss | space-killer-react/src/game/board.js:42-57 | one blocked boss cell at row 1, column 9 and nothing else changed; the boss record sits there with 5 lives and fire and move cooldowns at 1; the hostile count is 1 |
| Board.SeedEnemies | space-killer-react/src/game/board.js:59-64 | the boss level gets the boss and a record; every other level gets the 13 enemies and none |
| Board.PlacePlayer | space-killer-react/src/game/board.js:66-70 | the player cell is written at row 16, column 9, nothing else changed, and that position returned |
| Board.BuildLevelLayout | space-killer-react/src/game/board.js:72-77 | a fresh board equal to the level's layout, border intact, the player at its start, the boss record present exactly on the boss level, and the returned count equal to the hostiles on the board |
| Board.LayoutHostileCount | space-killer-react/src/game/board.js:33-64 | every layout holds exactly 13 hostile cells, 1 on the boss level |
| Board.CloneBoard | space-killer-react/src/game/board.js:79 | a fresh board equal cell by cell to its source |
| Status.IsPlayable | space-killer-react/src/game/engine/status.js:1-5 | playable exactly when none of game over, paused, level cleared and player died holds |
| Oracle.Random.Below | space-killer-react/src/game/engine/enemy.js:16-17 | a draw below n taken from the head of the tape, which advances by one |
| GameState.Produce | space-killer-react/src/game/engine/index.js:21 | a fresh draft with its own board, equal to the state field by field and cell by cell, and valid |
| GameState.WithScores | space-killer-react/src/game/state.js:73-83 | a fresh valid draft holding the given leaderboard and last id; every other field equals the state's and the board equals it cell by cell |
| GameState.SetScores | space-killer-react/src/game/state.js:81-82 | the leaderboard and last id are replaced in place and the draft stays valid |
| GameState.BeginDraft | space-killer-react/src/game/engine/index.js:38-39 | the events are emptied and, when asked, the cleared flag goes down; nothing else changes and the draft stays valid |
| Projectiles.Toss | space-killer-react/src/game/engine/projectiles.js:16 | a coin heading taken from the head of the tape, which advances by one |
| Player.HitPlayer | space-killer-react/src/game/engine/player.js:7-19 | on a player cell: the cell empties, one life and 200 points go, the player is marked dead and removed, the clip refills to 7, the hit is reported; on any other cell nothing changes; the game invariant is kept |
| Player.SufferHit | space-killer-react/src/game/engine/player.js:13-18 | one life and 200 points go, the player is marked dead and removed, the clip refills to 7 and the hit is reported |
| Player.ApplyPlayerMove | space-killer-react/src/game/engine/player.js:21-44 | moves exactly when a direction is given, the game is playable, there is a player and the neighbouring cell that way is empty; then the player cell shifts one column and the position follows; otherwise nothing changes |
| Player.MoveTarget | space-killer-react/src/game/engine/player.js:21-44 | a target exactly when a direction is given, the game is playable, there is a player and the neighbour that way is empty; it is that neighbour |
| Player.LaunchShot | space-killer-react/src/game/engine/player.js:62-76 | an empty cell above becomes a player bullet and an enemy bullet a merged one; one round is spent (never below 0) and the events are exactly the fired event |
| Player.ApplyPlayerFire | space-killer-react/src/game/engine/player.js:48-85 | without a playable state, a player and a round, nothing changes; above the player, an empty cell or enemy bullet is fired into (one round spent, only the fired event) and an enemy is killed point-blank without spending a round; anything else, the boss included, ignores the shot |
| Player.PlayerShotOf | space-killer-react/src/game/engine/player.js:48-85 | ignored without a playable state, a player or a round; otherwise aimed at the cell above: a launch exactly when it is empty or an enemy bullet (drawing a player bullet or a blocked merged one), a point-blank kill exactly when it is an enemy |
| Player.PointBlank | space-killer-react/src/game/engine/player.js:78-81 | an enemy right above the player is removed: only the explosion event remains, the kill is credited with 100 base points, the count drops, the boss record is kept |
| Player.QueuePlayerMove | space-killer-react/src/game/engine/player.js:89-93 | the queued move is cleared and carried out as `applyPlayerMove` would |
| Player.QueuePlayerFire | space-killer-react/src/game/engine/player.js:95-102 | the fire flag is cleared; when it was set the shot is carried out as `applyPlayerFire` would, otherwise nothing a shot touches changes |
| Enemy.StreakBonus | space-killer-react/src/game/engine/enemy.js:92 | 0 for a streak of at most one, 20 per kill beyond the first, capped at 200 |
| Enemy.AccuracyTier | space-killer-react/src/game/engine/enemy.js:93-101 | the top bonus from 90 % accuracy, the second from 75 %, none below or with no shots fired |
| Enemy.AccuracyTierMonotone | space-killer-react/src/game/engine/enemy.js:93-101 | more hits with the same shots fired never lower the accuracy bonus |
| Enemy.SkillAward | space-killer-react/src/game/engine/enemy.js:92-102 | the award is the base plus a streak bonus and an accuracy bonus, within [base, base + 275]; with no shots fired only the streak counts |
| Enemy.Credited | space-killer-react/src/game/engine/enemy.js:86-103 | the streak and the hits go up by one, both best streaks cover the new streak, the score grows by at least the base, nothing else in the metrics changes, and the counter invariant is kept |
| Enemy.ApplySkillBonuses | space-killer-react/src/game/engine/enemy.js:82-105 | returns the award and leaves the metrics credited with it |
| Enemy.DestroyEnemy | space-killer-react/src/game/engine/enemy.js:135-139 | the enemy cell empties, the count drops (floored at 0), the kill is credited with 100 base points, the explosion is reported |
| Enemy.HitBoss | space-killer-react/src/game/engine/enemy.js:113-132 | the boss loses a life and the hit is credited with the boss score; a surviving boss stays on its cell with its `pendingImmediateTeleport` flag set, four more revenge shots and a ready weapon; a boss with no life left is removed with its record and the count drops |
| Enemy.WoundBoss | space-killer-react/src/game/engine/enemy.js:119-125 | a surviving boss loses a life, has its `pendingImmediateTeleport` flag set, gains four revenge shots with no delay and a ready weapon, and the hit is reported |
| Enemy.DefeatBoss | space-killer-react/src/game/engine/enemy.js:126-131 | the boss cell empties, the record goes, the count drops and the defeat follows the hit event |
| Enemy.KillEnemy | space-killer-react/src/game/engine/enemy.js:107-140 | an enemy cell is destroyed, a boss cell with a record is hit, and anything else is left untouched |
| Enemy.FirstThreat | space-killer-react/src/game/engine/enemy.js:40-54 | a threat is found exactly when some player shot is on or below the enemy's row within two rows and two columns; the one found is the earliest such shot in the list |
| Enemy.EvadeTarget | space-killer-react/src/game/engine/enemy.js:55-77 | the preferred side when it is open, else the other side when that is open, else the cell one row up when it is empty; none exactly when all three are closed |
| Enemy.CollectPlayerThreats | space-killer-react/src/game/engine/enemy.js:29-33 | the player bullets in row-major order followed by the merged bullets in row-major order; every such cell is listed |
| Enemy.AttemptEnemyEvade | space-killer-react/src/game/engine/enemy.js:35-80 | threatened exactly when a threat is in range; moved exactly when threatened and an escape cell is open, and then the enemy moved there; otherwise the board is unchanged |
| Enemy.WanderPlan | space-killer-react/src/game/engine/enemy.js:167-225 | a 6 shoots into an empty cell below (not from row 16 or lower); otherwise a step goes only into an empty neighbour, left for rolls of 3 or more and right for less, down only above row 14 |
| Enemy.WanderStep | space-killer-react/src/game/engine/enemy.js:167-225 | the board changes exactly as the plan for the rolled die says, only enemy and empty cells change, and one draw is used |
| Enemy.EnemyTurn | space-killer-react/src/game/engine/enemy.js:151-226 | a stale coordinate is skipped; with the evade cooldown spent an in-range threat re-arms it and an open escape cell is taken without a draw; otherwise the die decides |
| Enemy.MoveEnemies | space-killer-react/src/game/engine/enemy.js:142-227 | the evade cooldown ticks down first and re-arms only from 0; only enemy and empty cells change; the game invariant is kept |
| Enemy.EnemyTurns | space-killer-react/src/game/engine/enemy.js:151-226 | only enemy and empty cells change, the game invariant is kept and the evade cooldown re-arms only from 0 |
| Enemy.ThreatsToWatch | space-killer-react/src/game/engine/enemy.js:148 | no threats while the evade cooldown runs; once it is spent, the player bullets then the merged bullets in row-major order |
| Boss.Stepped | space-killer-react/src/game/engine/boss.js:36-38 | the boss record moves to the step's target keeping its lives, cooldowns and diagonal heading |
| Boss.MoveOrder | space-killer-react/src/game/engine/boss.js:62-83 | four tries: the preferred axis first, then the other, then the reversed horizontal, then the reversed vertical heading |
| Boss.MoveOrderCoversAll | space-killer-react/src/game/engine/boss.js:62-83 | whatever the headings, the four tries cover all four directions |
| Boss.FirstOpen | space-killer-react/src/game/engine/boss.js:62-83 | the first open try, with every earlier one closed, or none open |
| Boss.TryMoveBossHorizontal | space-killer-react/src/game/engine/boss.js:22-40 | moves exactly when the next column is inside the box and empty; then the boss cell and record move and the heading is remembered; otherwise nothing changes |
| Boss.TryMoveBossVertical | space-killer-react/src/game/engine/boss.js:42-60 | as above for rows 1 to 15 |
| Boss.TryStep | space-killer-react/src/game/engine/boss.js:22-60 | one try of either axis, as above |
| Boss.MoveBoss | space-killer-react/src/game/engine/boss.js:62-83 | one draw picks the preferred axis (4 in 10 vertical); the boss takes the first open try of the order, or stays when none is open |
| Boss.FindOpenStep | space-killer-react/src/game/engine/boss.js:62-83 | the index of the first open try of the order, found by a scan that changes nothing |
| Boss.VerticalShotPlan | space-killer-react/src/game/engine/boss.js:85-108 | the cell below the boss is hit when it is the player, drawn into when empty, and otherwise left alone; nothing from the lowest row |
| Boss.DiagonalShotPlan | space-killer-react/src/game/engine/boss.js:110-147 | the diagonal heading bounces off the wall; the cell one row down that way is hit, drawn into or left as for the vertical shot |
| Boss.SpawnVerticalShot | space-killer-react/src/game/engine/boss.js:85-108 | carries out the vertical plan; fired exactly when it hit or drew |
| Boss.SpawnDiagonalShot | space-killer-react/src/game/engine/boss.js:110-147 | carries out the diagonal plan and returns the bounced heading |
| Boss.FireBossWeapons | space-killer-react/src/game/engine/boss.js:188-196 | without a boss nothing fires; otherwise the vertical plan lands first and the diagonal plan second, each hit taking a life and each drawn shot writing its cell, every other cell unchanged; the bounced heading is stored; fired exactly when either plan had a shot |
| Boss.FirstOpenAttemptIsFirst | space-killer-react/src/game/engine/boss.js:155-167 | the winning attempt is the first whose drawn cell is inside the box, not the boss's own and empty, every earlier one closed; there is none exactly when all attempts are closed |
| Boss.TeleportTarget | space-killer-react/src/game/engine/boss.js:154-167 | the drawn cell of the winning attempt, which is open; none when no attempt wins |
| Boss.Candidate | space-killer-react/src/game/engine/boss.js:156-157 | a drawn target lies in rows 1 to 15 and columns 1 to 16 |
| Boss.DrawCandidate | space-killer-react/src/game/engine/boss.js:156-157 | the candidate takes two draws |
| Boss.Teleported | space-killer-react/src/game/engine/boss.js:171-182 | the record lands on the target keeping lives, cooldowns and diagonal heading |
| Boss.TeleportBoss | space-killer-react/src/game/engine/boss.js:149-186 | teleports exactly when some attempt finds an open cell, and then the boss moves there; otherwise nothing changes; the tape left is two draws past the successful attempt, or twelve draws on when all fail |
| Boss.TapeAfterTeleport | space-killer-react/src/game/engine/boss.js:155-167 | the draws the attempts use: two per attempt up to and including the winning one, or two for every attempt when none wins |
| Boss.FindTeleportTarget | space-killer-react/src/game/engine/boss.js:155-167 | the six attempts find the same cell as `TeleportTarget` and use exactly the draws `TapeAfterTeleport` says, without touching the board |
| Boss.JumpTo | space-killer-react/src/game/engine/boss.js:168-183 | the boss cell and record move to an open target |
| Boss.TeleportPhase | space-killer-react/src/game/engine/boss.js:203-209 | a running cooldown counts down without a draw and nothing moves; a spent one draws once; below the 1-in-10 chance the search runs, and the boss jumps and re-arms at 10 exactly when a target is found; the tape left and the board are stated in each case |
| Boss.TeleportAndRearm | space-killer-react/src/game/engine/boss.js:205-209 | the search runs; on a target the boss jumps there and the teleport cooldown re-arms at 10, otherwise nothing changes; the tape left is stated |
| Boss.MovePhase | space-killer-react/src/game/engine/boss.js:211-217 | a positive move cooldown counts down with no draw; a spent one draws once and takes the first open step of the rolled order, re-arming at 2, or stays and re-arms at 1 |
| Boss.FirePhase | space-killer-react/src/game/engine/boss.js:219-223 | a positive fire cooldown counts down and nothing else happens; a spent one fires both guns (cells, lives, score, ammo, events and the diagonal heading as the two shot plans say) and re-arms at 4 exactly when a gun fired |
| Boss.UpdateBoss | space-killer-react/src/game/engine/boss.js:198-224 | without a boss nothing changes; with one, the boss stays, keeps its lives and each cooldown counts down or re-arms |
| Projectiles.DiagonalAim | space-killer-react/src/game/engine/projectiles.js:15-28 | the aimed cell is one row down and one column over after a bounce; none from the lowest row |
| Projectiles.RiseTable | space-killer-react/src/game/engine/projectiles.js:125-143 | a rising bullet merges with an enemy or diagonal bullet, kills an enemy or hits the boss, moves into an empty cell, and otherwise (and from row 1) is refunded |
| Projectiles.FallTable | space-killer-react/src/game/engine/projectiles.js:88-104 | a falling bullet merges with a player bullet, turns a diagonal bullet into a combined one, hits the player, moves into an empty cell, otherwise is spent; from row 16 it vanishes |
| Projectiles.BothFallTable | space-killer-react/src/game/engine/projectiles.js:178-189 | the lower half of a merged bullet: merge, hit, move or spent, as above, without the combined case |
| Projectiles.ContinuationTable | space-killer-react/src/game/engine/projectiles.js:29-59 | a combined bullet's diagonal shot absorbs a player bullet, hits the player, draws into an empty or diagonal cell, and so on |
| Projectiles.DiagonalTable | space-killer-react/src/game/engine/projectiles.js:225-263 | a diagonal bullet absorbs a player bullet, hits the player, draws or continues a diagonal, makes a combined bullet from an enemy bullet with a coin heading, and re-steers a combined one |
| Projectiles.Continuation | space-killer-react/src/game/engine/projectiles.js:15-60 | the shed shot lands one row down and never on the shooter's own cell |
| Projectiles.PlayerBulletPlan | space-killer-react/src/game/engine/projectiles.js:113-144 | a stale cell is skipped, a blocked bullet only unblocks, a free one leaves its cell and acts on the cell above; from row 1 it is refunded |
| Projectiles.BothPlan | space-killer-react/src/game/engine/projectiles.js:149-190 | the upper half acts above, then the lower half below |
| Projectiles.EnemyBulletPlan | space-killer-react/src/game/engine/projectiles.js:66-105 | a stale cell is skipped; a blocked one unblocks (a combined one still sheds its diagonal); a free one leaves and falls; shed and fall land on distinct cells |
| Projectiles.DiagonalPlan | space-killer-react/src/game/engine/projectiles.js:195-264 | a stale cell is skipped, a blocked one unblocks, a free one leaves and acts one row down and one column over, inside the walls |
| Projectiles.ApplyEffect | space-killer-react/src/game/engine/projectiles.js:94-103 | the effect on one cell is carried out as its table entry says: cell and side effects |
| Projectiles.Recover | space-killer-react/src/game/engine/projectiles.js:138-143 | a refunded or absorbed shot gives one round back |
| Projectiles.Paint | space-killer-react/src/game/engine/projectiles.js:94-102 | a draw effect writes its cell and nothing else |
| Projectiles.Unblock | space-killer-react/src/game/engine/projectiles.js:118-121 | only the blocked flag of the cell goes down |
| Projectiles.Vacate | space-killer-react/src/game/engine/projectiles.js:123 | the projectile's cell becomes empty |
| Projectiles.Fly | space-killer-react/src/game/engine/projectiles.js:123-143 | the cell empties, then the target's effect is carried out |
| Projectiles.ContinueDiagonal | space-killer-react/src/game/engine/projectiles.js:15-60 | the shed shot is carried out, drawing a coin only when no heading is given |
| Projectiles.MovePlayerBullet | space-killer-react/src/game/engine/projectiles.js:113-144 | one step carried out exactly as its plan says |
| Projectiles.MoveBothBullet | space-killer-react/src/game/engine/projectiles.js:149-190 | one step carried out exactly as its plan says |
| Projectiles.LaunchBoth | space-killer-react/src/game/engine/projectiles.js:159-189 | the free merged bullet's step, as planned |
| Projectiles.MoveEnemyBullet | space-killer-react/src/game/engine/projectiles.js:66-105 | one step carried out exactly as its plan says, and the tape advances as planned |
| Projectiles.PauseEnemyBullet | space-killer-react/src/game/engine/projectiles.js:74-80 | a blocked bullet's step, as planned |
| Projectiles.LaunchEnemyBullet | space-killer-react/src/game/engine/projectiles.js:82-104 | a free bullet's step, as planned |
| Projectiles.LaunchCombined | space-killer-react/src/game/engine/projectiles.js:82-104 | a free combined bullet sheds, then falls, as planned |
| Projectiles.Fall | space-killer-react/src/game/engine/projectiles.js:86-104 | the cell empties and the cell below reacts as the fall table says |
| Projectiles.FallEffect | space-killer-react/src/game/engine/projectiles.js:96-97 | the fall table's entry, drawing a coin only for a diagonal bullet without heading |
| Projectiles.MoveDiagonalBullet | space-killer-react/src/game/engine/projectiles.js:195-264 | one step carried out exactly as its plan says |
| Projectiles.LaunchDiagonal | space-killer-react/src/game/engine/projectiles.js:205-263 | a free diagonal bullet's step, as planned |
| Projectiles.DiagonalEffect | space-killer-react/src/game/engine/projectiles.js:230-263 | the diagonal table's entry, drawing a coin only for an enemy or combined bullet |
| Projectiles.MoveEnemyBullets | space-killer-react/src/game/engine/projectiles.js:62-109 | the game invariant is kept |
| Projectiles.MovePlayerBullets | space-killer-react/src/game/engine/projectiles.js:111-145 | the game invariant is kept |
| Projectiles.MoveBothBullets | space-killer-react/src/game/engine/projectiles.js:147-191 | the game invariant is kept |
| Projectiles.MoveDiagonalBullets | space-killer-react/src/game/engine/projectiles.js:193-265 | the game invariant is kept |
| Progression.NextWaitTime | space-killer-react/src/game/engine/progression.js:15-20 | 95 % of the wait, rounded half up, never below 120, and never above the old wait once that is at least 120 |
| Progression.WaitTimeSettles | space-killer-react/src/game/engine/progression.js:15-20 | any number of speed-ups keeps the wait between 120 and where it started |
| Progression.LevelSkillBonus | space-killer-react/src/game/engine/progression.js:22-42 | 50 per kill of the level's best streak plus at most 300 for accuracy, the latter only when shots were fired this level |
| Progression.LevelBonusPoints | space-killer-react/src/game/engine/progression.js:44-50 | 250 per level plus 125 per life left (none counted below zero) plus the skill bonus |
| Progression.LevelBonusMonotone | space-killer-react/src/game/engine/progression.js:44-50 | more lives never lower the bonus |
| Progression.LevelReset | space-killer-react/src/game/engine/progression.js:73-78 | the streaks restart and the level's baseline takes the running totals; the rest is kept |
| Progression.LayoutBoss | space-killer-react/src/game/engine/progression.js:62-81 | a fresh boss record exactly on the boss level; after a death there it keeps the lower of the old and fresh lives |
| Progression.ApplyLevelLayout | space-killer-react/src/game/engine/progression.js:61-89 | the current level's layout on a fresh board with its hostile count and the player at its start, boss lives carried over a death, the level counters reset, the death and cleared flags down, a full clip with no reload, no queued input and an idle animation; every other field kept |
| Progression.InstallLayout | space-killer-react/src/game/engine/progression.js:68-72 | the draft holds exactly the fresh board, hostile count, player and boss record, and stays valid |
| Progression.ResetLevelState | space-killer-react/src/game/engine/progression.js:73-88 | the non-board half of the above |
| Progression.FreshLayout | space-killer-react/src/game/engine/progression.js:62-81 | the layout and its boss record keep the game invariant |
| Progression.AdvanceEvents | space-killer-react/src/game/engine/progression.js:91-114 | an optional bonus event, then the campaign end after the last level or the start of the next |
| Progression.Advanced | space-killer-react/src/game/engine/progression.js:91-114 | the events gain the bonus and the start or campaign end, the score the bonus when asked, the pace speeds up, the level goes up unless it was the last, the queue and animation reset; after the last level the game is over with player and hostiles kept, otherwise the next layout's hostile count; the leaderboard kept |
| Progression.AdvanceToNextLevel | space-killer-react/src/game/engine/progression.js:91-114 | the bonus when asked and a faster pace; after the last level the game is over with the board, player, hostiles and level kept; otherwise the level goes up and its layout is laid out in full (board, hostiles, player, boss, counters reset, clip, flags); no queued input and an idle animation; the leaderboard kept |
| Progression.StartNextLevel | space-killer-react/src/game/engine/progression.js:111-113 | the level goes up, its layout is built and the start is reported |
| Progression.CreditLevel | space-killer-react/src/game/engine/progression.js:92-101 | the bonus and its event when asked, then the faster pace |
| Progression.CompleteCampaign | space-killer-react/src/game/engine/progression.js:103-108 | game over, not cleared, idle animation, campaign end reported |
| Progression.TransitionRank | space-killer-react/src/game/engine/progression.js:127-162 | zero exactly when the animation is idle |
| Progression.StartLevelClearTransition | space-killer-react/src/game/engine/progression.js:116-125 | the rise starts at 0 and the queue is cleared; nothing else changes |
| Progression.RunLevelClearTransition | space-killer-react/src/game/engine/progression.js:127-162 | idle changes nothing; the rise moves the player up one row or leaves and starts the fill; a fill below the last row paints that row with filler and moves on one row; the fill of the last row advances to the next level with the bonus; every step strictly lowers the rank, so the animation always ends |
| Progression.RisePlayer | space-killer-react/src/game/engine/progression.js:132-147 | the player rises one row, or leaves from row 1 and the fill begins at row 1; nothing else changes |
| Progression.Animated | space-killer-react/src/game/engine/progression.js:127-162 | an idle animation is left alone; every other step strictly lowers the rank; the leaderboard kept |
| Progression.RestartCurrentLevel | space-killer-react/src/game/engine/progression.js:164-168 | the current level laid out again in full (board, hostiles, player, boss, counters, clip, flags, queue, animation), then respawn and restart reported |
| Progression.TriggerGameOver | space-killer-react/src/game/engine/progression.js:170-180 | a game already over is unchanged; otherwise it ends, the death flag drops, the queue and animation reset and the end is reported |
| Progression.GameEnded | space-killer-react/src/game/engine/progression.js:170-180 | the game is over afterwards, and the state is left as it is exactly when it already was |
| Progression.MilestoneOf | space-killer-react/src/game/engine/progression.js:182-206 | nothing after game over; a death restarts with lives left and ends the game without; a board without hostiles clears once; no lives left ends the game |
| Progression.ClearLevel | space-killer-react/src/game/engine/progression.js:196-200 | the cleared flag goes up, the rise begins, the queue is cleared and the clear is reported; nothing else changes |
| Progression.CheckGameMilestones | space-killer-react/src/game/engine/progression.js:182-206 | the milestone carried out in full: no milestone changes nothing; a restart lays the level out again; game over and a clear keep the board; each field's new value is stated |
| Engine.AdvanceGame | space-killer-react/src/game/engine/index.js:9-35 | during the animation a fresh state with the events emptied and exactly one animation step taken (rise, fill a row, or advance), without a draw and with the leaderboard kept, the rank strictly lower; an unplayable state is returned as is without drawing; a playable tick clears the queue |
| Engine.AnimationTick | space-killer-react/src/game/engine/index.js:11-14 | the events are emptied and exactly one animation step is taken on the draft, board included; the invariant is kept and the rank strictly lowers |
| Engine.PlayTick | space-killer-react/src/game/engine/index.js:21-34 | the phases in order keep the game invariant and end with no queued input |
| Engine.PlayerPhase | space-killer-react/src/game/engine/index.js:23-24 | the queued move and shot leave no queued input |
| Engine.ProjectilePhase | space-killer-react/src/game/engine/index.js:25-28 | the four projectile families keep the invariant |
| Engine.HostilePhase | space-killer-react/src/game/engine/index.js:29-30 | enemies and boss keep the invariant |
| Engine.PrepareNextLevel | space-killer-react/src/game/engine/index.js:37-41 | a fresh state advanced with the bonus from emptied events and a lowered cleared flag: layout, player, clip, pace, queue and events as the advance states; the board kept after the last level and laid out otherwise |
| Engine.AdvanceDraft | space-killer-react/src/game/engine/index.js:38-40 | on the draft: events emptied, cleared flag lowered, then the full advance with the bonus, board included |
| Engine.RespawnPlayer | space-killer-react/src/game/engine/index.js:43-47 | the current level laid out in full with the player at its start, counters reset, and only the respawn event |
| Legacy.KillEnemy | space-killer-react/src/game/engine.js:98-108 | only an enemy cell reacts: it empties, the count drops (floored at 0), 100 points are added, one round comes back with no cap and the explosion is reported; anything else is untouched |
| Legacy.ApplyEffect | space-killer-react/src/game/engine.js:192-206 | an effect carried out on its cell as the table says |
| Legacy.Fly | space-killer-react/src/game/engine.js:223-243 | the cell empties, then the target reacts |
| Legacy.TablesAgreeWithoutBoss | space-killer-react/src/game/engine.js:225-243 | away from the boss and its bullets the legacy collision tables equal the modular ones, and so do their side effects except for a kill |
| Legacy.RiseTable | space-killer-react/src/game/engine.js:225-243 | a rising bullet merges with an enemy bullet, kills an enemy, moves into an empty cell, otherwise (and from row 1) is refunded |
| Legacy.FallTable | space-killer-react/src/game/engine.js:194-207 | a falling bullet merges with a player bullet, hits the player, moves into an empty cell, otherwise is spent; from row 16 it vanishes |
| Legacy.PlayerBulletPlan | space-killer-react/src/game/engine.js:211-245 | stale skipped, blocked unblocked, free bullets leave and rise |
| Legacy.EnemyBulletPlan | space-killer-react/src/game/engine.js:180-209 | stale skipped, blocked unblocked, free bullets leave and fall |
| Legacy.BothPlan | space-killer-react/src/game/engine.js:247-291 | the upper half rises, then the lower half falls from the original row |
| Legacy.MovePlayerBullet | space-killer-react/src/game/engine.js:213-244 | one step carried out exactly as planned |
| Legacy.MoveEnemyBullet | space-killer-react/src/game/engine.js:182-208 | one step carried out exactly as planned |
| Legacy.MoveBothBullet | space-killer-react/src/game/engine.js:249-290 | one step carried out exactly as planned |
| Legacy.LaunchBoth | space-killer-react/src/game/engine.js:259-289 | the free merged bullet's step, as planned |
| Legacy.MoveEnemyBullets | space-killer-react/src/game/engine.js:180-209 | the invariant (no boss) is kept |
| Legacy.MovePlayerBullets | space-killer-react/src/game/engine.js:211-245 | the invariant is kept |
| Legacy.MoveBothBullets | space-killer-react/src/game/engine.js:247-291 | the invariant is kept |
| Legacy.FireTable | space-killer-react/src/game/engine.js:165-175 | empty above draws a bullet, an enemy bullet merges, an enemy is killed, anything else is ignored — each exactly when |
| Legacy.QueuePlayerFire | space-killer-react/src/game/engine.js:148-178 | the flag always clears; without a playable state, a player, the flag and a round nothing else changes; otherwise the cell above reacts as the table says, a drawn shot spending a round and being reported |
| Legacy.Shoot | space-killer-react/src/game/engine.js:165-175 | the table's entry carried out on the cell above |
| Legacy.EnemyTurn | space-killer-react/src/game/engine.js:409-475 | a stale coordinate is skipped without a draw; otherwise the die-driven walk of the modular engine, without evasion |
| Legacy.MoveEnemies | space-killer-react/src/game/engine.js:408-476 | only enemy and empty cells change; the invariant is kept |
| Legacy.LevelBonusPoints | space-killer-react/src/game/engine.js:300-301 | 250 per level plus 125 per life left, none counted below zero, with no skill part |
| Legacy.ApplyLevelLayout | space-killer-react/src/game/engine.js:312-323 | the level-one layout whatever the level, 13 hostiles, the player at its start, the flags down, a full clip with the reload counter kept, the metrics untouched, no queue, idle animation; every other field kept |
| Legacy.Credit | space-killer-react/src/game/engine.js:338-346 | the bonus and its event when asked, then the faster pace, no queue |
| Legacy.Advanced | space-killer-react/src/game/engine.js:337-360 | as the modular advance with the flat bonus and 13 hostiles on the next level, the boss record kept |
| Legacy.AdvanceToNextLevel | space-killer-react/src/game/engine.js:337-360 | as the modular advance with the flat bonus: after the last level the game is over with board, player and hostiles kept; otherwise the level goes up and the level-one layout is laid out in full |
| Legacy.RunLevelClearTransition | space-killer-react/src/game/engine.js:362-396 | idle changes nothing; rise, fill a row or advance with the level-one layout, each stated in full; every other step strictly lowers the rank |
| Legacy.Animated | space-killer-react/src/game/engine.js:362-396 | an idle animation is left alone; every other step strictly lowers the rank; the boss record and leaderboard kept |
| Legacy.RestartCurrentLevel | space-killer-react/src/game/engine.js:478-482 | the level-one layout laid out in full, then respawn and restart reported |
| Legacy.CheckGameMilestones | space-killer-react/src/game/engine.js:496-520 | the modular milestone decision carried out in full with the level-one layout; a non-restart keeps the board |
| Legacy.AdvanceGame | space-killer-react/src/game/engine.js:522-546 | during the animation a fresh state with the events emptied and one animation step taken, board included, without a draw, the rank strictly lower; an unplayable state is returned as is without drawing; a playable tick clears the queue |
| Legacy.AnimationTick | space-killer-react/src/game/engine.js:524-527 | the events are emptied and exactly one animation step is taken; the invariant is kept and the rank strictly lowers |
| Legacy.PlayTick | space-killer-react/src/game/engine.js:534-545 | the phases in order keep the invariant and clear the queue |
| Legacy.PlayerSteps | space-killer-react/src/game/engine.js:535-536 | the queued move and shot keep the invariant |
| Legacy.BulletSteps | space-killer-react/src/game/engine.js:537-539 | the three bullet families keep the invariant |
| Legacy.PrepareNextLevel | space-killer-react/src/game/engine.js:548-552 | a fresh state advanced in full with the flat bonus: board kept after the last level and the level-one layout otherwise |
| Legacy.RespawnPlayer | space-killer-react/src/game/engine.js:554-558 | the level-one layout in full, only the respawn event, the metrics untouched |
| Session.Complete | space-killer-react/src/game/state.js:36-41 | the score kept, a missing id minted, a missing level 1, a missing timestamp now |
| Session.ScoredIndices | space-killer-react/src/game/state.js:34-35 | the positions of the entries with a numeric score: each in range, increasing, and all of them |
| Session.Kept | space-killer-react/src/game/state.js:34-41 | no more entries than the input, all when every entry is scored, none when none is; every kept score comes from the input |
| Session.KeptLength | space-killer-react/src/game/state.js:34-41 | as many entries are kept as have a numeric score |
| Session.KeptAt | space-killer-react/src/game/state.js:34-41 | the k-th kept entry is the k-th scored entry, completed with its own index |
| Session.KeptByIndex | space-killer-react/src/game/state.js:34-41 | exactly the scored entries are kept, in stored order, each completed |
| Session.Insert | space-killer-react/src/game/state.js:42-50 | one more entry, the same entries plus the new one |
| Session.InsertSorted | space-killer-react/src/game/state.js:42-50 | insertion keeps the comparator's order |
| Session.SortEntries | space-killer-react/src/game/state.js:42-50 | a sorted permutation under score down, level down, timestamp up |
| Session.Top | space-killer-react/src/game/state.js:42-51 | at most ten, sorted, drawn from the input |
| Session.TopKeepsBest | space-killer-react/src/game/state.js:42-51 | no dropped entry sorts ahead of a kept one |
| Session.Normalise | space-killer-react/src/game/state.js:29-52 | no list gives an empty board; otherwise a sorted board of min(10, scored entries) drawn from them |
| Session.Stored | space-killer-react/src/game/state.js:118 | a board as it is stored: every field present |
| Session.KeptStored | space-killer-react/src/game/state.js:34-41 | a stored board survives the filter and completion unchanged |
| Session.NormaliseIdempotent | space-killer-react/src/game/state.js:29-52 | normalising a well-formed board gives it back |
| Session.InsertKeeps | space-killer-react/src/game/state.js:42-51 | an inserted entry survives the cut exactly when there is room or it sorts ahead of the last kept entry |
| Session.Entry | space-killer-react/src/game/state.js:74-79 | the entry carries the id, the score, the level and the time |
| Session.Recorded | space-killer-react/src/game/state.js:80 | the board after recording is well formed |
| Session.RecordedIsInsertion | space-killer-react/src/game/state.js:73-83 | recording is the stable insertion cut to ten |
| Session.RecordedIffQualifies | space-killer-react/src/game/state.js:73-83 | a new entry is listed exactly when the board has room or it sorts ahead of the tenth entry |
| Session.RecordHighScore | space-killer-react/src/game/state.js:73-83 | the board is the recorded one and the last id is set exactly when listed; every other field and every cell equals the state's |
| Session.CreateInitialState | space-killer-react/src/game/state.js:86-121 | level one's layout on the board and every field as a new game has it: 13 hostiles, the player at its start, no boss, 5 lives, score 0, wait 400, a full clip, no queue, idle, no events, the normalised stored board, no last id |
| Session.ResetGame | space-killer-react/src/game/state.js:125-130 | every field and the board as a new level-one game, keeping the leaderboard and dropping the last id |
| Session.TogglePause | space-killer-react/src/game/state.js:131-134 | the pause flag flips; every other field and every cell equals the state's |
| Session.QueueMove | space-killer-react/src/game/state.js:135-144 | the player steps to where `MoveTarget` allows and its cell moves there, otherwise every cell is kept; the queued move is cleared; nothing else changes |
| Session.MoveTargetOfSameCells | space-killer-react/src/game/state.js:135-144 | a copied board sends the player to the same place as the original |
| Session.MoveDraft | space-killer-react/src/game/state.js:136-139 | on the draft: the move is carried out as `applyPlayerMove` would, then the queued move is cleared |
| Session.QueueShot | space-killer-react/src/game/state.js:145-149 | the shot `PlayerShotOf` decides is taken immediately: an ignored one keeps every cell, a launch or point-blank kill writes the cell above and updates ammo, score, count and events as that decision says; the fire flag is cleared; nothing else changes |
| Session.ShotOfSameCells | space-killer-react/src/game/state.js:145-149 | a copied board decides the same shot as the original |
| Session.ShotDraft | space-killer-react/src/game/state.js:146-149 | on the draft: the shot is carried out as `applyPlayerFire` would, then the fire flag is cleared |
| Session.TickGame | space-killer-react/src/game/state.js:150-156 | one engine step (the animation step while a transition runs, nothing when the game is not playable), then, when that step ended the game, its score recorded; the recording changes only the leaderboard and the last id |
| Session.RecordIfEnded | space-killer-react/src/game/state.js:152-155 | the score is recorded exactly when the tick ended a game that was not over; otherwise the state itself comes back; only the leaderboard and the last id can change |
| Session.GameReducer | space-killer-react/src/game/state.js:123-164 | every action keeps a valid game with a well-formed board; reset keeps the board; only ticks draw; only reset and ticks touch the board; name edits and unknown actions return the state itself |
| Scores.MinFrom | js/functions.js:24-29 | the running minimum is at most the seed and every score, and is the seed or one of them |
| Scores.QualifiesIffBeatsSome | js/functions.js:21-34 | by the intended rule, a score qualifies for a full board exactly when it beats some stored score |
| Scores.AsWrittenAgreesBelowSeed | js/functions.js:21-34 | the seeded rule agrees with the intended one when some stored score is at most 9999999 |
| Scores.SeedMinimumCounterexample | js/functions.js:24-30 | a full board of 10000000s accepts a tie of 10000000 as written |
| Scores.InsertByScore | js/functions.js:73 | stable insertion by descending score, a permutation plus the new score |
| Scores.InsertByScoreDescending | js/functions.js:73 | insertion keeps the order |
| Scores.SortByScore | js/functions.js:73 | a descending permutation |
| Scores.SortedAndSliced | js/functions.js:73 | descending, min(10, n) long, drawn from the input |
| Scores.SortedAndSlicedKeepsBest | js/functions.js:73 | no dropped score beats a kept one |
| Scores.SortedAndSlicedIdempotent | js/functions.js:73 | a descending board of at most ten is left as it is |
| Scores.Leaderboard.IsHighScore | js/functions.js:21-34 | the answer is the seeded rule; any board not of exactly ten accepts; beating some stored score qualifies |
| Scores.Leaderboard.SortAndSliceScores | js/functions.js:72-74 | the board becomes its ten best, descending |

## Left out

- Floating point: `Math.round(w * 0.95)` is the integer `(19 w + 10) / 20`, and accuracy thresholds are cross-multiplied, so a product that lands a hair below .5 in binary is not modelled.
- The random tape is given; the distribution of `Math.random()` and the `randomInt` offsets are taken as draws `Below(n)`.
- I/O: `loadHighScores`, `canUseStorage` and `localStorage` become the `stored` argument of `Session.CreateInitialState`; `generateScoreId` is `mint`; `Date.now()` is `now`.
- immer returning the very same object when a recipe changes nothing: every `produce` here returns a fresh copy.
- `isGlowing` on cells and the boss fields `pendingImmediateTeleport`, `revengeShotsRemaining` and `revengeFireDelay` beyond what `killEnemy` writes: the engine never reads them back, so a wounded boss does not teleport at once.
- The browser engines `game.js`, `js/game.js`, `react-app/src/game/game.js` and the rest of `js/functions.js` (DOM, sound, key handling, modal name editing).
- `Projectiles.MoveEnemyBullets`, `Projectiles.MovePlayerBullets`, `Projectiles.MoveBothBullets`, `Projectiles.MoveDiagonalBullets`: these loops state only the kept invariant; each iteration's effect is stated by the one-step methods they call.
- `Legacy.MoveEnemyBullets`, `Legacy.MovePlayerBullets`, `Legacy.MoveBothBullets`: likewise.
- `Enemy.MoveEnemies`, `Enemy.EnemyTurns`, `Legacy.MoveEnemies`: the loop states the frame (only enemy and empty cells change) and the invariant, not the composed walk of every enemy.
- `Boss.UpdateBoss`: states the cooldown step and lives, not the composed teleport, move and fire.
- `Engine.PlayTick`, `Legacy.PlayTick`: state the invariant and the cleared queue, not the composed tick.
- PlayerPhase (`Engine.PlayerPhase`): states the cleared queue and the invariant, not the composed move-then-shot outcome.
- ProjectilePhase (`Engine.ProjectilePhase`): states the kept invariant, not the composed effect of the four bullet loops.
- HostilePhase (`Engine.HostilePhase`): states the kept invariant, not the composed enemy walk and boss update.
- PlayerSteps (`Legacy.PlayerSteps`): states the kept invariant, not the composed move-then-shot outcome.
- BulletSteps (`Legacy.BulletSteps`): states the kept invariant, not the composed effect of the three bullet loops.
- `Session.GameReducer`: states the invariant and what each action keeps; each action's effect is stated by the method it calls.
- `Session.Normalise`, `Session.Complete`, `Session.SortEntries`: stored numbers are taken as integers and ids as strings; the `typeof … === 'number'` tests of `normaliseHighScores` also admit NaN, infinite and fractional values (a NaN score makes its comparator inconsistent), and it drops null or other falsy entries and keeps a non-string `id` — none of these is modelled.
- The level layout of `board.js` is a function of the level only: `buildLevelLayout` ignores any argument beyond it.

Where the code declares something it never carries out, or does less than its names suggest, the model follows the code:

- `PLAYER_RELOAD_TICKS` is declared at space-killer-react/src/game/constants.js:41 and never read; `ammo.cooldownTicks` is only ever set to 0 (space-killer-react/src/game/state.js:106, space-killer-react/src/game/engine/progression.js:85), so no reload countdown exists.
- `metrics.totalShotsFired` is read at space-killer-react/src/game/engine/enemy.js:93 and space-killer-react/src/game/engine/progression.js:26 and never written, so the accuracy bonus is always 0 in play.
- `applyPlayerFire` (space-killer-react/src/game/engine/player.js:48-85) acts only on an empty cell, an enemy bullet or an enemy above the player, so a point-blank shot into the boss does nothing.
- The reducer's queue-move and queue-shot actions (space-killer-react/src/game/state.js:135-149) call `performPlayerMove` and `performPlayerFire` at once and then clear the queue, so nothing stays queued.
- `SET_HIGH_SCORE_NAME` is declared at space-killer-react/src/game/constants.js:134, but the reducer has no case for it and returns the state from its default branch (space-killer-react/src/game/state.js:161-162).
- `normaliseHighScores` (space-killer-react/src/game/state.js:35-40) rebuilds each entry from `id`, `score`, `level` and `timestamp` only, so any `name` field is dropped.
- The single-file engine calls `buildLevelLayout()` with no level (space-killer-react/src/game/engine.js:313), so it always lays out level one and never builds the boss, and its `killEnemy` (space-killer-react/src/game/engine.js:98-108) returns a round on each kill with no cap.

## Findings

| source | as written | input that shows it | evidently intended | confidence | as-written member | corrected member |
|---|---|---|---|---|---|---|
| js/functions.js:23-30 | the minimum search starts from 9999999, so a full board whose scores all exceed it reports a minimum of 9999999 | ten stored scores of 10000000 and a new score of 10000000: accepted, though it only ties the lowest | a full board accepts a score only when it beats the lowest stored score | not executed | Scores.Leaderboard.IsHighScore, Scores.SeedMinimumCounterexample | Scores.Qualifies, Scores.QualifiesIffBeatsSome |
