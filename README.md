# Obstacle run, virtual pet and level records — a Dafny model

This project models and verifies the three parts of the geometry-dash-clone
repository that hold its logic:

- **ObstacleRun** (`game.dfy`) covers the frame step of the obstacle-run game in
  `src/components/Game.tsx`. Each frame does these steps in order:
  - it scrolls the camera and computes the progress;
  - it ends the run as a win at 100 %;
  - it adds gravity to the velocity, then the velocity to the position;
  - it walks the level's obstacles in authored order: a spike kills, a speed boost is taken once, a platform or block is a one-way landing;
  - it clamps the player to the ground and the ceiling, and sets the grounded flag.

  The component's state slots are the fields of the class `Run`. Its methods are `Tick`, `Click`, `KeyDown` and `StartGame`. `Tick` runs the obstacle loop as a `while` loop in `ResolveObstacles`. Each method is proved against the pure `Step`, `Jumped` and `Restarted` functions on a `RunState` value, and the game's properties are lemmas about those functions.
- **Levels** (`levels.dfy`) holds the five built-in levels as data, with the
  level lookup and a run of level 1.
- **Pet** (`pet.dfy`) covers the stat transitions of `src/components/PetGame.tsx`:
  - the decay timer and the mood rule;
  - experience and level-up;
  - the shop and the wardrobe;
  - the activities feed, walk, play, sleep and bathroom;
  - the mini-game reward and the reset.

  Each one is a pure function on a `Stats` value.
- **Records** (`records.dfy`) covers the handler of `backend/records/index.py`:
  - the request dispatch;
  - the `INSERT … ON CONFLICT DO UPDATE` merge of a submitted attempt;
  - the recomputation of `total_stars`;
  - the three read queries, with their `ORDER BY` and `LIMIT`.

  The `level_records` and `users` tables are two map fields of the class `Database`. Its `Submit` method updates them in place.
- `option.dfy` holds the `Option` type shared by the modules.
- `numeric.dfy` holds `Min` and `Max` on reals (`Math.min`, `Math.max`, `GREATEST`), shared by the modules.

All numbers are exact: positions, velocities, the stats and progress are Dafny
`real`, not IEEE doubles, so 0.6, 0.5 and 0.3 are exact. Counters are
unbounded integers.

Where the code as written cannot run, the model follows the evident intent:

- `currentSpeedMultiplier` is declared `const` (Game.tsx line 195) but reassigned when a boost is taken (line 240). The model treats it as a mutable local.
- The slots `speedMultiplier` and `collectedBoosts` and their setters are used (lines 195-196, 242-243, 378-379) but never declared among the `useState` hooks (lines 166-174). The model makes them fields that start at 1 and at the empty list.
- The level length is taken from the **last** obstacle's x, not the largest x, exactly as in the code. `Levels.SelectedLevelIsRunnable` shows that for the built-in levels the two agree.

## Model

| member | source | states |
|---|---|---|
| ObstacleRun.ProgressBounds | src/components/Game.tsx:209 | progress is at most 100 and non-negative for a non-negative camera; it is exactly 100 iff the camera has reached the level length; below 100 it is the camera's share of the length |
| ObstacleRun.MultiplierFor | src/components/Game.tsx:240 | the multiplier after n distinct boosts is 1, 1.5, 2 and then 2.5 for good, always within [1, 2.5] |
| ObstacleRun.Touch | src/components/Game.tsx:222-252 | one obstacle's effect: no overlap, no change; an overlapping spike sets the death flag and nothing else; a boost already collected changes nothing, an uncollected overlapping one raises the multiplier to min(m + 0.5, 2.5) and records its index; a platform or block lands the player (y = top - 40, v = 0, grounded) iff v > 0 and y + 40 - v <= top, else leaves everything as it was |
| ObstacleRun.Clamp | src/components/Game.tsx:256-265 | after the clamp 0 <= y <= 360; at or below the ground: y = 360, v = 0, grounded; above the ceiling: y = 0, v = 0, grounded flag untouched; in between nothing changes |
| ObstacleRun.Jumped | src/components/Game.tsx:349-359 | velocity becomes -12 exactly when playing and not airborne; otherwise the state is unchanged |
| ObstacleRun.ResolveObstacles | src/components/Game.tsx:221-254 | the source's obstacle loop (with its early exit on a spike) computes exactly the sweep `SweepFrom` over the obstacles in order |
| ObstacleRun.TouchKeepsBoosts | src/components/Game.tsx:239-244 | one obstacle keeps the collected indices valid, distinct speed boosts with the multiplier equal to MultiplierFor(count), and only appends to them |
| ObstacleRun.SweepKeepsBoosts | src/components/Game.tsx:222-254 | the whole loop keeps that invariant, only appends to the collected list and never lowers the multiplier, which stays at most 2.5 |
| ObstacleRun.SpikeStopsSweep | src/components/Game.tsx:232-237 | an overlapping spike at index i ends the loop there: the result is the values at i with the death flag set, so later obstacles are not looked at |
| ObstacleRun.SweepWithoutOverlap | src/components/Game.tsx:226-231 | when no obstacle overlaps, the loop changes nothing |
| ObstacleRun.CollectedBoostIsInert | src/components/Game.tsx:239 | a boost already collected stays collected exactly once however often it is touched again |
| ObstacleRun.StepKeepsInv | src/components/Game.tsx:206-269 | a frame keeps the between-frames invariant: 0 <= playerY <= 360, camera >= 0, progress = Progress(camera), victory iff progress = 100, collected boosts valid and the multiplier in step with them |
| ObstacleRun.InitialInv | src/components/Game.tsx:166-174 | the initial slots (playerY 320, nothing collected, multiplier 1) satisfy the invariant |
| ObstacleRun.RestartedInv | src/components/Game.tsx:370-380 | a restart satisfies the invariant and leaves a running game |
| ObstacleRun.JumpedInv | src/components/Game.tsx:349-359 | a jump keeps the invariant |
| ObstacleRun.StepKeepsPlayerInBounds | src/components/Game.tsx:256-269 | after every frame 0 <= playerY <= 360 |
| ObstacleRun.StepAdvances | src/components/Game.tsx:206-210 | a running frame moves the camera by exactly speed * multiplier, so strictly forward; the multiplier never drops and stays at most 2.5; collected boosts stay collected; progress never drops |
| ObstacleRun.ProgressMonotone | src/components/Game.tsx:209 | a camera further on never shows less progress |
| ObstacleRun.StepWins | src/components/Game.tsx:209-216 | a frame is a win iff the scrolled camera reaches the level length; a winning frame changes only the camera, progress (100) and the outcome, with no physics or collisions |
| ObstacleRun.StepDies | src/components/Game.tsx:222-237 | a running frame ends in death iff it does not win and its obstacle loop meets an overlapping spike; a death counts exactly one attempt and leaves the player's position, velocity and jump flag as they were; any other frame leaves attempts alone |
| ObstacleRun.OutcomesAreSinks | src/components/Game.tsx:184 | once dead or won, any number of further frames changes nothing |
| ObstacleRun.StepIntegrates | src/components/Game.tsx:218-219 | with nothing overlapping and no clamp, v' = v + 0.6 and y' = y + v', airborne, multiplier and boosts unchanged |
| ObstacleRun.StepClamps | src/components/Game.tsx:256-265 | with nothing overlapping, reaching the ground gives y = 360, v = 0, grounded; passing the ceiling gives y = 0, v = 0, airborne |
| ObstacleRun.StepBoostIdempotent | src/components/Game.tsx:239-244 | re-touching a collected boost in a frame neither re-collects it nor drops it |
| ObstacleRun.Run.constructor | src/components/Game.tsx:166-174 | the component starts in the initial state, with the invariant |
| ObstacleRun.Run.Tick | src/components/Game.tsx:206-269 | one frame updates the fields to exactly Step(level, old state) and keeps the invariant; outside a running game it does nothing |
| ObstacleRun.Run.Click | src/components/Game.tsx:355-359 | a click updates the fields to Jumped(old state) |
| ObstacleRun.Run.KeyDown | src/components/Game.tsx:349-353 | Space and ArrowUp act as a jump; every other key changes nothing |
| ObstacleRun.Run.StartGame | src/components/Game.tsx:370-380 | a restart sets playing, clears both outcomes, puts the player on the ground at rest, resets camera, progress, multiplier and boosts; attempts are kept |
| Levels.FindLevel | src/components/Game.tsx:176 | `find`: none iff no level has the id; otherwise the first level with that id |
| Levels.SelectLevel | src/components/Game.tsx:176 | the level run is a built-in level: the one with the requested id when there is one, level 1 otherwise |
| Levels.LastIsFarthest | src/components/Game.tsx:209 | in a level sorted by x, the last obstacle is the farthest |
| Levels.BuiltInLevels | src/components/Game.tsx:27-154 | the five levels are runnable, sorted by x, with ids 1 to 5 in order |
| Levels.SelectedLevelIsRunnable | src/components/Game.tsx:176-209 | every selectable level is runnable and its length is at least 500 past each of its obstacles |
| Levels.Level1StartsAt300 | src/components/Game.tsx:36-45 | level 1 has no obstacle before x = 300 |
| Levels.Level1Slides | src/components/Game.tsx:206-269 | on level 1 without input the player slides on the ground for 32 frames, the camera at 5 per frame |
| Levels.Level1FlatRunDies | src/components/Game.tsx:232-237 | on level 1 without input the run is alive for frames 0-32 and frame 33 ends it on the first spike, camera 165, one attempt |
| Pet.Decay | src/components/PetGame.tsx:114-119 | hunger -1, happiness -0.5, energy -0.3 when the bar has that much, and exactly 0 when it has less (a negative bar included); so no bar that is not negative rises; nothing else changes |
| Pet.MoodOf | src/components/PetGame.tsx:126-129 | happy iff the three bars sum to more than 180 (average above 60), sad iff at most 90 (average at most 30), neutral otherwise |
| Pet.MoodMonotone | src/components/PetGame.tsx:126-129 | better bars never give a worse mood |
| Pet.DecayNeverLiftsMood | src/components/PetGame.tsx:114-129 | with non-negative bars, the decay tick never improves the mood |
| Pet.DefaultIsHappy | src/components/PetGame.tsx:83-92 | a new pet is happy |
| Pet.AddExperience | src/components/PetGame.tsx:132-151 | reaching level * 100 raises the level by exactly one and carries the excess; otherwise only experience grows; only level and experience change; an amount up to 100 keeps the stats well formed |
| Pet.ExperienceIsNeverLost | src/components/PetGame.tsx:132-151 | the lifetime experience (50 L (L-1) + exp) grows by exactly the amount, level-up or not |
| Pet.BuyItem | src/components/PetGame.tsx:153-169 | too few coins: nothing changes; otherwise coins drop by the cost and stay >= 0, each bar becomes min(100, bar + boost), nothing else changes |
| Pet.ToyDrainsEnergyBelowZero | src/components/PetGame.tsx:163-168 | a pet with all bars in [0, 100] and energy 5 has energy -5 after buying the toy: the lower bound is not enforced |
| Pet.DecayRestoresEnergyFloor | src/components/PetGame.tsx:118 | a negative energy is lifted to 0 by the next decay tick |
| Pet.BuyCostume | src/components/PetGame.tsx:182-216 | an owned costume is only put on; a level-locked or unaffordable one changes nothing; a purchase pays the cost, puts it on and appends its id |
| Pet.BuyCostumeIdempotent | src/components/PetGame.tsx:182-216 | asking for the same costume twice is asking once: it is never paid for twice |
| Pet.BuyCostumeKeepsWellFormed | src/components/PetGame.tsx:182-216 | the owned list never gains a duplicate, coins stay >= 0 and the worn costume is owned |
| Pet.Feed | src/components/PetGame.tsx:229-247 | fewer than 10 coins: unchanged; otherwise exactly 10 coins paid, hunger +30 and happiness +10 capped, energy and costumes untouched, lifetime experience +5; keeps well-formedness |
| Pet.Walk | src/components/PetGame.tsx:263-281 | energy below 20: unchanged; otherwise +5 coins, happiness +25 capped, energy -15, hunger untouched, lifetime experience +10; keeps well-formedness |
| Pet.Play | src/components/PetGame.tsx:298-317 | energy below 15: unchanged; otherwise +3 coins, happiness +30 capped, energy -10, hunger -5 floored, lifetime experience +8; keeps well-formedness |
| Pet.Sleep | src/components/PetGame.tsx:334-342 | always applies: energy +40 capped, hunger -10 floored, coins and happiness untouched, lifetime experience +3; keeps well-formedness |
| Pet.Bathroom | src/components/PetGame.tsx:359-366 | always applies: happiness +15 capped, the rest untouched, lifetime experience +2; keeps well-formedness |
| Pet.HandleGameWin | src/components/PetGame.tsx:414-421 | the reward's coins added, happiness +10 capped, bars otherwise untouched, lifetime experience +15; a non-negative reward keeps well-formedness |
| Pet.ResetProgress | src/components/PetGame.tsx:395-406 | a reset gives back exactly a new pet (the stats of lines 83-92): hunger 80, happiness 70, energy 60, level 1 with 0 experience, 50 coins and only the default costume, worn; so it is happy with all bars in [0, 100] |
| Pet.DefaultWellFormed | src/components/PetGame.tsx:83-92 | the default stats have every bar in [0, 100] and satisfy the invariant |
| Pet.ApplyKeepsWellFormed | src/components/PetGame.tsx:114-421 | every action the interface offers keeps hunger and happiness in [0, 100], energy <= 100, coins >= 0, experience below the level threshold, no duplicate costume and the worn costume owned |
| Pet.ApplyKeepsBounded | src/components/PetGame.tsx:114-421 | every offered action except buying the toy also keeps energy >= 0 |
| Pet.ReachableIsWellFormed | src/components/PetGame.tsx:83-421 | any sequence of offered actions from a well-formed pet leaves it well formed |
| Records.SortByRank | backend/records/index.py:136 | ORDER BY: the result is sorted by rank and a permutation of the rows |
| Records.Board | backend/records/index.py:136-137 | ORDER BY … LIMIT n: min(rows, n) rows, sorted, drawn from the rows, every row left out ranks no better than each row shown, and with at most n rows all of them are shown |
| Records.Merge | backend/records/index.py:56-69 | first submission: attempts 1, best = progress, completed time set iff completed; repeat: attempts +1, best = max(old, new), completed sticky, stars replaced only when completed, completion time set on the first completing submission and kept afterwards |
| Records.MergeKeepsStamped | backend/records/index.py:58-66 | a record is completed exactly when it has a completion time, and the merge keeps it so |
| Records.MergeTwice | backend/records/index.py:62-66 | two submissions in a row count two attempts, keep the best progress of both, never undo a completion and keep its first time |
| Records.RouteOf | backend/records/index.py:18-158 | OPTIONS is preflight; a POST without a truthy user_id or with no level_id is refused, otherwise submitted with the defaults progress 0, completed false, stars 0; a GET user_records without a non-empty userId is refused, one whose userId int() parses is served for that id, one int() rejects is a server error; a GET leaderboard with no levelId is global, one whose levelId int() parses is served for that level, one int() rejects is a server error; unknown actions and other methods are not allowed; each of these holds in both directions |
| Records.StatusOf | backend/records/index.py:17-166 | 200 for preflight, submissions and queries; 400 for missing fields or userId; 405 for not allowed; 500 for a failed int() |
| Records.ZeroIds | backend/records/index.py:18-49 | level_id 0 is accepted, user_id 0 refused, and a request with no method is a GET |
| Records.Database.constructor | backend/records/index.py:73-77 | empty records beside users with no stars satisfy the invariant |
| Records.Database.SumCompletedStars | backend/records/index.py:75 | the SUM subquery equals the sum of stars over the user's completed records |
| Records.Database.Submit | backend/records/index.py:56-79 | the record at (user, level) becomes the merge of the old one (if any) with the submission, nothing else in level_records changes; a completed submission sets an existing user's total_stars to the sum over their completed records, any other leaves users untouched; completion stamps and every user's total_stars stay consistent |
| Records.Database.RecordRows | backend/records/index.py:102 | the WHERE user_id = u rows: exactly the user's records, one per level |
| Records.Database.UserRecords | backend/records/index.py:101-105 | exactly the user's records, each once, in strictly increasing level id |
| Records.Database.LevelRows | backend/records/index.py:120-123 | the JOIN … WHERE level_id AND completed rows: exactly the qualifying rows, one per user, as many as qualifying keys |
| Records.Database.LevelBoardOfRows | backend/records/index.py:124-125 | ordering and limiting the qualifying rows gives an answer with every property the Records.Database.LevelLeaderboard row states |
| Records.Database.GlobalRows | backend/records/index.py:132-135 | the LEFT JOIN … GROUP BY u.id rows: exactly one row per user, with its total_stars and completed-level count |
| Records.Database.GlobalBoardOfRows | backend/records/index.py:136-137 | ordering and limiting the per-user rows gives an answer with every property the Records.Database.GlobalLeaderboard row states, the completeness clause through GlobalBoardShowsAll |
| Records.Database.GlobalBoardShowsAll | backend/records/index.py:136-137 | with at most 100 users, every user's row is on the board |
| Records.Database.LevelLeaderboard | backend/records/index.py:117-128 | exactly min(100, number of qualifying rows) rows, each a completed record of the level whose user exists, no user twice, earliest completion first; with fewer than 100 rows every qualifying row is shown, and every qualifying row left out completed no earlier than each row shown |
| Records.Database.GlobalLeaderboard | backend/records/index.py:129-140 | exactly min(100, number of users) rows, no user twice, each with the user's total_stars and completed-level count, ordered by stars then completed levels descending; with at most 100 users every user is shown, and every user left out ranks no higher than each shown |
| Records.Database.Handle | backend/records/index.py:17-166 | the response status is that of the route; only a submission writes to the tables: its key's record becomes the merge of the old record (if any) with the submitted progress, completion and stars (body defaults applied), and a completed submission sets an existing user's total_stars to the sum over their completed records, any other leaves users unchanged; it returns the stored record; user_records, level and global leaderboard requests return rows that answer their query exactly as the three query methods promise; preflight has an empty body and every non-200 reply is an error message |

## Left out

- Everything the canvas draws in Game.tsx (lines 200-204, 271-336) is left out: it is rendering.
- `requestAnimationFrame` scheduling and the effect's re-subscription on every state change are left out. A frame is one call of `Run.Tick`, starting from the published state.
- Publishing the boost state inside the loop is not modelled separately. `setSpeedMultiplier` and `setCollectedBoosts` run inside the loop, but the model publishes these values once, at the end of the frame. On every path, including a death after a boost, the resulting state is the same.
- IEEE floating point is not modelled. The arithmetic is exact, so rounding of 0.6, 0.5 and 0.3 and the accumulated drift of the camera are absent.
- PetGame's localStorage load and save, toasts, `setTimeout` animations, location changes and the costume shown on screen are left out. They are I/O or UI.
- The interleaving of the 3-second timer with an action is not modelled. `addExperience` reads the render-time stats, and each activity is modelled as its stat change followed by the experience step. The two touch disjoint fields.
- The mini-games themselves and MiniGames.tsx are left out: they are random and timed. Their rewards (15, 20 and up to 25 coins) enter only as the argument of `Pet.HandleGameWin`.
- In the records handler, the Postgres connection, JSON parsing of the body and of the response, the CORS headers and other exceptions on the 500 path are left out. Only a failing `int()` of a query parameter is modelled, as a parameter's parsed value.
- Records.Database.Submit: does not model a foreign-key failure when the user does not exist. In that case the total update simply touches no row.
- Records.Database.Submit: `CURRENT_TIMESTAMP` is not read from a clock; the time is the parameter `now`, passed in by `Records.Database.Handle`.
- JSON values other than integers and absent keys for `user_id` and `level_id` are not modelled: strings, booleans and explicit null. Truthiness is modelled for integers (0 is false) and for query-string text ("" is false).
- Records.Database.GlobalLeaderboard: it orders ties the way its insertion sort happens to, where SQL leaves the order of tied rows unspecified. Its contract says nothing about the order of tied rows. Its rows carry the user id, which the query does not select.
- Records.Database.LevelLeaderboard: its rows carry the user id, which the query does not select.
- backend/auth/index.py, MainMenu.tsx, AuthContext.tsx, useMusic.ts and Index.tsx are not part of this model. They hold view switching, fetches, hashing and audio.
