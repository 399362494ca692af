# Beatles: a verified model of the beat-ball engines and the arm latch

Beatles turns a webcam into a drum machine. This project models four of its
scripts. The camera, pose detection and drawing are left out; what remains
is each script's game state and how one frame changes it.

- **The ring engine** (`beatles_008.py`):
  - On every beat of a fixed 60 BPM clock, the scheduler launches one ball per drum part (hi-hat, snare, kick) whose 8-step pattern is set at `counter % 8`.
  - A ball starts at the screen centre. It gets a random direction, drawn again until it moves. An axis-aligned direction is scaled by √2, so every ball has the same speed.
  - Every frame, every ball moves by its velocity. A ball whose truncated distance from the centre lies in the ring band [200, 250) plays its part's sound through a one-shot latch (`isAudioPlayed`).
  - At the end of the frame, balls outside the visible rectangle are dropped.
- **The move-only engine** (`beatles_003.py`): the same scheduler, launch and cull, but with no trigger. Nothing is ever played.
- **The square engine** (`beatles_002.py`):
  - The tempo is 138 BPM.
  - Directions are diagonal only (±speed on each axis).
  - There is no latch. A ball plays on every frame it ends inside the square of half-side 200 around the centre, edges included.
  - It also has a `remove` that parks a ball off screen.
- **The arm latch** (`beatles_001.py`):
  - Each frame with pose landmarks, a bent left arm starts the hi-hat and a bent right arm starts the snare, once per bend.
  - Four flags lock each sound until that arm is straightened.

## Project layout

The files follow the scripts' structure.

- Shared modules:
  - `beat.dfy` (`Beat`): the patterns and the beat clock.
  - `geometry.dfy` (`Geometry`): motion, the screen rectangle, the two trigger zones, and the random launch direction with the √2 correction.
  - `tracks.dfy` (`Tracks`): the end-of-frame cull, and the invariant that each ball sits in one collection, once.
  - `stage.dfy` (`Stage`): the scheduler block, generic over what a ball is.
- Per engine, a ball module and an engine module:
  - Ring engine: `RingBall` and `RingEngine`.
  - Move-only engine: `MoveBall` and `MoveEngine`.
  - Square engine: `SquareBall` and `SquareEngine`.
  - The three scripts are copies of one another with small changes, so these modules repeat much of the same code: each stays next to the script it models.
  - In each, a `class Ball` has the script's fields. `const` is used for what the constructor fixes; `var` for the position and the latch.
  - In each, a `class Engine` holds the three part collections as `seq<Ball>` fields, the step counter and the start time.
  - Every method is proved against a value-level function: `Step` / `StepAll` / `Emitted` for balls, and `Poll` / `NextWorld` for a frame of the engine. The properties are lemmas about those functions.
- `arm_latch.dfy` (`ArmLatch`): the four flags as `class Drummer`, and one frame as the pure function `FrameStep`.

### Behaviour worth knowing

- **Pattern step:** the pattern is read with `counter % 8` before the counter is incremented, so the first beat uses step 0 (`beatles_008.py:96-103`).
- **Latch:** the ring engine's latch is set only when the ball has a sound (`beatles_008.py:57-59`). A ball built without a sound never latches and never plays.
- **Late polls:** the scheduler restarts the interval at the poll time. A late poll takes one beat and drops the rest (`Beat.NoCatchUp`).
- **Square trigger:** `beatles_002.py` tests a square box around the centre with inclusive edges (`beatles_002.py:102`). It has no latch, so a ball plays on each of its first 66 frames.
- **Culling:** a ball is dropped as soon as it leaves the camera frame. The crossing results hold in the engine only when the frame is large enough: at least 410 pixels wide and high for the ring, at least 400 for the square (`RingEngine.SpawnedBallPlaysInEngine`, `SquareEngine.SpawnedBallPlaysInEngine`).

## Model

| member | source | states |
|---|---|---|
| Beat.Pattern | beatles_008.py:62-64 | every drum pattern has exactly 8 steps, so `counter % 8` always indexes it |
| Beat.SpawningParts | beatles_008.py:96-101 | the parts that spawn on a beat are exactly those whose pattern step is set, at most three, in hi-hat, snare, kick order |
| Beat.Interval | beatles_008.py:67 | the beat interval is positive and equals 60 / BPM seconds |
| Beat.Tick | beatles_008.py:95-103 | a poll advances the counter by one exactly when the interval has elapsed, and then restarts the interval at `now`; otherwise the clock is unchanged |
| Beat.BeatsAreSpaced | beatles_008.py:93-103 | over any sequence of polls, the counter advances by the number of beats taken; the first beat is at least one interval after the start; consecutive beats are at least one interval apart; the clock ends restarted at the last beat |
| Beat.NoCatchUp | beatles_008.py:95-103 | a poll advances the counter by at most one, and repeating it at the same instant takes no second beat: late beats are dropped, not queued |
| Geometry.Moved | beatles_008.py:49-51 | one move adds the velocity to the position; `MovedForIsLinear` and `MovedForStep` state its iterates |
| Geometry.MovedForIsLinear | beatles_008.py:49-51 | after n frames a ball has moved n times its velocity, and its velocity is unchanged |
| Geometry.MovedForStep | beatles_008.py:49-51 | one more move after k frames is k + 1 frames |
| Geometry.InBand | beatles_008.py:109-110 | the band test on the squared distance; `BandIsTruncatedDistance` shows it agrees with the script's truncated-distance test |
| Geometry.InSquare | beatles_002.py:102 | the inclusive square test around the centre; `SquareBall.SquareOnDiagonal` says when a launched ball passes it |
| Geometry.BandIsTruncatedDistance | beatles_008.py:109-110 | the test radius <= int(distance) < radius + thickness holds exactly when the squared distance lies in [radius², (radius + thickness)²) |
| Geometry.FirstMoving | beatles_008.py:36-38 | the resampling loop settles on the first draw that is not (0, 0), and every earlier draw was (0, 0) |
| Geometry.ChooseDirection | beatles_008.py:36-38 | the direction loop returns components in {-speed, 0, speed}, not both 0, namely those of the first moving draw |
| Geometry.LaunchSpeedIsUniform | beatles_008.py:39-41 | after the √2 correction every direction has squared speed 2·speed²; diagonals keep ±speed on both axes; an axis-aligned direction gets ±speed·√2 on its axis and 0 on the other |
| Geometry.Velocity | beatles_008.py:39-41 | the √2 correction: a zero component stays zero; a diagonal keeps both components; an axis-aligned direction has its squared speed multiplied by rt2² |
| Geometry.LaunchBodyIsUniform | beatles_008.py:31-41 | a newly built ball sits at (width // 2, height // 2), moves, and has squared speed 2·speed² |
| Geometry.LeavesScreen | beatles_008.py:192-194 | a ball on screen that moves at least one pixel per frame on some axis is off screen after width + height frames |
| Geometry.LaunchBodyBounded | beatles_008.py:31-41 | every component of a launch velocity is at most 1.42 times the speed |
| Geometry.MovesWithin | beatles_008.py:49-51 | after n frames a ball is at most n·m from its start on each axis, when each velocity component is at most m |
| Geometry.StaysOnScreen | beatles_008.py:192-194 | a ball starting at the centre whose n frames of drift fit in half the frame is on screen after n frames |
| Geometry.LaunchBodyDrifts | beatles_003.py:42-47 | every launch direction moves at least one pixel per frame on some axis, for any speed >= 1 |
| Geometry.LaunchLeavesScreen | beatles_003.py:140-142 | every launched ball is off screen, and so culled, at most width + height frames after its launch |
| Tracks.CullBy | beatles_008.py:192-194 | the cull comprehension on values, in order; `CullByMembers`, `CullAppend` and `CullIdempotent` state what it keeps |
| Tracks.CullByMembers | beatles_008.py:192-194 | the cull keeps exactly the balls inside [0, width) × [0, height), and adds none |
| Tracks.CullAppend | beatles_008.py:192-194 | culling a concatenation culls each part in place: survivors keep their order |
| Tracks.CullIdempotent | beatles_008.py:192-194 | culling a culled collection changes nothing |
| Tracks.CullKeepsOnScreen | beatles_008.py:192-194 | a collection entirely on screen survives the cull unchanged |
| Tracks.Apart | beatles_008.py:105-107 | in a well-formed engine the three collections share no ball, so moving one collection leaves the others alone |
| Tracks.AppendWellFormed | beatles_008.py:96-101 | appending a new ball of part t to part t's collection keeps every collection duplicate-free and single-part |
| Tracks.SubWellFormed | beatles_008.py:192-194 | dropping balls from the collections keeps them duplicate-free and single-part |
| Stage.Spawned | beatles_008.py:95-101 | one part's pattern test at a poll: append the constructor's ball when due and the step is set; `SchedulerStep` states it per part |
| Stage.Scheduled | beatles_008.py:95-103 | the scheduler block as a value: the three pattern tests, then `Tick`; `SchedulerStep` states its effect |
| Stage.SchedulerStep | beatles_008.py:95-103 | a due poll appends exactly the constructor's new ball at the end of each part whose step is set, and leaves the other parts alone; it advances the counter by one and restarts the interval at `now`; a poll that is not due changes nothing; it plays nothing and adds at most three balls |
| Stage.PollKeeps | beatles_008.py:95-103 | a poll only appends: every ball listed before it is still listed after it, in the same part |
| Stage.PollLaunches | beatles_008.py:95-101 | a due poll whose pattern step for part t is set lists part t's new ball |
| RingBall.LaunchIsArmedAndUniform | beatles_008.py:29-47 | a new ball is at the centre, unplayed, keeps its sound, and moves with squared speed 2·speed² |
| RingBall.Fire | beatles_008.py:56-59 | play_sound emits exactly when the ball has a sound and has not played; the emission is its sound; afterwards the latch is set (if it has a sound); position and sound are untouched |
| RingBall.FireIsOneShot | beatles_008.py:56-59 | a second play_sound emits nothing and changes nothing |
| RingBall.Step | beatles_008.py:106-111 | one frame moves the ball by its velocity; a played ball stays played and stays silent; a ball emits exactly when it has a sound, has not played, and its moved position's squared distance from the centre is in the band; it emits its own sound, and that is exactly when it goes from unplayed to played |
| RingBall.PlaysUseUpLatches | beatles_008.py:105-111 | in a frame, the sounds played plus the balls still unplayed afterwards equal the balls unplayed before |
| RingBall.CullKeepsFewerArmed | beatles_008.py:192-194 | the cull never increases the number of unplayed balls |
| RingBall.PlaysAtMostOnce | beatles_008.py:105-111 | however many frames a ball spends in the band, it plays at most once (never if it had already played), and once played it stays played |
| RingBall.RingDistance | beatles_008.py:109-110 | a ball launched from the centre at the engine's speed is outside the band on frames 0 to 47 and inside it on frame 48 |
| RingBall.SilentBeforeBand | beatles_008.py:105-111 | such a ball only moves, and plays nothing, during its first 47 frames |
| RingBall.PlaysOnceOnFrame48 | beatles_008.py:105-111 | such a ball with a sound is silent for 47 frames, plays on frame 48, and never again |
| RingBall.SilentInSpawnFrame | beatles_008.py:95-111 | a ball launched with 2·speed² < 200² plays nothing in the frame in which it is spawned |
| RingBall.SpawnedBallPlaysOnFrame48 | beatles_008.py:95-111 | culling aside, every ball the scheduler launches plays 0 times during its first 47 frames and exactly once from frame 48 on |
| RingBall.AfterMoves | beatles_008.py:49-51 | frames only move a ball and keep its sound: after n frames its body has moved n times |
| RingBall.LaunchStaysOnScreen | beatles_008.py:29-51 | on a camera frame at least 410 pixels wide and high, a launched ball is inside the visible rectangle on each of its first 48 frames |
| RingBall.StepAll | beatles_008.py:105-107 | the move loop keeps the collection's length; `StepAllHas`: every listed ball is carried to its moved value |
| RingBall.StepAllHas | beatles_008.py:105-107 | every listed ball's moved value is in the moved collection |
| RingBall.Emitted | beatles_008.py:105-111 | the sounds a collection plays in one frame, in collection order; `PlaysUseUpLatches` and `EmittedHas` state what it holds |
| RingBall.EmittedHas | beatles_008.py:105-111 | a listed ball that plays in a frame puts its sound among the frame's sounds |
| RingBall.Cull | beatles_008.py:192-194 | the cull comprehension over ball objects; `CullStates` ties it to `Tracks.CullBy` on their values |
| RingBall.Ball.constructor | beatles_008.py:29-47 | Ball(speed, color, sound) builds the launch value: centre, first moving draw, √2 correction, unplayed, size 20 |
| RingBall.Ball.Move | beatles_008.py:49-51 | move adds the velocity to the position and changes nothing else |
| RingBall.Ball.PlaySound | beatles_008.py:56-59 | play_sound returns and latches exactly as `Fire` on the ball's value |
| RingBall.CullStates | beatles_008.py:192-194 | the cull comprehension over ball objects culls their values |
| RingBall.MoveOne | beatles_008.py:107-111 | the loop body for one ball (move, distance, band test, play_sound) does exactly `Step` |
| RingBall.MoveAndCheck | beatles_008.py:106-111 | the loop over one collection moves and checks each ball once, and returns the sounds `Emitted` gives, in collection order |
| RingBall.MovePart | beatles_008.py:105-111 | as MoveAndCheck, and the balls of the other two collections are untouched |
| RingBall.CullWellFormed | beatles_008.py:192-194 | the three cull comprehensions keep the engine invariant |
| RingEngine.NextWorld | beatles_008.py:91-194 | one main-loop iteration as a value: poll, move and check the three parts in order, log their sounds, cull; `Engine.Frame` is proved against it |
| RingEngine.FrameCarriesBall | beatles_008.py:105-194 | a ball listed when a frame's moves begin, and still on screen once moved, is listed after the frame as its moved value; a sound it plays then is in the log |
| RingEngine.FramesCarryBall | beatles_008.py:91-194 | over n frames, a ball that stays on screen is listed as its n-th moved value, and every sound it played is in the log |
| RingEngine.NewcomerListed | beatles_008.py:95-101 | a due poll whose step is set lists part t's new ball |
| RingEngine.NewcomerStaysOnScreen | beatles_008.py:29-51 | on a frame at least 410 pixels wide and high, part t's new ball is on screen on each of its first 48 frames |
| RingEngine.NewcomerPlays | beatles_008.py:105-111 | part t's new ball plays 0 times in its first 47 frames and once by frame 48, and has then played |
| RingEngine.SpawnedBallPlaysInEngine | beatles_008.py:91-194 | in the engine, culling included: on a frame at least 410 pixels wide and high, a ball launched by a due poll is listed on each of its first 48 frames, has played by frame 48, and its part's sound is then in the log once more |
| RingEngine.FramePlaysBounded | beatles_008.py:91-194 | over one frame, the sounds played plus the balls still armed never exceed the armed balls before plus the balls launched, so no ball pays for two sounds |
| RingEngine.FrameLeavesOnlyVisibleBalls | beatles_008.py:192-194 | after a frame, every listed ball is inside the visible rectangle |
| RingEngine.Engine.constructor | beatles_008.py:68-90 | empty collections, counter 0, clock started at the start time, nothing played |
| RingEngine.Engine.Schedule | beatles_008.py:95-103 | the scheduler block turns the engine's value into `Poll` of it, appending new balls after the old ones and keeping the invariant |
| RingEngine.Engine.SpawnAll | beatles_008.py:96-101 | a due beat's three pattern tests append each part's new ball exactly when its step is set |
| RingEngine.Engine.SpawnOnStep | beatles_008.py:96-97 | one pattern test appends part t's new ball when its step is set, and leaves the other parts alone |
| RingEngine.Engine.TakeStep | beatles_008.py:102-103 | the interval restarts at `now`, the counter advances by one, and no ball changes |
| RingEngine.Engine.Append | beatles_008.py:97 | `append` puts a fresh ball, the constructor's launch value, at the end of part t's collection only |
| RingEngine.Engine.MoveAll | beatles_008.py:105-111 | the three loops move and check every ball once and return each part's emitted sounds |
| RingEngine.Engine.CullAll | beatles_008.py:192-194 | each collection becomes its cull, and the invariant is kept |
| RingEngine.Engine.Advance | beatles_008.py:105-194 | move and check, log the sounds in part order, then cull |
| RingEngine.Engine.Record | beatles_008.py:111 | the frame's sounds are appended to the play log in order |
| RingEngine.Engine.Frame | beatles_008.py:91-194 | one main-loop iteration turns the engine's value into `NextWorld` of it and keeps the invariant |
| MoveBall.StepAllAppend | beatles_003.py:98-100 | moving a concatenation moves each part in place |
| MoveBall.StepForMovesEach | beatles_003.py:98-100 | after n frames, each ball is in its place with its body moved for n frames and its sound kept |
| MoveBall.Ball.constructor | beatles_003.py:35-52 | Ball(speed, color, sound) builds the launch value: centre, first moving draw, √2 correction, size 20 |
| MoveBall.Ball.Move | beatles_003.py:54-56 | move adds the velocity to the position and changes nothing else |
| MoveBall.Cull | beatles_003.py:140-142 | the cull comprehension over ball objects; `CullStates` ties it to `Tracks.CullBy` on their values |
| MoveBall.CullStates | beatles_003.py:140-142 | the cull comprehension over ball objects culls their values |
| MoveBall.MoveEach | beatles_003.py:98-100 | the loop over one collection moves each ball exactly once |
| MoveBall.MovePart | beatles_003.py:98-100 | as MoveEach, and the other two collections are untouched |
| MoveBall.CullWellFormed | beatles_003.py:140-142 | the three cull comprehensions keep the engine invariant |
| MoveEngine.NextWorld | beatles_003.py:84-142 | one main-loop iteration as a value: poll, move every ball, cull; `Engine.Frame` is proved against it |
| MoveEngine.FrameKeepsMovedVisibleBalls | beatles_003.py:84-142 | a frame keeps exactly the moved balls that are on screen, plays nothing, and its result is already culled |
| MoveEngine.Engine.constructor | beatles_003.py:72-83 | empty collections, counter 0, clock started at the start time |
| MoveEngine.Engine.Schedule | beatles_003.py:88-96 | the scheduler block turns the engine's value into `Poll` of it, appending new balls after the old ones |
| MoveEngine.Engine.SpawnAll | beatles_003.py:89-94 | a due beat's three pattern tests append each part's new ball exactly when its step is set |
| MoveEngine.Engine.SpawnOnStep | beatles_003.py:89-90 | one pattern test appends part t's new ball when its step is set |
| MoveEngine.Engine.TakeStep | beatles_003.py:95-96 | the interval restarts at `now` and the counter advances by one |
| MoveEngine.Engine.Append | beatles_003.py:90 | `append` puts a fresh ball at the end of part t's collection only |
| MoveEngine.Engine.MoveAll | beatles_003.py:98-100 | every ball of every part moves exactly once |
| MoveEngine.Engine.CullAll | beatles_003.py:140-142 | each collection becomes its cull, and the invariant is kept |
| MoveEngine.Engine.Frame | beatles_003.py:84-142 | one main-loop iteration turns the engine's value into `NextWorld` of it |
| SquareBall.LaunchIsDiagonal | beatles_002.py:36-41 | a new ball is at the centre and moves ±speed on both axes, never 0; squared speed 2·speed² |
| SquareBall.Step | beatles_002.py:99-103 | one frame moves the ball; it plays exactly when it has a sound and its new position is inside the square; what it plays is its sound |
| SquareBall.EmittedCountsInside | beatles_002.py:97-103 | a frame plays one sound per ball that ends it inside the square, whatever it played before |
| SquareBall.AfterMoves | beatles_002.py:48-50 | frames only move a ball: after n frames its body has moved n times |
| SquareBall.SquareOnDiagonal | beatles_002.py:102 | a diagonal ball at speed 3 is inside the square after k frames exactly when k <= 66 |
| SquareBall.PlaysWhileInside | beatles_002.py:97-103 | a diagonal ball with a sound plays on every one of its first 66 frames and never after |
| SquareBall.SpawnedBallPlays66Frames | beatles_002.py:87-103 | culling aside, every ball the scheduler launches plays in its spawn frame, and on each of its first n <= 66 frames, 66 times in all |
| SquareBall.LaunchStaysOnScreen | beatles_002.py:33-50 | on a camera frame at least 400 pixels wide and high, a launched ball is inside the visible rectangle on each of its first 66 frames |
| SquareBall.StepAll | beatles_002.py:97-99 | the move loop keeps the collection's length; `StepAllHas`: every listed ball is carried to its moved value |
| SquareBall.StepAllHas | beatles_002.py:97-99 | every listed ball's moved value is in the moved collection |
| SquareBall.Emitted | beatles_002.py:97-103 | the sounds a collection plays in one frame, in collection order; `EmittedCountsInside` and `EmittedHas` state what it holds |
| SquareBall.EmittedHas | beatles_002.py:97-103 | a listed ball that plays in a frame puts its sound among the frame's sounds |
| SquareBall.Cull | beatles_002.py:134-136 | the cull comprehension over ball objects; `CullStates` ties it to `Tracks.CullBy` on their values |
| SquareBall.ParkedIsCulled | beatles_002.py:60-63 | a ball parked by `remove` is dropped by the next cull |
| SquareBall.Ball.constructor | beatles_002.py:33-46 | Ball(speed, color, sound) is at the centre with the drawn ±speed on each axis, size 20 |
| SquareBall.Ball.Move | beatles_002.py:48-50 | move adds the velocity to the position and changes nothing else |
| SquareBall.Ball.PlaySound | beatles_002.py:55-58 | play_sound returns the ball's sound, if any, and changes nothing |
| SquareBall.Ball.Remove | beatles_002.py:60-63 | remove moves the ball to (-100, -100) and keeps its velocity and sound |
| SquareBall.CullStates | beatles_002.py:134-136 | the cull comprehension over ball objects culls their values |
| SquareBall.MoveOne | beatles_002.py:99-103 | the loop body for one ball (move, inclusive square test, play_sound) does exactly `Step` |
| SquareBall.MoveAndCheck | beatles_002.py:98-103 | the loop over one collection moves and checks each ball once and returns the sounds `Emitted` gives, in order |
| SquareBall.MovePart | beatles_002.py:97-103 | as MoveAndCheck, and the other two collections are untouched |
| SquareBall.CullWellFormed | beatles_002.py:134-136 | the three cull comprehensions keep the engine invariant |
| SquareEngine.NextWorld | beatles_002.py:83-136 | one main-loop iteration as a value: poll, move and check the three parts, log their sounds, cull; `Engine.Frame` is proved against it |
| SquareEngine.FrameCarriesBall | beatles_002.py:97-136 | a ball listed when a frame's moves begin, and still on screen once moved, is listed after the frame as its moved value; a sound it plays then is in the log |
| SquareEngine.FramesCarryBall | beatles_002.py:83-136 | over n frames, a ball that stays on screen is listed as its n-th moved value, and every sound it played is in the log |
| SquareEngine.NewcomerListed | beatles_002.py:87-93 | a due poll whose step is set lists part t's new ball |
| SquareEngine.NewcomerStaysOnScreen | beatles_002.py:33-50 | on a frame at least 400 pixels wide and high, part t's new ball is on screen on each of its first 66 frames |
| SquareEngine.NewcomerPlays | beatles_002.py:97-103 | part t's new ball plays on each of its first n <= 66 frames |
| SquareEngine.SpawnedBallPlaysInEngine | beatles_002.py:83-136 | in the engine, culling included: on a frame at least 400 pixels wide and high, a ball launched by a due poll is listed on each of its first n <= 66 frames, and the log gains n sounds of its part |
| SquareEngine.FramePlaysEveryBallInside | beatles_002.py:97-103 | a frame's log grows by exactly the number of balls, over all parts, that its move leaves inside the square |
| SquareEngine.FrameKeepsMovedVisibleBalls | beatles_002.py:97-136 | a frame keeps exactly the moved balls that are on screen, and its result is already culled |
| SquareEngine.Engine.constructor | beatles_002.py:71-82 | empty collections, counter 0, clock started at the start time, nothing played |
| SquareEngine.Engine.Schedule | beatles_002.py:87-95 | the scheduler block turns the engine's value into `Poll` of it, appending new balls after the old ones |
| SquareEngine.Engine.SpawnAll | beatles_002.py:88-93 | a due beat's three pattern tests append each part's new ball exactly when its step is set |
| SquareEngine.Engine.SpawnOnStep | beatles_002.py:88-89 | one pattern test appends part t's new ball when its step is set |
| SquareEngine.Engine.TakeStep | beatles_002.py:94-95 | the interval restarts at `now` and the counter advances by one |
| SquareEngine.Engine.Append | beatles_002.py:89 | `append` puts a fresh ball at the end of part t's collection only |
| SquareEngine.Engine.MoveAll | beatles_002.py:97-103 | the three loops move and check every ball once and return each part's emitted sounds |
| SquareEngine.Engine.CullAll | beatles_002.py:134-136 | each collection becomes its cull, and the invariant is kept |
| SquareEngine.Engine.Advance | beatles_002.py:97-136 | move and check, log the sounds in part order, then cull |
| SquareEngine.Engine.Record | beatles_002.py:103 | the frame's sounds are appended to the play log in order |
| SquareEngine.Engine.Frame | beatles_002.py:83-136 | one main-loop iteration turns the engine's value into `NextWorld` of it and keeps the invariant |
| ArmLatch.LeftArm | beatles_001.py:64-77 | a bent left arm plays the hi-hat exactly when neither hi-hat flag is set; it then sets both hi-hat flags and clears the snare's "is playing" flag; a bent, locked arm changes nothing; a straight arm clears both hi-hat flags; the snare's played flag is never touched |
| ArmLatch.RightArm | beatles_001.py:86-99 | the mirror image for the right arm and the snare |
| ArmLatch.FrameStep | beatles_001.py:58-99 | one frame as a value: the left-arm block, then the right-arm block on its flags, their sounds in that order; `FrameKeepsCoherent`, `LeftBeforeRight` and `NoPoseNoChange` state its properties |
| ArmLatch.Run | beatles_001.py:41-99 | the frame loop over a sequence of poses; `HihatOncePerBend` and `SnareOncePerBend` state its properties |
| ArmLatch.FrameKeepsCoherent | beatles_001.py:58-99 | every frame keeps the flags coherent: a sounding part has played, and at most one part sounds |
| ArmLatch.NoPoseNoChange | beatles_001.py:58 | a frame without landmarks plays nothing and changes no flag |
| ArmLatch.GateIsPlayedFlag | beatles_001.py:67 | in coherent states each gate opens exactly when its played flag is clear |
| ArmLatch.LeftBeforeRight | beatles_001.py:58-99 | a frame plays nothing, one sound, or the hi-hat then the snare, never the reverse |
| ArmLatch.BentLeftLocks | beatles_001.py:65-72 | with the left arm bent, a frame plays the hi-hat exactly when its gate was open, and leaves it locked |
| ArmLatch.HihatKeepsSnareLocked | beatles_001.py:70-72 | playing the hi-hat clears the snare's "is playing" flag but not its played flag, so a still-bent right arm cannot replay the snare |
| ArmLatch.StraightReArms | beatles_001.py:74-77 | a frame with the left arm straight re-arms the hi-hat: the next bent frame plays it first |
| ArmLatch.HihatOncePerBend | beatles_001.py:65-77 | however many frames the left arm stays bent (frames without landmarks included), the hi-hat plays at most once, and not at all if it was locked; once played it stays locked |
| ArmLatch.SnareOncePerBend | beatles_001.py:87-99 | the same for the right arm and the snare |
| ArmLatch.Drummer.constructor | beatles_001.py:26-31 | all four flags start false, nothing played |
| ArmLatch.Drummer.Frame | beatles_001.py:58-99 | the two arm blocks, in order, update the flags as `FrameStep` and append its sounds to the log |
| ArmLatch.Drummer.RunFrames | beatles_001.py:41-99 | the frame loop over a sequence of poses gives the flags and the sounds of `Run` |

## Left out

- Camera capture, MediaPipe pose and hand detection, image flips and colour conversion, the window, text overlays and the quit key are not modelled. Per frame they only supply pose landmarks and the display.
- Drawing is not modelled: `Ball.draw`, the ring and square overlays, and the hand and foot markers (`beatles_008.py:113-166`).
- Sound playback is a log of the sounds started, in order.
  - `pygame` is not modelled, so channel behaviour is not captured.
  - With `pygame.mixer.music` in `beatles_001.py` and `beatles_002.py`, a new play replaces the clip that is sounding. The log still records every call.
- `time.time()` is a `now` parameter of each frame.
- `random.choice` is a parameter:
  - A sequence of draws for the resampling loop, assumed to eventually hold a moving draw (`Fair`).
  - A pair of signs for the diagonal choice in `beatles_002.py`.
- Floating point:
  - Positions and speeds are exact reals. The model does not capture float rounding.
  - √2 is a parameter `rt2` with `rt2 * rt2 == 2`.
  - `int(math.sqrt(d²))` is replaced by the equivalent comparison of squares (`Geometry.BandIsTruncatedDistance`).
  - In `beatles_002.py` positions are Python integers. Here they are reals that hold integer values.
- Width and height come from the camera, so they are parameters. The screen centre is `(width // 2, height // 2)` as in the scripts.
- `radius` and `thickness` are constants 200 and 50:
  - In the scripts they are assigned inside the frame loop (`beatles_008.py:170-171`), after the band test at line 110 that reads them.
  - `beatles_008.py:138-166` sets `thickness` to 10 while drawing, and line 171 resets it to 50 before the next band test.
  - Not captured: the `NameError` on `radius` that line 110 would raise if the very first poll were already due, so that a ball existed before line 170 had run.
- `calculate_angle` and the landmark lookup (`beatles_001.py:7-13`, `59-62`, `81-84`) are not modelled. Each arm is a flag `bent`, meaning the computed angle is below 90. The model does not capture the geometry of the angle.
- `play_sound` of `beatles_003.py:61-64` has no counterpart in `MoveBall`, because that script never calls it.
- `beatles_006.py` is not part of this model.
- Geometry.LaunchLeavesScreen: requires speed >= 1, which every script's `ball_speed = 3` meets. Below one pixel per frame the bound of width + height frames would not hold.
- RingBall.SilentInSpawnFrame: stated for speeds with 2·speed² < 200², which includes the engine's speed of 3.
- RingBall.RingDistance: stated for the engine's speed only (squared speed 18), not for any speed.
- RingBall.SpawnedBallPlaysOnFrame48: counts plays with culling aside. On a camera frame under 410 pixels, the cull can drop the ball first: a vertical ball at height 360 is culled on frame 43. `RingEngine.SpawnedBallPlaysInEngine` states the engine-level result for frames of at least 410 pixels.
- SquareBall.SpawnedBallPlays66Frames: counts plays with culling aside. On a camera frame under 400 pixels, the cull can drop the ball before frame 66: at height 360 a ball moving down is dropped at the end of frame 60. `SquareEngine.SpawnedBallPlaysInEngine` states the engine-level result for frames of at least 400 pixels.
- SquareBall.SquareOnDiagonal: stated for the engine's speed only (diagonal steps of 3), not for any speed.
