# Bouncing balls

This project models three small ggez demos written in Rust:

- `src/main.rs` is one white ball on a 1920 by 1080 screen. Each frame the ball moves by its velocity. A velocity component is reversed when the new position is at a wall. The position is never clamped.
- `src/multiplying_balls.rs` is a population of balls on a 1080 by 1920 screen. A ball that touches a wall flips that velocity component and is clamped back inside. A ball that hit a wall, and last multiplied more than one second ago, spawns a child at its own position, as long as the balls on the list plus this frame's pending children are below the cap `MAX_BALLS = 1750`. A spawn can therefore bring the population up to the cap itself. The children are kept separately during the pass over the list and appended at its end.
- `src/ball_video.rs` has the same balls, capped at 300. It also records every drawn frame:
  - the frame is read back and checked for size (`width * height * 4` as `u32`);
  - it is sent, together with its path `temp_frames/frame_NNNNN.png`, to a writer;
  - recording stops after `30 * 65` frames.

The models are in these modules:

- `Balls` (balls.dfy) holds the ball shared by the two multiplying programs. It is a `class Ball` whose `Update` is proved against the pure step `Advance`.
- `Spawning` (spawning.dfy) holds one frame of `MainState::update`:
  - `Scan` specifies the pass over the list, one ball at a time. It threads the list of pending children the way the Rust loop does.
  - `Tick` specifies the list after the children are appended.
  - `ScanAndSpawn`, `NewBalls` and `Step` are the imperative code, proved against `Scan` and `Tick`.
  - The cap is a parameter: 1750 in one program, 300 in the other.
- `MultiplyingBalls` (multiplying_balls.dfy) and `BallVideo` (ball_video.dfy) hold the two `MainState` classes. The recording state of `BallVideo` is `frameCount`, `recording`, and the sequence `sent` of messages put on the channel.
- `FrameNames` (frame_names.dfy) holds the frame file names `frame_{:05}.png` and reads them back.
- `BouncingBall` (bouncing_ball.dfy) holds the ball of `src/main.rs`.

Values from outside the program are parameters:

- `now: real` is the time, in seconds, at which a frame's update runs.
- `draws: nat -> Offspring` gives the velocity and colour of the k-th child spawned in that frame. It stands for the random number generator.
- `shot: Screenshot` is what `graphics::screenshot` and `to_rgba8` return.

## Model

| member | source | states |
|---|---|---|
| Balls.Clamp | src/ball_video.rs:47 | `max(lo).min(hi)` lies in `[lo, hi]`: it is the value itself when inside, `lo` below, `hi` above |
| Balls.Advance | src/ball_video.rs:41-57 | after a frame the ball is inside the inner rectangle. The flag is true exactly when either axis touched a wall. A component is reversed exactly on a hit. A position without a hit is the old one plus the velocity. One that overshot a wall lands exactly at that wall. Colour and spawn time are unchanged |
| Balls.BounceLeavesWall | src/ball_video.rs:45-48 | a ball inside the screen that has just been reflected at an x wall, moving slower than the room between the walls, does not hit an x wall on the next frame |
| Balls.SeedHorizontalMotion | src/ball_video.rs:70 | the seed ball (centre, velocity (5, 7)) moves on x as an exact reflection: after n frames `x = 20 + 5 * zigzag((104 + n) mod 416)`, with `vx = 5` while the phase runs towards the right wall and `-5` on the way back |
| Balls.Ball.constructor | src/ball_video.rs:32-39 | a new ball has the given position, velocity and colour, and last multiplied at the time it was made |
| Balls.Ball.Update | src/ball_video.rs:41-57 | the ball's new state and the returned flag are `Advance` of its old state, so it stays inside the screen |
| Spawning.Elapsed | src/ball_video.rs:109 | `elapsed()` is never negative; it exceeds the cooldown exactly when `now - since` does |
| Spawning.Scan | src/multiplying_balls.rs:67-76 | there is one visited ball per ball, in order: ball j's `Advance`, with its timestamp either kept or reset to `now`. There are no more children than balls, all of them inside the screen, stamped `now`, the k-th taking `draws(k)`. With fewer balls than the cap, the balls plus the children never exceed the cap. At or above the cap, no child is born. Each ball's spawn condition is in `ScanAt` |
| Spawning.Tick | src/multiplying_balls.rs:63-80 | the list grows to at most twice its size and never past the cap, unless it was already at the cap, in which case it keeps its size. Every ball is inside the screen. Every appended ball is stamped `now` |
| Spawning.ScanPrefix | src/multiplying_balls.rs:68-76 | the loop's state after the first j balls is a prefix of its final state: the visited balls are the first j, and the children so far are a prefix of all children |
| Spawning.ScanAt | src/multiplying_balls.rs:69-74 | ball j spawns exactly when it hit, its cooldown has passed, and `num_balls` plus the children so far is below the cap. It then adds exactly one child, `Child(ball j, draws(k))`, at index k = the children before it, and its own spawn time is `now`. Otherwise it adds none |
| Spawning.ChildrenInParentOrder | src/multiplying_balls.rs:73-78 | children are appended in the order of their parents: an earlier ball has never seen more children than a later one |
| Spawning.TickKeepsPrefix | src/multiplying_balls.rs:78 | after the update the old balls come first, each being its advanced self, possibly with spawn time `now`; the children follow |
| Spawning.CooldownGate | src/multiplying_balls.rs:69-74 | a ball's spawn time changes only if it hit a wall and more than one second had passed; a ball that did not hit, or is still cooling down, is just advanced |
| Spawning.VisitBall | src/multiplying_balls.rs:69-75 | one loop iteration on the heap ball performs one step of `Scan`: the ball becomes the visited state, and a child value is returned exactly when one is due |
| Spawning.ScanAndSpawn | src/multiplying_balls.rs:67-76 | the loop over `&mut self.balls` leaves the i-th ball in the i-th visited state of `Scan` and returns `Scan`'s children |
| Spawning.NewBalls | src/multiplying_balls.rs:73 | each child value becomes a fresh, distinct `Ball` with that state |
| Spawning.Step | src/multiplying_balls.rs:63-80 | a whole update keeps the population invariant (distinct balls, not empty, within the cap, all inside the screen). The old ball objects stay as a prefix. The new states are `Tick` of the old ones |
| Spawning.AdvanceIgnoresStamp | src/multiplying_balls.rs:32-48 | a ball's timestamp plays no part in how it moves or whether it hits |
| Spawning.FirstBallFollowsRun | src/multiplying_balls.rs:63-80 | over any number of updates, with any times and draws, the first ball of the list moves exactly as a lone ball under `Run`; only its timestamp can differ |
| Spawning.SeedBallZigzags | src/multiplying_balls.rs:57-80 | in the running program the seed ball, first on the list, has after n updates the x position and x velocity of the exact reflection of `SeedHorizontalMotion` |
| MultiplyingBalls.MainState.constructor | src/multiplying_balls.rs:56-59 | the state starts with the single white seed ball at the centre with velocity (5, 7) |
| MultiplyingBalls.MainState.Update | src/multiplying_balls.rs:63-80 | `update` with the cap 1750 keeps the invariant and makes the list `Tick` of the old one, old balls first |
| FrameNames.Pad5RoundTrip | src/ball_video.rs:141 | `{:05}` of n reads back as n and is all digits. It is exactly five characters wide precisely when n < 100000 |
| FrameNames.FrameFileNameRoundTrip | src/ball_video.rs:141 | parsing the file name of frame n gives back n |
| FrameNames.FrameFileNamesDistinct | src/ball_video.rs:141-163 | different frames get different file names, and below 100000 the names match `frame_%05d.png` |
| BallVideo.ExpectedLen | src/ball_video.rs:80-87 | `width * height * 4` in `u32`: the product modulo 2^32 in every case, hence the true product when it fits |
| BallVideo.CheckFrame | src/ball_video.rs:87-90 | a frame passes exactly when its byte count equals the expected size; otherwise it fails with the size mismatch, carrying the expected and actual sizes |
| BallVideo.WindowFrameCheck | src/ball_video.rs:80-87 | a frame of the 1080 by 1920 window passes exactly when it holds 8294400 bytes |
| BallVideo.RecordedFramesDistinct | src/ball_video.rs:140-163 | the frames sent during one recording go to pairwise different files, each matching the encoder's input pattern |
| BallVideo.MainState.constructor | src/ball_video.rs:69-76 | the state starts with the seed ball, frame count 0, recording on, nothing sent |
| BallVideo.MainState.SaveScreenshot | src/ball_video.rs:78-99 | the result is `CheckFrame` of the screenshot. Exactly one message (the pixels and the path) is sent on success, none on failure |
| BallVideo.MainState.Draw | src/ball_video.rs:140-151 | when not recording, nothing changes. When recording, a failed capture changes nothing and is returned. A good one sends the frame to `frame_{:05}.png` of the current count and increments the count; recording stays on exactly while the count is below 30 * 65. The recorder invariant holds before and after |
| BallVideo.MainState.Update | src/ball_video.rs:103-120 | `update` with the cap 300 keeps the invariant and makes the list `Tick` of the old one |
| BouncingBall.Step | src/main.rs:25-34 | the position moves by the velocity, unclamped; each component is reversed exactly when the new position is at that axis's wall; speeds are preserved |
| BouncingBall.StepKeepsNearWalls | src/main.rs:25-34 | a ball less than one frame's movement past any wall, and moving away from any wall it is at, still is after a frame |
| BouncingBall.AxisStep | src/main.rs:28-30 | the same for a single axis |
| BouncingBall.StaysNearWalls | src/main.rs:25-34 | from such a ball, for every number of frames, the speeds are unchanged and the position never leaves the screen by a whole frame's movement |
| BouncingBall.Ball.constructor | src/main.rs:18-23 | a new ball has the given position and velocity |
| BouncingBall.Ball.Update | src/main.rs:25-34 | the heap ball's new state is `Step` of its old one |
| BouncingBall.MainState.constructor | src/main.rs:54-57 | the ball starts at (960, 540) with velocity (5, 7), near the walls |
| BouncingBall.MainState.Update | src/main.rs:61-64 | one frame is `Step`, and the ball stays near the walls |

## Left out

- The `draw` code shared by all three programs is left out (clearing, `MeshBuilder`, `present`, `timer::yield_now`). It has no state the model tracks.
- Screen read-back (`graphics::screenshot`, `to_rgba8`) is not modelled; its result is the `shot` parameter. Errors from the read-back itself are not modelled.
- The SHA-256 checksums and every `println!` are left out. They only print.
- The writer thread is left out: `ImageBuffer::from_raw` with the fixed size 1080 by 1920, and `image.save`. The channel is modelled as the sequence `sent` of messages put on it. A send never fails in the model; in the source the receiver is never dropped.
- The end of the recording is left out: `create_dir_all`, the `ffmpeg` command and `remove_dir_all`. These are file system and process I/O. The model only proves that the frame names match the encoder's input pattern.
- `main` and the context builders are left out. They are window setup.
- Random draws are left out: colour and angle come from `draws`. The model does not prove that a child's speed is 5 (`cos` and `sin` are not modelled).
- The `Offspring` values allow any velocity and any colour. The source draws r, g and b at random, with alpha always 1.0, and the speed is always 5. Nothing in the model depends on these values.
- Coordinates and times are `real`, not `f32`, so rounding is not modelled.
- One `now` is used for a whole update. The source calls `Instant::now()` separately for each `elapsed()` and each new or re-stamped ball.
- BallVideo.CheckFrame: the error `SizeMismatch(expected, actual)` carries the two sizes. The source returns the fixed `RenderError("Image data size mismatch")` and only prints the two sizes.
- BallVideo.ExpectedLen: models the release-build wrap-around of `width * height * 4`. A debug build would panic on overflow instead.
- The path `temp_dir.join(name)` is the pair `FramePath(dir, file)`. `current_dir`, and whether the directory exists, are left out.
- An error from `save_screenshot` returns from `draw` before the frame is counted, as in the source. What the event loop then does with the error is not modelled.
- Spawning.ScanAndSpawn: builds the children as state values during the pass and allocates their `Ball` objects only when they are appended. In the source, each child object is made during the pass. No other code can see it before the append, so the result is the same.
- Balls.SeedHorizontalMotion: states exact reflection only for x. On y the clamp drops the overshoot: the seed ball reaches y = 1905 and is put back to 1900. From then on, the y motion is no longer the exact reflection of the unclamped path.
- The 1750-ball and 300-ball variants share one `Ball` and one `Step`, with the cap as a parameter; the two sources are identical apart from the constant.
