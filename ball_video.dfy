/** src/ball_video.rs: the multiplying balls, capped at 300, with every
    drawn frame captured and sent to a writer, until 30 * 65 frames have
    been recorded. */
module BallVideo {
  import opened Balls
  import opened Spawning
  import opened FrameNames

  /** `MAX_BALLS`. */
  const MaxBalls: nat := 300
  const FramesPerSecond: nat := 30
  /** `RECORD_DURATION as u32`, in seconds. */
  const RecordDuration: nat := 65
  /** The number of frames recorded: `FRAMES_PER_SECOND * RECORD_DURATION`. */
  const FrameLimit: nat := FramesPerSecond * RecordDuration

  const U32Modulus: nat := 0x1_0000_0000

  type byte = x: int | 0 <= x < 256
  type u32 = x: int | 0 <= x < 0x1_0000_0000

  /** A read-back frame: RGBA bytes with the image's dimensions. */
  datatype Screenshot = Screenshot(data: seq<byte>, width: u32, height: u32)

  /** A path `dir.join(file)`. */
  datatype FramePath = FramePath(dir: string, file: string)

  /** A message on the screenshot channel: the pixels and where to write them. */
  datatype Capture = Capture(data: seq<byte>, path: FramePath)

  datatype CaptureError = SizeMismatch(expected: nat, actual: nat)

  datatype Outcome = Pass | Fail(error: CaptureError)

  /** `width * height * 4` computed in `u32`, which wraps around when the
      product does not fit. */
  function ExpectedLen(width: u32, height: u32): (n: u32)
    ensures width * height * 4 < U32Modulus ==> n == width * height * 4
    ensures n == (width * height * 4) % U32Modulus
  {
    var product := width * height * 4;
    if product < U32Modulus then product else product % U32Modulus
  }

  /** The size check of `save_screenshot`. */
  function CheckFrame(shot: Screenshot): (r: Outcome)
    ensures r.Pass? <==> |shot.data| == ExpectedLen(shot.width, shot.height)
    ensures r.Fail? ==> r.error == SizeMismatch(ExpectedLen(shot.width, shot.height), |shot.data|)
  {
    var expected := ExpectedLen(shot.width, shot.height);
    if |shot.data| != expected then Fail(SizeMismatch(expected, |shot.data|)) else Pass
  }

  /** A frame read back from the 1080 by 1920 window is accepted exactly
      when it holds 4 bytes for each of its 2073600 pixels. */
  lemma WindowFrameCheck(data: seq<byte>)
    ensures CheckFrame(Screenshot(data, 1080, 1920)).Pass? <==> |data| == 8294400
  {
    assert 1080 * 1920 * 4 == 8294400;
  }

  /** The messages sent while recording `n` frames: the k-th carries the
      path of frame k in `dir`. */
  ghost predicate Numbered(sent: seq<Capture>, dir: string, n: nat)
  {
    |sent| == n && forall k :: 0 <= k < n ==> sent[k].path == FramePath(dir, FrameFileName(k))
  }

  /** The frames sent during a recording go to pairwise distinct files
      whose names the encoder's `frame_%05d.png` pattern matches. */
  lemma RecordedFramesDistinct(sent: seq<Capture>, dir: string, n: nat)
    requires Numbered(sent, dir, n) && n <= FrameLimit
    ensures forall j, k :: 0 <= j < k < n ==> sent[j].path != sent[k].path
    ensures forall k :: 0 <= k < n ==> MatchesPattern(sent[k].path.file)
  {
    forall j, k | 0 <= j < k < n ensures sent[j].path != sent[k].path {
      FrameFileNamesDistinct(j, k);
    }
    forall k | 0 <= k < n ensures MatchesPattern(sent[k].path.file) {
      FrameFileNamesDistinct(k, k);
    }
  }

  class MainState {
    var balls: seq<Ball>
    var frameCount: nat
    var recording: bool
    /** Everything sent on the screenshot channel so far, oldest first. */
    var sent: seq<Capture>
    const tempDir: string

    /** What every frame keeps: the ball list as in the other program, and
        the recorder's state: `recording` until `frameCount` reaches the
        limit, one message sent per frame counted, numbered in order. */
    ghost predicate Valid()
      reads this, set b | b in balls
    {
      && Population(balls, MaxBalls)
      && frameCount <= FrameLimit
      && (recording <==> frameCount < FrameLimit)
      && Numbered(sent, tempDir, frameCount)
    }

    /** `MainState::new`, with `tempDir` the `temp_frames` directory under
        the current directory, created at time `now`. */
    constructor (tempDir: string, now: real)
      ensures Valid()
      ensures States(balls) == [Seed(now)]
      ensures this.tempDir == tempDir
      ensures frameCount == 0 && recording && sent == []
    {
      var seed := new Ball(ScreenWidth / 2.0, ScreenHeight / 2.0, 5.0, 7.0, White, now);
      balls := [seed];
      frameCount, recording, sent := 0, true, [];
      this.tempDir := tempDir;
    }

    /** `save_screenshot`: a frame of the wrong size is rejected and
        nothing is sent; otherwise exactly one message is sent. */
    method SaveScreenshot(shot: Screenshot, path: FramePath) returns (r: Outcome)
      modifies this`sent
      ensures r == CheckFrame(shot)
      ensures sent == if r.Pass? then old(sent) + [Capture(shot.data, path)] else old(sent)
    {
      var expected := ExpectedLen(shot.width, shot.height);
      if |shot.data| != expected {
        return Fail(SizeMismatch(expected, |shot.data|));
      }
      sent := sent + [Capture(shot.data, path)];
      r := Pass;
    }

    /** The recording part of `draw`, `shot` being what the screen reads
        back. A failed capture returns before the frame is counted. */
    method Draw(shot: Screenshot) returns (r: Outcome)
      requires Valid()
      modifies this`frameCount, this`recording, this`sent
      ensures Valid()
      ensures !old(recording) ==>
        r == Pass && frameCount == old(frameCount) && !recording && sent == old(sent)
      ensures old(recording) ==> r == CheckFrame(shot)
      ensures old(recording) && r.Fail? ==>
        frameCount == old(frameCount) && recording && sent == old(sent)
      ensures old(recording) && r.Pass? ==>
        && frameCount == old(frameCount) + 1
        && sent == old(sent) + [Capture(shot.data, FramePath(tempDir, FrameFileName(old(frameCount))))]
        && (recording <==> frameCount < FrameLimit)
    {
      r := Pass;
      if recording {
        var filename := FramePath(tempDir, FrameFileName(frameCount));
        r := SaveScreenshot(shot, filename);
        if r.Fail? {
          return;
        }
        frameCount := frameCount + 1;
        if frameCount >= FrameLimit {
          recording := false;
        }
      }
    }

    /** `MainState::update`, as in src/multiplying_balls.rs with the cap
        300; the recorder's state is untouched. */
    method Update(now: real, draws: nat -> Offspring)
      requires Valid()
      modifies this`balls, set b | b in balls
      ensures Valid()
      ensures old(|balls|) <= |balls| && balls[..old(|balls|)] == old(balls)
      ensures States(balls) == Tick(old(States(balls)), MaxBalls, now, draws)
    {
      balls := Step(balls, MaxBalls, now, draws);
    }
  }
}
