/**
 * The `FlappyBirdGame` object of bird.py: its fields, updated in place by
 * one method per step of a frame, and the frame loop of `main_loop`.
 * Each method is proved to leave the state that the corresponding
 * BirdRules function computes from the old state.
 */
module BirdGame {
  import opened BirdRules

  class FlappyBirdGame {
    /** The terminal size. The source reads it from the terminal at every
      * use; here it is fixed when the game starts. */
    const height: int
    const width: int
    const birdX: int
    var birdY: int
    var birdVelocity: int
    var pipes: seq<Pipe>
    var score: nat
    var gameOver: bool

    /** The fields that change, as one value. */
    function State(): Snapshot
      reads this
    {
      Snapshot(birdY, birdVelocity, pipes, score, gameOver)
    }

    ghost predicate Valid()
      reads this
    {
      birdX == BIRD_X && Inv(State(), height, width)
    }

    /** `__init__`, with the terminal size and the first random gap start
      * supplied by the caller. */
    constructor (height: int, width: int, gapStart: int)
      requires ValidGap(height, gapStart)
      ensures Valid()
      ensures this.height == height && this.width == width && birdX == BIRD_X
      ensures State() == Start(height, width, gapStart)
    {
      this.height := height;
      this.width := width;
      birdY := (height - 1) / 2;
      birdX := BIRD_X;
      birdVelocity := 0;
      pipes := [CreatePipe(width, height, gapStart)];
      score := 0;
      gameOver := false;
    }

    /** The velocity rule of the manual and the automatic mode. */
    method ApplyVelocity(jump: bool)
      modifies this`birdVelocity
      ensures State() == Accelerate(old(State()), jump)
      ensures old(Valid()) ==> Valid()
    {
      birdVelocity := if jump then BIRD_JUMP_VELOCITY else birdVelocity + GRAVITY;
    }

    /** The autopilot's search for the first pipe ahead of the bird. */
    method AutopilotJump() returns (jump: bool)
      ensures jump == AutoJump(pipes, birdX, birdY)
      ensures jump ==> exists i :: 0 <= i < |pipes| && pipes[i].x > birdX
    {
      var i := 0;
      while i < |pipes|
        invariant 0 <= i <= |pipes|
        invariant forall j :: 0 <= j < i ==> pipes[j].x <= birdX
      {
        if pipes[i].x > birdX {
          assert FirstAhead(pipes, birdX) == Some(i);
          jump := birdY >= pipes[i].gapStart + GAP / 2;
          return;
        }
        i := i + 1;
      }
      jump := false;
    }

    method UpdateBirdPosition()
      requires Playable(height)
      modifies this`birdY, this`gameOver
      ensures State() == Fly(old(State()), height)
      ensures old(Valid()) ==> Valid()
    {
      birdY := birdY + birdVelocity;
      if birdY < 0 {
        birdY := 0;
      } else if birdY >= height - 1 {
        gameOver := true;
      }
    }

    /** The spawn step of the frame loop. */
    method SpawnPipeIfNeeded(gapStart: int)
      requires ValidGap(height, gapStart)
      modifies this`pipes
      ensures State() == Spawn(old(State()), width, height, gapStart)
      ensures old(Valid()) ==> Valid()
    {
      if Valid() {
        SpawnSpaced(State(), width, height, gapStart);
      }
      if |pipes| == 0 || pipes[|pipes| - 1].x < width - PIPE_DISTANCE {
        pipes := pipes + [CreatePipe(width, height, gapStart)];
      }
    }

    method UpdatePipes()
      modifies this`pipes, this`score
      ensures State() == Scroll(old(State()), birdX)
      ensures old(Valid()) ==> Valid()
    {
      var ps := pipes;
      var newPipes := [];
      var i := 0;
      while i < |ps|
        invariant 0 <= i <= |ps|
        invariant newPipes == Scrolled(ps[..i])
        invariant score == old(score) + PassCount(ps[..i], birdX)
      {
        var p := ps[i];
        assert ps[..i + 1] == ps[..i] + [p];
        ScrolledAppend(ps[..i], [p]);
        PassCountAppend(ps[..i], [p], birdX);
        assert [p][1..] == [];
        if p.x > 0 {
          newPipes := newPipes + [Pipe(p.x - 1, p.gapStart)];
          if p.x == birdX {
            score := score + 1;
          }
        }
        i := i + 1;
      }
      assert ps[..i] == ps;
      if old(Valid()) {
        ScrolledSpaced(ps, width);
        ScrolledGaps(ps, height);
      }
      pipes := newPipes;
    }

    method CheckCollision()
      modifies this`gameOver
      ensures State() == Collide(old(State()), birdX)
      ensures old(Valid()) ==> Valid()
    {
      var i := 0;
      while i < |pipes|
        invariant 0 <= i <= |pipes|
        invariant gameOver <==> old(gameOver) || exists j :: 0 <= j < i && Hits(pipes[j], birdX, birdY)
      {
        var p := pipes[i];
        if p.x == birdX && (birdY < p.gapStart || birdY >= p.gapStart + GAP) {
          gameOver := true;
        }
        i := i + 1;
      }
    }

    /** One iteration of the frame loop, drawing and sleeping left out. */
    method Tick(auto: bool, f: Frame)
      requires Valid() && ValidGap(height, f.gapStart)
      modifies this`birdY, this`birdVelocity, this`pipes, this`score, this`gameOver
      ensures Valid()
      ensures State() == Step(old(State()), height, width, birdX, auto, f)
    {
      var jump := f.key;
      if auto {
        jump := AutopilotJump();
      }
      ApplyVelocity(jump);
      UpdateBirdPosition();
      SpawnPipeIfNeeded(f.gapStart);
      UpdatePipes();
      CheckCollision();
    }

    /** `main_loop`: plays the supplied frames until the game is over or the
      * frames run out, and returns how many frames were played. */
    method MainLoop(auto: bool, frames: seq<Frame>) returns (played: nat)
      requires Valid() && ValidFrames(height, frames)
      modifies this`birdY, this`birdVelocity, this`pipes, this`score, this`gameOver
      ensures Valid()
      ensures State() == Run(old(State()), height, width, birdX, auto, frames)
      ensures played <= |frames|
      ensures ValidFrames(height, frames[..played])
      ensures State() == Run(old(State()), height, width, birdX, auto, frames[..played])
      ensures gameOver || played == |frames|
      ensures played > 0 ==> ValidFrames(height, frames[..played - 1]) &&
                             !Run(old(State()), height, width, birdX, auto, frames[..played - 1]).gameOver
    {
      ghost var start := State();
      played := 0;
      while !gameOver && played < |frames|
        invariant 0 <= played <= |frames|
        invariant Valid()
        invariant ValidFrames(height, frames[..played])
        invariant State() == Run(start, height, width, birdX, auto, frames[..played])
        invariant played > 0 ==> ValidFrames(height, frames[..played - 1]) &&
                                 !Run(start, height, width, birdX, auto, frames[..played - 1]).gameOver
        decreases |frames| - played
      {
        RunNext(start, height, width, birdX, auto, frames, played);
        Tick(auto, frames[played]);
        played := played + 1;
      }
      RunPrefix(start, height, width, birdX, auto, frames, played);
    }
  }
}
