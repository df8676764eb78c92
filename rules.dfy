/**
 * The rules of one frame of the terminal Flappy Bird game, as values.
 *
 * Each step of the frame loop of `FlappyBirdGame` (bird.py) is a function
 * from one `Snapshot` of the game state to the next; the class in
 * game.dfy is proved against these functions. Rows grow downwards: row 0
 * is the top of the terminal, and a negative velocity moves the bird up.
 */
module BirdRules {

  const GAP := 8
  const GRAVITY := 1
  const BIRD_JUMP_VELOCITY := -2
  const PIPE_DISTANCE := 30
  /** The bird's fixed column. */
  const BIRD_X := 5

  datatype Option<T> = None | Some(value: T)

  /** A pipe: its column and the first row of its gap of GAP rows. */
  datatype Pipe = Pipe(x: int, gapStart: int)

  /** The mutable state of a game. */
  datatype Snapshot = Snapshot(
    birdY: int,
    velocity: int,
    pipes: seq<Pipe>,
    score: nat,
    gameOver: bool)

  /** What the driver supplies for one frame: whether the jump key was
    * pressed, and the random draw used if a pipe is created. */
  datatype Frame = Frame(key: bool, gapStart: int)

  /** The random range of `create_pipe` is non-empty only on terminals of
    * at least this height; on smaller ones the game cannot start. */
  predicate Playable(height: int) {
    height >= GAP + 3
  }

  predicate ValidGap(height: int, gapStart: int) {
    1 <= gapStart <= height - GAP - 2
  }

  predicate ValidFrames(height: int, frames: seq<Frame>) {
    forall i :: 0 <= i < |frames| ==> ValidGap(height, frames[i].gapStart)
  }

  // ---------------------------------------------------------------------
  // Creating pipes and the initial state

  /** A new pipe at the right edge, with the gap start drawn by the caller. */
  function CreatePipe(width: int, height: int, gapStart: int): (p: Pipe)
    requires ValidGap(height, gapStart)
    ensures p.x == width && p.gapStart == gapStart
    ensures 1 <= p.gapStart && p.gapStart + GAP <= height - 2
    ensures Playable(height)
  {
    Pipe(width, gapStart)
  }

  /** Pipes at most `width`, each more than PIPE_DISTANCE columns left of
    * the next one in the list. */
  ghost predicate Spaced(ps: seq<Pipe>, width: int) {
    (forall i :: 0 <= i < |ps| ==> ps[i].x <= width) &&
    (forall i, j :: 0 <= i && j == i + 1 && j < |ps| ==> ps[i].x + PIPE_DISTANCE < ps[j].x)
  }

  /** Every gap lies strictly inside the play area. */
  ghost predicate GapsInside(ps: seq<Pipe>, height: int) {
    forall i :: 0 <= i < |ps| ==> 1 <= ps[i].gapStart && ps[i].gapStart + GAP <= height - 2
  }

  /** The invariant every frame keeps. */
  ghost predicate Inv(s: Snapshot, height: int, width: int) {
    Playable(height) && s.birdY >= 0 && Spaced(s.pipes, width) && GapsInside(s.pipes, height)
  }

  /** The state `__init__` builds. */
  function Start(height: int, width: int, gapStart: int): (s: Snapshot)
    requires ValidGap(height, gapStart)
    ensures Inv(s, height, width)
    ensures s.birdY == (height - 1) / 2 && s.velocity == 0
    ensures |s.pipes| == 1 && s.pipes[0].x == width && s.pipes[0].gapStart == gapStart
    ensures s.score == 0 && !s.gameOver
  {
    Snapshot((height - 1) / 2, 0, [CreatePipe(width, height, gapStart)], 0, false)
  }

  // ---------------------------------------------------------------------
  // Step 1: the velocity rule

  /** A jump sets the velocity to BIRD_JUMP_VELOCITY whatever it was;
    * otherwise gravity is added. */
  function Accelerate(s: Snapshot, jump: bool): (r: Snapshot)
    ensures jump ==> r.velocity == BIRD_JUMP_VELOCITY
    ensures !jump ==> r.velocity == s.velocity + GRAVITY
    ensures r.(velocity := s.velocity) == s
  {
    s.(velocity := if jump then BIRD_JUMP_VELOCITY else s.velocity + GRAVITY)
  }

  /** The first pipe in list order strictly right of column `bx`. */
  function FirstAhead(ps: seq<Pipe>, bx: int): (r: Option<nat>)
    ensures r.Some? ==> r.value < |ps| && ps[r.value].x > bx
    ensures r.Some? ==> forall j :: 0 <= j < r.value ==> ps[j].x <= bx
    ensures r.None? ==> forall j :: 0 <= j < |ps| ==> ps[j].x <= bx
  {
    if ps == [] then None
    else if ps[0].x > bx then Some(0)
    else match FirstAhead(ps[1..], bx)
      case None => None
      case Some(i) => Some(i + 1)
  }

  /** The autopilot jumps when the bird is at or below the centre of the
    * gap of the first pipe ahead, and never when no pipe is ahead. */
  predicate AutoJump(ps: seq<Pipe>, bx: int, row: int) {
    match FirstAhead(ps, bx)
    case None => false
    case Some(i) => row >= ps[i].gapStart + GAP / 2
  }

  // ---------------------------------------------------------------------
  // Step 2: `update_bird_position`

  /** The bird moves by its velocity; above the top it is put back on row 0,
    * and reaching row height - 1 ends the game (the row is kept). */
  function Fly(s: Snapshot, height: int): (r: Snapshot)
    requires Playable(height)
    ensures r.birdY >= 0
    ensures r.birdY == s.birdY + s.velocity || (s.birdY + s.velocity < 0 && r.birdY == 0)
    ensures r.gameOver <==> s.gameOver || r.birdY >= height - 1
    ensures r.(birdY := s.birdY, gameOver := s.gameOver) == s
  {
    var y := s.birdY + s.velocity;
    if y < 0 then s.(birdY := 0)
    else if y >= height - 1 then s.(birdY := y, gameOver := true)
    else s.(birdY := y)
  }

  // ---------------------------------------------------------------------
  // Step 3: spawning

  predicate NeedsPipe(ps: seq<Pipe>, width: int) {
    |ps| == 0 || ps[|ps| - 1].x < width - PIPE_DISTANCE
  }

  /** Appends one new pipe when the list is empty or its last pipe has moved
    * far enough left; otherwise nothing changes. */
  function Spawn(s: Snapshot, width: int, height: int, gapStart: int): (r: Snapshot)
    requires ValidGap(height, gapStart)
    ensures NeedsPipe(s.pipes, width) ==> r.pipes == s.pipes + [Pipe(width, gapStart)]
    ensures !NeedsPipe(s.pipes, width) ==> r.pipes == s.pipes
    ensures r.(pipes := s.pipes) == s
  {
    if NeedsPipe(s.pipes, width) then s.(pipes := s.pipes + [CreatePipe(width, height, gapStart)])
    else s
  }

  // ---------------------------------------------------------------------
  // Step 4: `update_pipes`

  /** A pipe one column further left. */
  function Advanced(p: Pipe): Pipe {
    Pipe(p.x - 1, p.gapStart)
  }

  /** The pipes still on screen (x > 0), each moved one column left. */
  function Scrolled(ps: seq<Pipe>): (r: seq<Pipe>)
    ensures |r| <= |ps|
  {
    if ps == [] then []
    else (if ps[0].x > 0 then [Advanced(ps[0])] else []) + Scrolled(ps[1..])
  }

  /** The number of on-screen pipes at column `bx`. */
  function PassCount(ps: seq<Pipe>, bx: int): (n: nat)
    ensures n <= |ps|
  {
    if ps == [] then 0
    else (if ps[0].x > 0 && ps[0].x == bx then 1 else 0) + PassCount(ps[1..], bx)
  }

  /** Scrolls the pipes and scores one point per pipe at the bird's column. */
  function Scroll(s: Snapshot, bx: int): (r: Snapshot)
    ensures r.pipes == Scrolled(s.pipes) && |r.pipes| <= |s.pipes|
    ensures r.score == s.score + PassCount(s.pipes, bx) && r.score >= s.score
    ensures r.(pipes := s.pipes, score := s.score) == s
  {
    s.(pipes := Scrolled(s.pipes), score := s.score + PassCount(s.pipes, bx))
  }

  // ---------------------------------------------------------------------
  // Step 5: `check_collision`

  /** The bird at (`bx`, `row`) is in the column of `p` but not in its gap. */
  predicate Hits(p: Pipe, bx: int, row: int) {
    p.x == bx && (row < p.gapStart || row >= p.gapStart + GAP)
  }

  predicate Collides(ps: seq<Pipe>, bx: int, row: int) {
    exists i :: 0 <= i < |ps| && Hits(ps[i], bx, row)
  }

  /** Ends the game when some pipe hits the bird; never clears the flag. */
  function Collide(s: Snapshot, bx: int): (r: Snapshot)
    ensures r.gameOver <==> s.gameOver || Collides(s.pipes, bx, s.birdY)
    ensures r.(gameOver := s.gameOver) == s
  {
    if Collides(s.pipes, bx, s.birdY) then s.(gameOver := true) else s
  }

  // ---------------------------------------------------------------------
  // A whole frame, and a run of frames

  /** The jump decision of one frame: the autopilot's, or the key's. */
  predicate Jump(s: Snapshot, bx: int, auto: bool, key: bool) {
    if auto then AutoJump(s.pipes, bx, s.birdY) else key
  }

  /** One iteration of the frame loop, in the order of `main_loop`. */
  function Step(s: Snapshot, height: int, width: int, bx: int, auto: bool, f: Frame): (r: Snapshot)
    requires ValidGap(height, f.gapStart)
    ensures r.birdY >= 0
    ensures r.score >= s.score
    ensures s.gameOver ==> r.gameOver
    ensures r.velocity == if Jump(s, bx, auto, f.key) then BIRD_JUMP_VELOCITY else s.velocity + GRAVITY
  {
    var moved := Fly(Accelerate(s, Jump(s, bx, auto, f.key)), height);
    Collide(Scroll(Spawn(moved, width, height, f.gapStart), bx), bx)
  }

  /** The frame loop: runs frames until the game is over or the frames run out. */
  function Run(s: Snapshot, height: int, width: int, bx: int, auto: bool, frames: seq<Frame>): (r: Snapshot)
    requires ValidFrames(height, frames)
    ensures r.score >= s.score
    ensures s.gameOver ==> r == s
    decreases |frames|
  {
    if s.gameOver || frames == [] then s
    else Run(Step(s, height, width, bx, auto, frames[0]), height, width, bx, auto, frames[1..])
  }

  // ---------------------------------------------------------------------
  // Lemmas

  /** Adjacent spacing makes the columns strictly increasing along the list. */
  lemma {:induction false} SpacedIncreasing(ps: seq<Pipe>, width: int)
    requires Spaced(ps, width)
    ensures forall i, j :: 0 <= i < j < |ps| ==> ps[i].x < ps[j].x
  {
    if |ps| > 1 {
      var tail := ps[1..];
      assert Spaced(tail, width) by {
        forall i, j | 0 <= i && j == i + 1 && j < |tail|
          ensures tail[i].x + PIPE_DISTANCE < tail[j].x
        {
          assert tail[i] == ps[i + 1] && tail[j] == ps[j + 1];
        }
      }
      SpacedIncreasing(tail, width);
      forall i, j | 0 <= i < j < |ps| ensures ps[i].x < ps[j].x {
        if i == 0 {
          assert ps[0].x < ps[1].x;
          if j > 1 { assert tail[0].x < tail[j - 1].x; }
        } else {
          assert tail[i - 1].x < tail[j - 1].x;
        }
      }
    }
  }

  /** Scrolling distributes over concatenation: it keeps the order of the
    * pipes it keeps. */
  lemma {:induction false} ScrolledAppend(a: seq<Pipe>, b: seq<Pipe>)
    ensures Scrolled(a + b) == Scrolled(a) + Scrolled(b)
  {
    if a == [] {
      assert a + b == b;
    } else {
      assert (a + b)[1..] == a[1..] + b;
      ScrolledAppend(a[1..], b);
    }
  }

  /** Together with `ScrolledAppend`, this determines `Scrolled`: a pipe on
    * screen is moved one column left, any other pipe is dropped. */
  lemma ScrolledSingle(p: Pipe)
    ensures p.x > 0 ==> Scrolled([p]) == [Pipe(p.x - 1, p.gapStart)]
    ensures p.x <= 0 ==> Scrolled([p]) == []
  {
  }

  /** The pipes after scrolling are exactly the moved on-screen ones. */
  lemma {:induction false} ScrolledMembers(ps: seq<Pipe>, p: Pipe)
    ensures p in Scrolled(ps) <==> exists q :: q in ps && q.x > 0 && p == Advanced(q)
  {
    if ps != [] {
      ScrolledMembers(ps[1..], p);
      assert ps == [ps[0]] + ps[1..];
      forall q | q in ps[1..] ensures q in ps { }
    }
  }

  /** When every pipe is on screen, scrolling moves each one, in place. */
  lemma {:induction false} ScrolledOnScreen(ps: seq<Pipe>)
    requires forall i :: 0 <= i < |ps| ==> ps[i].x > 0
    ensures |Scrolled(ps)| == |ps|
    ensures forall i :: 0 <= i < |ps| ==> Scrolled(ps)[i] == Advanced(ps[i])
  {
    if ps != [] {
      ScrolledOnScreen(ps[1..]);
    }
  }

  /** Scrolling keeps the spacing and moves the bound one column left. */
  lemma {:induction false} ScrolledSpaced(ps: seq<Pipe>, width: int)
    requires Spaced(ps, width)
    ensures Spaced(Scrolled(ps), width - 1)
  {
    if ps != [] {
      SpacedIncreasing(ps, width);
      if ps[0].x > 0 {
        ScrolledOnScreen(ps);
      } else {
        var tail := ps[1..];
        assert Spaced(tail, width) by {
          forall i, j | 0 <= i && j == i + 1 && j < |tail|
            ensures tail[i].x + PIPE_DISTANCE < tail[j].x
          {
            assert tail[i] == ps[i + 1] && tail[j] == ps[j + 1];
          }
        }
        ScrolledSpaced(tail, width);
      }
    }
  }

  /** Scrolling keeps every gap. */
  lemma {:induction false} ScrolledGaps(ps: seq<Pipe>, height: int)
    requires GapsInside(ps, height)
    ensures GapsInside(Scrolled(ps), height)
  {
    if ps != [] {
      assert GapsInside(ps[1..], height) by {
        forall i | 0 <= i < |ps[1..]| ensures 1 <= ps[1..][i].gapStart {
          assert ps[1..][i] == ps[i + 1];
        }
      }
      ScrolledGaps(ps[1..], height);
    }
  }

  lemma {:induction false} PassCountAppend(a: seq<Pipe>, b: seq<Pipe>, bx: int)
    ensures PassCount(a + b, bx) == PassCount(a, bx) + PassCount(b, bx)
  {
    if a == [] {
      assert a + b == b;
    } else {
      assert (a + b)[1..] == a[1..] + b;
      PassCountAppend(a[1..], b, bx);
    }
  }

  /** No pipe at column `bx`, no point. */
  lemma {:induction false} PassCountNone(ps: seq<Pipe>, bx: int)
    requires forall i :: 0 <= i < |ps| ==> ps[i].x != bx
    ensures PassCount(ps, bx) == 0
  {
    if ps != [] {
      PassCountNone(ps[1..], bx);
    }
  }

  /** With spaced pipes a frame scores at most one point. */
  lemma {:induction false} PassCountAtMostOne(ps: seq<Pipe>, width: int, bx: int)
    requires Spaced(ps, width)
    ensures PassCount(ps, bx) <= 1
  {
    if ps != [] {
      SpacedIncreasing(ps, width);
      var tail := ps[1..];
      if ps[0].x == bx {
        forall i | 0 <= i < |tail| ensures tail[i].x != bx {
          assert tail[i] == ps[i + 1];
        }
        PassCountNone(tail, bx);
      } else {
        assert Spaced(tail, width) by {
          forall i, j | 0 <= i && j == i + 1 && j < |tail|
            ensures tail[i].x + PIPE_DISTANCE < tail[j].x
          {
            assert tail[i] == ps[i + 1] && tail[j] == ps[j + 1];
          }
        }
        PassCountAtMostOne(tail, width, bx);
      }
    }
  }

  /** Spawning keeps the spacing: a new pipe at `width` is appended only
    * when the last one is more than PIPE_DISTANCE columns left of it. */
  lemma SpawnSpaced(s: Snapshot, width: int, height: int, gapStart: int)
    requires ValidGap(height, gapStart)
    requires Spaced(s.pipes, width) && GapsInside(s.pipes, height)
    ensures Spaced(Spawn(s, width, height, gapStart).pipes, width)
    ensures GapsInside(Spawn(s, width, height, gapStart).pipes, height)
  {
  }

  /** Every frame keeps the invariant. */
  lemma StepInv(s: Snapshot, height: int, width: int, bx: int, auto: bool, f: Frame)
    requires Inv(s, height, width) && ValidGap(height, f.gapStart)
    ensures Inv(Step(s, height, width, bx, auto, f), height, width)
  {
    var moved := Fly(Accelerate(s, Jump(s, bx, auto, f.key)), height);
    var spawned := Spawn(moved, width, height, f.gapStart);
    SpawnSpaced(moved, width, height, f.gapStart);
    ScrolledSpaced(spawned.pipes, width);
    ScrolledGaps(spawned.pipes, height);
  }

  /** A frame scores at most one point. */
  lemma StepScoresAtMostOne(s: Snapshot, height: int, width: int, bx: int, auto: bool, f: Frame)
    requires Inv(s, height, width) && ValidGap(height, f.gapStart)
    ensures Step(s, height, width, bx, auto, f).score <= s.score + 1
  {
    var moved := Fly(Accelerate(s, Jump(s, bx, auto, f.key)), height);
    var spawned := Spawn(moved, width, height, f.gapStart);
    SpawnSpaced(moved, width, height, f.gapStart);
    PassCountAtMostOne(spawned.pipes, width, bx);
  }

  /** Every run keeps the invariant. */
  lemma {:induction false} RunInv(s: Snapshot, height: int, width: int, bx: int, auto: bool, frames: seq<Frame>)
    requires Inv(s, height, width) && ValidFrames(height, frames)
    ensures Inv(Run(s, height, width, bx, auto, frames), height, width)
    decreases |frames|
  {
    if !s.gameOver && frames != [] {
      StepInv(s, height, width, bx, auto, frames[0]);
      RunInv(Step(s, height, width, bx, auto, frames[0]), height, width, bx, auto, frames[1..]);
    }
  }

  /** Running two batches of frames one after the other is running them all. */
  lemma {:induction false} RunAppend(s: Snapshot, height: int, width: int, bx: int, auto: bool,
                                     a: seq<Frame>, b: seq<Frame>)
    requires ValidFrames(height, a) && ValidFrames(height, b)
    ensures ValidFrames(height, a + b)
    ensures Run(s, height, width, bx, auto, a + b)
         == Run(Run(s, height, width, bx, auto, a), height, width, bx, auto, b)
    decreases |a|
  {
    assert ValidFrames(height, a + b) by {
      forall i | 0 <= i < |a + b| ensures ValidGap(height, (a + b)[i].gapStart) {
        if i < |a| { assert (a + b)[i] == a[i]; } else { assert (a + b)[i] == b[i - |a|]; }
      }
    }
    if a == [] {
      assert a + b == b;
    } else if !s.gameOver {
      assert (a + b)[0] == a[0];
      assert (a + b)[1..] == a[1..] + b;
      assert ValidFrames(height, a[1..]) by {
        forall i | 0 <= i < |a[1..]| ensures ValidGap(height, a[1..][i].gapStart) {
          assert a[1..][i] == a[i + 1];
        }
      }
      RunAppend(Step(s, height, width, bx, auto, a[0]), height, width, bx, auto, a[1..], b);
    }
  }

  /** One more frame after a run that has not ended is one more `Step`. */
  lemma RunSnoc(s: Snapshot, height: int, width: int, bx: int, auto: bool, a: seq<Frame>, f: Frame)
    requires ValidFrames(height, a) && ValidGap(height, f.gapStart)
    requires !Run(s, height, width, bx, auto, a).gameOver
    ensures ValidFrames(height, a + [f])
    ensures Run(s, height, width, bx, auto, a + [f])
         == Step(Run(s, height, width, bx, auto, a), height, width, bx, auto, f)
  {
    assert ValidFrames(height, [f]);
    RunAppend(s, height, width, bx, auto, a, [f]);
    assert [f][1..] == [];
  }

  /** The run of the first `n + 1` frames of a list, when the run of the
    * first `n` has not ended, is one more `Step` with frame `n`. */
  lemma RunNext(s: Snapshot, height: int, width: int, bx: int, auto: bool, frames: seq<Frame>, n: nat)
    requires ValidFrames(height, frames) && n < |frames|
    requires !Run(s, height, width, bx, auto, frames[..n]).gameOver
    ensures ValidFrames(height, frames[..n]) && ValidFrames(height, frames[..n + 1])
    ensures frames[..n + 1][..n] == frames[..n]
    ensures Run(s, height, width, bx, auto, frames[..n + 1])
         == Step(Run(s, height, width, bx, auto, frames[..n]), height, width, bx, auto, frames[n])
  {
    ValidFramesSplit(height, frames, n);
    assert frames[..n + 1] == frames[..n] + [frames[n]];
    RunSnoc(s, height, width, bx, auto, frames[..n], frames[n]);
  }

  lemma ValidFramesSplit(height: int, frames: seq<Frame>, n: nat)
    requires ValidFrames(height, frames) && n <= |frames|
    ensures ValidFrames(height, frames[..n]) && ValidFrames(height, frames[n..])
  {
  }

  /** A run that has ended after the first `n` frames, or has used them all,
    * ends in the same state as the run of those `n` frames. */
  lemma RunPrefix(s: Snapshot, height: int, width: int, bx: int, auto: bool, frames: seq<Frame>, n: nat)
    requires ValidFrames(height, frames) && n <= |frames|
    requires ValidFrames(height, frames[..n])
    requires Run(s, height, width, bx, auto, frames[..n]).gameOver || n == |frames|
    ensures Run(s, height, width, bx, auto, frames) == Run(s, height, width, bx, auto, frames[..n])
  {
    ValidFramesSplit(height, frames, n);
    assert frames[..n] + frames[n..] == frames;
    RunAppend(s, height, width, bx, auto, frames[..n], frames[n..]);
  }
}
