/**
 * Two concrete behaviours of the frame rules: a game left to gravity on a
 * 20 x 50 terminal, and the autopilot following the gap of one pipe.
 */
module BirdScenarios {
  import opened BirdRules

  /** One frame without a jump while the only pipe is far right of the
    * bird: the bird falls, the pipe moves one column, and no pipe is added. */
  lemma FallFrame(s: Snapshot, g: int, k: int)
    requires ValidGap(20, g) && ValidGap(20, k)
    requires |s.pipes| == 1 && s.pipes[0].gapStart == g && 20 <= s.pipes[0].x <= 50
    requires s.birdY >= 0 && s.velocity >= 0 && !s.gameOver
    ensures var r := Step(s, 20, 50, BIRD_X, false, Frame(false, k));
            r.birdY == s.birdY + s.velocity + 1 && r.velocity == s.velocity + 1 &&
            r.pipes == [Pipe(s.pipes[0].x - 1, g)] && r.score == s.score &&
            (r.gameOver <==> r.birdY >= 19)
  {
  }

  /** With no jumps, a bird starting at row 9 of a 20-row terminal falls
    * 1, 2, 3 and 4 rows, reaches row 19 = height - 1 on the fourth frame
    * and the game ends there, with the row not clamped. */
  lemma GravityOnlyGame(g: int, k: int)
    requires ValidGap(20, g) && ValidGap(20, k)
    ensures var f := Frame(false, k);
            var s0 := Start(20, 50, g);
            var s3 := Run(s0, 20, 50, BIRD_X, false, [f, f, f]);
            var s4 := Run(s0, 20, 50, BIRD_X, false, [f, f, f, f]);
            s3.birdY == 15 && !s3.gameOver &&
            s4.birdY == 19 && s4.velocity == 4 && s4.gameOver && s4.score == 0 &&
            s4.pipes == [Pipe(46, g)]
  {
    var f := Frame(false, k);
    var s0 := Start(20, 50, g);
    FallFrame(s0, g, k);
    var s1 := Step(s0, 20, 50, BIRD_X, false, f);
    FallFrame(s1, g, k);
    var s2 := Step(s1, 20, 50, BIRD_X, false, f);
    FallFrame(s2, g, k);
    var s3 := Step(s2, 20, 50, BIRD_X, false, f);
    FallFrame(s3, g, k);
    var s4 := Step(s3, 20, 50, BIRD_X, false, f);
    assert [f, f, f, f][1..] == [f, f, f];
    assert [f, f, f][1..] == [f, f] && [f, f][1..] == [f] && [f][1..] == [];
    assert Run(s3, 20, 50, BIRD_X, false, [f]) == s4;
    assert Run(s2, 20, 50, BIRD_X, false, [f]) == s3;
    assert Run(s2, 20, 50, BIRD_X, false, [f, f]) == s4;
    assert Run(s1, 20, 50, BIRD_X, false, [f, f]) == s3;
    assert Run(s1, 20, 50, BIRD_X, false, [f, f, f]) == s4;
  }

  /** The rows and velocities, relative to the gap centre `c`, that the
    * autopilot cycles through while it follows one pipe. */
  predicate OnOrbit(row: int, velocity: int, c: int) {
    (row == c + 1 && (velocity == 0 || velocity == 2)) ||
    (row == c - 1 && (velocity == -2 || velocity == 1)) ||
    (row == c - 2 && (velocity == -1 || velocity == 0))
  }

  /** While the autopilot follows the same pipe, the bird stays on the
    * orbit, inside that pipe's gap, and does not end the game. */
  lemma AutopilotOrbit(s: Snapshot, height: int, bx: int, i: nat)
    requires Playable(height)
    requires FirstAhead(s.pipes, bx) == Some(i)
    requires GapsInside(s.pipes, height)
    requires OnOrbit(s.birdY, s.velocity, s.pipes[i].gapStart + GAP / 2)
    ensures var r := Fly(Accelerate(s, AutoJump(s.pipes, bx, s.birdY)), height);
            OnOrbit(r.birdY, r.velocity, s.pipes[i].gapStart + GAP / 2) &&
            !Hits(Pipe(bx, s.pipes[i].gapStart), bx, r.birdY) &&
            r.gameOver == s.gameOver
  {
  }

  /** In a spaced list whose first pipe ahead of the bird is pipe `i`, no
    * other pipe stands one column right of the bird. */
  lemma OnlyTargetNext(ps: seq<Pipe>, width: int, i: nat)
    requires Spaced(ps, width) && i < |ps| && ps[i].x > BIRD_X
    requires forall j :: 0 <= j < i ==> ps[j].x <= BIRD_X
    ensures forall j :: 0 <= j < |ps| && ps[j].x == BIRD_X + 1 ==> j == i
  {
    SpacedIncreasing(ps, width);
  }

  /** A whole autopilot frame while the bird is on the orbit of the first
    * pipe ahead: after the spawn, the scroll and the collision check the
    * game is still running. Only that pipe can reach the bird's column in
    * this frame, and the bird is inside its gap. */
  lemma OrbitStep(s: Snapshot, height: int, width: int, i: nat, f: Frame)
    requires Inv(s, height, width) && ValidGap(height, f.gapStart) && !s.gameOver
    requires FirstAhead(s.pipes, BIRD_X) == Some(i)
    requires OnOrbit(s.birdY, s.velocity, s.pipes[i].gapStart + GAP / 2)
    ensures !Step(s, height, width, BIRD_X, true, f).gameOver
  {
    AutopilotOrbit(s, height, BIRD_X, i);
    var moved := Fly(Accelerate(s, AutoJump(s.pipes, BIRD_X, s.birdY)), height);
    var spawned := Spawn(moved, width, height, f.gapStart);
    SpawnSpaced(moved, width, height, f.gapStart);
    assert forall j :: 0 <= j < i ==> spawned.pipes[j] == s.pipes[j];
    assert spawned.pipes[i] == s.pipes[i];
    OnlyTargetNext(spawned.pipes, width, i);
    var scrolled := Scroll(spawned, BIRD_X);
    forall k | 0 <= k < |scrolled.pipes|
      ensures !Hits(scrolled.pipes[k], BIRD_X, scrolled.birdY)
    {
      var p := scrolled.pipes[k];
      ScrolledMembers(spawned.pipes, p);
      var q :| q in spawned.pipes && q.x > 0 && p == Advanced(q);
      var j :| 0 <= j < |spawned.pipes| && spawned.pipes[j] == q;
      assert p.x == BIRD_X ==> q == s.pipes[i];
    }
    assert !Collides(scrolled.pipes, BIRD_X, scrolled.birdY);
  }

  /** The autopilot scenario: gap rows 5 to 12, bird on row 10 at rest. */
  lemma AutopilotScenario(height: int, bx: int)
    requires Playable(height) && height >= 15 && bx < 40
    ensures var s := Snapshot(10, 0, [Pipe(40, 5)], 0, false);
            OnOrbit(s.birdY, s.velocity, 5 + GAP / 2) &&
            Fly(Accelerate(s, AutoJump(s.pipes, bx, s.birdY)), height).birdY == 8
  {
  }
}
