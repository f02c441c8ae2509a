/** The game window's simulation, as the object the source has: its fields
    are updated in place by the event handlers and by the playing branch of
    the paint handler. Each method is specified by the function of module
    Pong that gives its effect on the whole state, and keeps Pong.Inv. */
module Window {
  import opened CSharp
  import opened Pong
  import PongProperties

  class GameWindow {
    var leftPadY: int
    var rightPadY: real
    var ballX: real
    var ballY: real
    var ballSpeedX: real
    var ballSpeedY: real
    var levelSpeed: real
    var rightPadMaxSpeed: real
    var leftScore: int
    var rightScore: int
    var serveSide: bool
    var round: int
    var mouseResetting: bool
    var cursorLocked: bool
    var mouseOffsetY: int
    var status: Status
    var lastLeftPadSample: int
    var lastRightPadSample: int

    /** The fields as one value. */
    function Current(): State
      reads this
    {
      State(leftPadY, rightPadY, ballX, ballY, ballSpeedX, ballSpeedY, levelSpeed,
            rightPadMaxSpeed, leftScore, rightScore, serveSide, round, mouseResetting,
            cursorLocked, mouseOffsetY, status, lastLeftPadSample, lastRightPadSample)
    }

    ghost predicate Valid()
      reads this
    {
      Inv(Current())
    }

    constructor ()
      ensures Current() == Initial() && Valid()
    {
      leftPadY, rightPadY := 0, 0.0;
      ballX, ballY := 0.0, 0.0;
      ballSpeedX, ballSpeedY := 0.0, 0.0;
      levelSpeed := StartLevelSpeed;
      leftScore, rightScore := 0, 0;
      mouseResetting := true;
      status := Title;
      cursorLocked := false;
      rightPadMaxSpeed := InitRightPadSpeed;
      serveSide, round := false, 0;
      mouseOffsetY := 0;
      lastLeftPadSample, lastRightPadSample := 0, 0;
      PongProperties.InitialInv();
    }

    method LockCursor()
      modifies this
      ensures Current() == Lock(old(Current()))
    {
      cursorLocked := true;
      mouseResetting := true;
    }

    method UnlockCursor()
      modifies this
      ensures Current() == Unlock(old(Current()))
    {
      cursorLocked := false;
    }

    /** A pointer move at screen row `pointerY`, with or without input focus. */
    method OnMouseMove(focused: bool, pointerY: int)
      requires Valid()
      modifies this
      ensures Current() == MouseMoved(old(Current()), focused, pointerY)
      ensures Valid()
    {
      ghost var s := Current();
      PongProperties.MouseMovePreservesInv(s, focused, pointerY);
      if !focused {
        return;
      }
      if !cursorLocked {
        return;
      }
      if status != Playing {
        return;
      }
      if mouseResetting {
        mouseResetting := false;
        mouseOffsetY := 0;
        return;
      }
      mouseOffsetY := pointerY - PointerCentreY;
      mouseResetting := true;
      leftPadY := leftPadY + mouseOffsetY;
      if leftPadY < LimitTop {
        leftPadY := LimitTop;
      }
      if leftPadY > LimitBottom {
        leftPadY := LimitBottom;
      }
    }

    /** A button release; `angleDraw` and `sideDraw` are the two random draws
        and `dir` the platform's (cos, sin) of an angle in degrees. */
    method OnMouseUp(button: MouseButton, angleDraw: AngleDraw, sideDraw: bool, dir: int -> Vec)
      requires Valid()
      modifies this
      ensures Current() == MouseReleased(old(Current()), button, angleDraw, sideDraw, dir)
      ensures Valid()
    {
      ghost var s := Current();
      PongProperties.MouseUpPreservesInv(s, button, angleDraw, sideDraw, dir);
      if button != LeftButton {
        return;
      }
      if status != Waiting && status != Title && status != Winning && status != GameOver {
        return;
      }
      ServeBall(if status == Title then sideDraw else serveSide, angleDraw, dir);
      if status == Winning || status == GameOver {
        leftScore := 0;
        rightScore := 0;
        status := Title;
        return;
      }
      LockCursor();
      status := Playing;
    }

    /** Reset the level speed and aim the ball at the serve angle for `side`
        (only the title screen draws a new side; otherwise `side` is the
        current one). */
    method ServeBall(side: bool, angleDraw: AngleDraw, dir: int -> Vec)
      modifies this
      ensures Current() == Serve(old(Current()), side, angleDraw, dir)
    {
      levelSpeed := StartLevelSpeed;
      serveSide := side;
      var serveAngle := ServeAngle(serveSide, angleDraw);
      var v := dir(serveAngle);
      ballSpeedX := v.x;
      ballSpeedY := v.y;
    }

    /** The AI moves the right paddle one step towards the ball. */
    method ProcessAI(dt: Duration)
      modifies this
      ensures Current() == TrackBall(old(Current()), dt)
    {
      if rightPadY == ballY {
        return;
      }
      var delta := rightPadY - ballY;
      if delta > 0.0 {
        rightPadY := rightPadY - rightPadMaxSpeed * dt;
        if rightPadY < LimitTop as real {
          rightPadY := LimitTop as real;
        }
        return;
      } else {
        rightPadY := rightPadY + rightPadMaxSpeed * dt;
        if rightPadY > LimitBottom as real {
          rightPadY := LimitBottom as real;
        }
        return;
      }
    }

    /** A point for `scorer` (the source repeats this block for either side). */
    method ScorePoint(scorer: Side)
      modifies this
      ensures Current() == Score(old(Current()), scorer)
    {
      TallyPoint(scorer);
      ConcludePoint(scorer);
    }

    method ConcludePoint(scorer: Side)
      modifies this
      ensures Current() == AfterPoint(old(Current()), scorer)
    {
      if (if scorer == RightSide then rightScore else leftScore) >= PointsToWin {
        status := if scorer == RightSide then GameOver else Winning;
        UnlockCursor();
        return;
      }
      ballX := 0.0;
      ballY := 0.0;
      status := Waiting;
      UnlockCursor();
      leftPadY := 0;
      rightPadY := 0.0;
    }

    method TallyPoint(scorer: Side)
      modifies this
      ensures Current() == Tally(old(Current()), scorer)
    {
      if scorer == RightSide {
        rightScore := rightScore + 1;
      } else {
        leftScore := leftScore + 1;
      }
      round := round + 1;
      if Even(round) {
        serveSide := !serveSide;
      }
    }

    /** A paddle hit: put the ball on the face at `faceX`, reverse it and add spin. */
    method ReturnBall(faceX: real, spin: real)
      modifies this
      ensures Current() == PadReturn(old(Current()), faceX, spin)
    {
      ballX := faceX;
      ballSpeedX := -ballSpeedX;
      ballSpeedY := Min(2.0, Max(ballSpeedY + spin, -2.0));
    }

    /** The top and bottom walls; `beeps` are the tones played so far. */
    method BounceOffWalls(beeps: seq<Beep>) returns (played: seq<Beep>)
      modifies this
      ensures Stepped(Current(), played) == Walls(Stepped(old(Current()), beeps))
    {
      played := beeps;
      if ballY < -WallY {
        ballY := -WallY;
        played := played + [WallBeep];
        ballSpeedY := -ballSpeedY;
      }
      if ballY > WallY {
        ballY := WallY;
        played := played + [WallBeep];
        ballSpeedY := -ballSpeedY;
      }
    }

    /** Collisions, goals and walls; returns the tones played, in order. */
    method ProcessBounce() returns (beeps: seq<Beep>)
      modifies this
      ensures Stepped(Current(), beeps) == Bounce(old(Current()))
    {
      ghost var s0 := Current();
      var leftSpin := TruncDiv(leftPadY - lastLeftPadSample, 10);
      var rightSpin := (rightPadY - lastRightPadSample as real) / 10.0;
      lastLeftPadSample := leftPadY;
      lastRightPadSample := TruncReal(rightPadY);
      beeps := [];
      assert Current() == Sampled(s0);
      if ballX < -PadFaceX {
        if ballX < -GoalX {
          ScorePoint(RightSide);
          return;
        }
        if ballX > -PadBackX && Abs(leftPadY as real - ballY) < HalfPadHeight as real {
          ReturnBall(-PadFaceX, leftSpin as real);
          beeps := beeps + [PadBeep];
        }
      }
      assert Stepped(Current(), beeps) == LeftPad(Sampled(s0), leftSpin as real);
      if ballX > PadFaceX {
        if ballX > GoalX {
          ScorePoint(LeftSide);
          return;
        }
        if ballX < PadBackX && Abs(rightPadY - ballY) < HalfPadHeight as real {
          ReturnBall(PadFaceX, rightSpin);
          beeps := beeps + [PadBeep];
        }
      }
      assert Stepped(Current(), beeps) == RightPad(LeftPad(Sampled(s0), leftSpin as real), rightSpin);
      beeps := BounceOffWalls(beeps);
    }

    /** The simulation part of a paint: only while playing, fly the ball over
        the `dt` seconds since the last paint, run the AI, then collisions. */
    method Update(dt: Duration) returns (beeps: seq<Beep>)
      requires Valid()
      modifies this
      ensures Stepped(Current(), beeps) == Frame(old(Current()), dt)
      ensures Valid()
    {
      ghost var s := Current();
      beeps := [];
      if status == Playing {
        ballX := ballX + dt * levelSpeed * ballSpeedX;
        ballY := ballY + dt * levelSpeed * ballSpeedY;
        assert Current() == Fly(s, dt);
        ProcessAI(dt);
        beeps := ProcessBounce();
      }
      PongProperties.FramePreservesInv(s, dt);
    }
  }
}
