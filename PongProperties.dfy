/** Properties of the game state over single events and over any sequence of
    the events the window's message loop delivers. */
module PongProperties {
  import opened CSharp
  import opened Pong

  /** One event the window reacts to: a pointer move (with whether the window
      has focus), a button release (with the two random draws it makes), or a
      painted frame (with the seconds elapsed since the previous one). */
  datatype Event =
    | MouseMove(focused: bool, pointerY: int)
    | MouseUp(button: MouseButton, angleDraw: AngleDraw, sideDraw: bool)
    | Paint(dt: Duration)

  /** The window's reaction to one event: `OnMouseMove`, `OnMouseUp`, or the
      simulation part of `OnPaint`. A pointer move touches only the paddle and
      the pointer protocol, never the ball or the match. */
  function Apply(s: State, e: Event, dir: int -> Vec): (r: State)
    ensures e.MouseMove? ==>
              r == s.(leftPadY := r.leftPadY, mouseResetting := r.mouseResetting, mouseOffsetY := r.mouseOffsetY)
  {
    match e
    case MouseMove(focused, y) => MouseMoved(s, focused, y)
    case MouseUp(button, angleDraw, sideDraw) => MouseReleased(s, button, angleDraw, sideDraw, dir)
    case Paint(dt) => Frame(s, dt).state
  }

  function Run(s: State, events: seq<Event>, dir: int -> Vec): (r: State)
    decreases |events|
  {
    if events == [] then s else Run(Apply(s, events[0], dir), events[1..], dir)
  }

  /** A run of painted frames with nothing else in between. */
  function Frames(s: State, dts: seq<Duration>): (r: State)
    decreases |dts|
  {
    if dts == [] then s else Frames(Frame(s, dts[0]).state, dts[1..])
  }

  lemma InitialInv()
    ensures Inv(Initial())
  {
  }

  /** The first confirm after the window opens starts play with the ball in
      the centre at the start speed. */
  lemma FirstServeFromCentre(angleDraw: AngleDraw, sideDraw: bool, dir: int -> Vec)
    ensures var r := MouseReleased(Initial(), LeftButton, angleDraw, sideDraw, dir);
      && r.status == Playing && r.cursorLocked
      && r.ballX == 0.0 && r.ballY == 0.0
      && r.leftPadY == 0 && r.rightPadY == 0.0
      && r.levelSpeed == StartLevelSpeed && r.serveSide == sideDraw
  {
  }

  /** Flight over no time leaves the state as it is. */
  lemma FlyNoTime(s: State)
    ensures Fly(s, 0.0) == s
  {
  }

  /** The ball flies in a straight line at constant speed: two flights in a
      row are one flight over the summed time. */
  lemma FlyComposes(s: State, a: Duration, b: Duration)
    ensures Fly(Fly(s, a), b) == Fly(s, a + b)
  {
    var v := s.levelSpeed;
    var f := Fly(s, a);
    assert f.levelSpeed == v && f.ballSpeedX == s.ballSpeedX && f.ballSpeedY == s.ballSpeedY;
    assert (a + b) * v * s.ballSpeedX == a * v * s.ballSpeedX + b * v * s.ballSpeedX;
    assert (a + b) * v * s.ballSpeedY == a * v * s.ballSpeedY + b * v * s.ballSpeedY;
    assert Fly(f, b).ballX == Fly(s, a + b).ballX;
    assert Fly(f, b).ballY == Fly(s, a + b).ballY;
  }

  /** The AI tracker keeps a paddle that starts on the field on the field,
      and never moves it further than one step of its speed. */
  lemma TrackBallStaysOnField(s: State, dt: Duration)
    requires LimitTop as real <= s.rightPadY <= LimitBottom as real
    requires 0.0 <= s.rightPadMaxSpeed
    ensures LimitTop as real <= TrackBall(s, dt).rightPadY <= LimitBottom as real
    ensures Abs(TrackBall(s, dt).rightPadY - s.rightPadY) <= s.rightPadMaxSpeed * dt
  {
    assert 0.0 <= s.rightPadMaxSpeed * dt;
  }

  /** A frame that scores no goal leaves the ball between the walls. */
  lemma FrameKeepsBallInside(s: State, dt: Duration)
    requires s.status == Playing
    requires Frame(s, dt).state.round == s.round
    ensures -WallY <= Frame(s, dt).state.ballY <= WallY
    ensures Frame(s, dt).state.status == Playing
  {
  }

  /** A paddle hit sends the ball back from the paddle's face, plays the
      paddle tone, and leaves the vertical speed in [-2, 2]. */
  lemma LeftPadReturnsBall(s: State)
    requires -PadBackX < s.ballX < -PadFaceX
    requires Abs(s.leftPadY as real - s.ballY) < HalfPadHeight as real
    ensures Bounce(s).state.ballX == -PadFaceX
    ensures Bounce(s).state.ballSpeedX == -s.ballSpeedX
    ensures -2.0 <= Bounce(s).state.ballSpeedY <= 2.0
    ensures |Bounce(s).beeps| >= 1 && Bounce(s).beeps[0] == PadBeep
    ensures var spin := TruncDiv(s.leftPadY - s.lastLeftPadSample, 10) as real;
      Bounce(s) == Walls(Stepped(PadReturn(Sampled(s), -PadFaceX, spin), [PadBeep]))
    ensures -WallY <= s.ballY <= WallY ==>
              Bounce(s).state.ballSpeedY == ClampSpin(s.ballSpeedY + TruncDiv(s.leftPadY - s.lastLeftPadSample, 10) as real)
  {
  }

  lemma RightPadReturnsBall(s: State)
    requires PadFaceX < s.ballX < PadBackX
    requires Abs(s.rightPadY - s.ballY) < HalfPadHeight as real
    ensures Bounce(s).state.ballX == PadFaceX
    ensures Bounce(s).state.ballSpeedX == -s.ballSpeedX
    ensures -2.0 <= Bounce(s).state.ballSpeedY <= 2.0
    ensures |Bounce(s).beeps| >= 1 && Bounce(s).beeps[0] == PadBeep
    ensures var spin := (s.rightPadY - s.lastRightPadSample as real) / 10.0;
      Bounce(s) == Walls(Stepped(PadReturn(Sampled(s), PadFaceX, spin), [PadBeep]))
    ensures -WallY <= s.ballY <= WallY ==>
              Bounce(s).state.ballSpeedY == ClampSpin(s.ballSpeedY + (s.rightPadY - s.lastRightPadSample as real) / 10.0)
  {
  }

  /** A left release on the title screen or while waiting starts play: the
      level speed is reset, the pointer is captured and recentring restarts,
      and the ball is served in the band of the serve side, which is drawn
      afresh only on the title screen. The ball, paddles, scores and round
      counter are left as they are. */
  lemma MouseUpStartsPlay(s: State, angleDraw: AngleDraw, sideDraw: bool, dir: int -> Vec)
    requires s.status == Title || s.status == Waiting
    ensures var r := MouseReleased(s, LeftButton, angleDraw, sideDraw, dir);
      && r.status == Playing && r.cursorLocked && r.mouseResetting
      && r.levelSpeed == StartLevelSpeed
      && r.serveSide == (if s.status == Title then sideDraw else s.serveSide)
      && Vec(r.ballSpeedX, r.ballSpeedY) == dir(ServeAngle(r.serveSide, angleDraw))
      && (r.serveSide ==> -45 <= ServeAngle(r.serveSide, angleDraw) <= 44)
      && (!r.serveSide ==> 135 <= ServeAngle(r.serveSide, angleDraw) <= 224)
      && r.ballX == s.ballX && r.ballY == s.ballY
      && r.leftPadY == s.leftPadY && r.rightPadY == s.rightPadY
      && r.leftScore == s.leftScore && r.rightScore == s.rightScore && r.round == s.round
      && r.lastLeftPadSample == s.lastLeftPadSample && r.lastRightPadSample == s.lastRightPadSample
      && r.mouseOffsetY == s.mouseOffsetY && r.rightPadMaxSpeed == s.rightPadMaxSpeed
  {
  }

  /** A left release after a finished match clears both scores and returns to
      the title screen without capturing the pointer. It also resets the level
      speed and overwrites the serve velocity; the serve side, round counter,
      ball and paddles are left as they are. */
  lemma MouseUpEndsMatch(s: State, angleDraw: AngleDraw, sideDraw: bool, dir: int -> Vec)
    requires s.status == GameOver || s.status == Winning
    ensures var r := MouseReleased(s, LeftButton, angleDraw, sideDraw, dir);
      && r.status == Title && r.leftScore == 0 && r.rightScore == 0
      && r.cursorLocked == s.cursorLocked && r.mouseResetting == s.mouseResetting
      && r.levelSpeed == StartLevelSpeed
      && r.serveSide == s.serveSide && r.round == s.round
      && Vec(r.ballSpeedX, r.ballSpeedY) == dir(ServeAngle(s.serveSide, angleDraw))
      && r.ballX == s.ballX && r.ballY == s.ballY
      && r.leftPadY == s.leftPadY && r.rightPadY == s.rightPadY
      && r.lastLeftPadSample == s.lastLeftPadSample && r.lastRightPadSample == s.lastRightPadSample
      && r.mouseOffsetY == s.mouseOffsetY && r.rightPadMaxSpeed == s.rightPadMaxSpeed
  {
  }

  /** `ProcessBouce` when the ball is past the left goal line: the right side
      scores one point, the round counter rises, the serve side flips when the
      new round is even, the pointer is released and no tone is played. At 11
      the match is lost and the ball and paddles are left where they are;
      below 11 play waits with ball and paddles back in the centre. */
  lemma BounceLeftGoal(s: State)
    requires s.ballX < -GoalX
    ensures var r := Bounce(s);
      && r.beeps == []
      && r.state.rightScore == s.rightScore + 1 && r.state.leftScore == s.leftScore
      && r.state.round == s.round + 1
      && r.state.serveSide == (if Even(s.round + 1) then !s.serveSide else s.serveSide)
      && !r.state.cursorLocked
      && (r.state.rightScore >= PointsToWin ==>
            && r.state.status == GameOver
            && r.state.ballX == s.ballX && r.state.ballY == s.ballY
            && r.state.leftPadY == s.leftPadY && r.state.rightPadY == s.rightPadY)
      && (r.state.rightScore < PointsToWin ==>
            && r.state.status == Waiting
            && r.state.ballX == 0.0 && r.state.ballY == 0.0
            && r.state.leftPadY == 0 && r.state.rightPadY == 0.0)
      && r.state.levelSpeed == s.levelSpeed && r.state.rightPadMaxSpeed == s.rightPadMaxSpeed
  {
    assert Bounce(s) == Stepped(AfterPoint(Tally(Sampled(s), RightSide), RightSide), []);
  }

  /** The mirror case: past the right goal line the left side scores, and
      at 11 the match is won. */
  lemma BounceRightGoal(s: State)
    requires s.ballX > GoalX
    ensures var r := Bounce(s);
      && r.beeps == []
      && r.state.leftScore == s.leftScore + 1 && r.state.rightScore == s.rightScore
      && r.state.round == s.round + 1
      && r.state.serveSide == (if Even(s.round + 1) then !s.serveSide else s.serveSide)
      && !r.state.cursorLocked
      && (r.state.leftScore >= PointsToWin ==>
            && r.state.status == Winning
            && r.state.ballX == s.ballX && r.state.ballY == s.ballY
            && r.state.leftPadY == s.leftPadY && r.state.rightPadY == s.rightPadY)
      && (r.state.leftScore < PointsToWin ==>
            && r.state.status == Waiting
            && r.state.ballX == 0.0 && r.state.ballY == 0.0
            && r.state.leftPadY == 0 && r.state.rightPadY == 0.0)
      && r.state.levelSpeed == s.levelSpeed && r.state.rightPadMaxSpeed == s.rightPadMaxSpeed
  {
    var t := Sampled(s);
    assert LeftPad(t, TruncDiv(s.leftPadY - s.lastLeftPadSample, 10) as real) == Stepped(t, []);
    assert Bounce(s) == Stepped(AfterPoint(Tally(t, LeftSide), LeftSide), []);
  }

  /** Without a goal, `ProcessBouce` leaves the ball between the walls and
      the match state, scores and paddles as they were. */
  lemma BounceNoGoal(s: State)
    requires -GoalX <= s.ballX <= GoalX
    ensures var r := Bounce(s).state;
      && -WallY <= r.ballY <= WallY
      && r.status == s.status && r.cursorLocked == s.cursorLocked
      && r.leftScore == s.leftScore && r.rightScore == s.rightScore
      && r.round == s.round && r.serveSide == s.serveSide
      && r.leftPadY == s.leftPadY && r.rightPadY == s.rightPadY
      && r.levelSpeed == s.levelSpeed
  {
  }

  /** Without a goal and without a paddle hit the resolver only records the
      samples and lets the walls act: the ball keeps its x and horizontal speed. */
  lemma BounceMiss(s: State)
    requires -GoalX <= s.ballX <= GoalX && !LeftPadHit(s) && !RightPadHit(s)
    ensures Bounce(s) == Walls(Stepped(Sampled(s), []))
    ensures Bounce(s).state.ballX == s.ballX && Bounce(s).state.ballSpeedX == s.ballSpeedX
  {
  }

  /** A ball that has crossed the bottom wall in mid-field is put back on the
      wall, turned round vertically, and the wall tone plays once. */
  lemma BounceOffBottomWall(s: State)
    requires s.ballX == 0.0 && s.ballY > WallY
    ensures Bounce(s).state.ballY == WallY
    ensures Bounce(s).state.ballSpeedY == -s.ballSpeedY
    ensures Bounce(s).beeps == [WallBeep]
  {
  }

  /** One frame scores at most one point, never lowers a score, raises the
      round counter by the points scored, and keeps the level speed. */
  lemma FrameScoresAtMostOne(s: State, dt: Duration)
    ensures var r := Frame(s, dt).state;
      && s.leftScore <= r.leftScore <= s.leftScore + 1
      && s.rightScore <= r.rightScore <= s.rightScore + 1
      && r.round - s.round == (r.leftScore - s.leftScore) + (r.rightScore - s.rightScore) <= 1
      && r.levelSpeed == s.levelSpeed
  {
    if s.status == Playing {
      var t := TrackBall(Fly(s, dt), dt);
      if t.ballX < -GoalX {
        BounceLeftGoal(t);
      } else if t.ballX > GoalX {
        BounceRightGoal(t);
      } else {
        BounceNoGoal(t);
      }
    }
  }

  lemma MouseMovePreservesInv(s: State, focused: bool, pointerY: int)
    requires Inv(s)
    ensures Inv(MouseMoved(s, focused, pointerY))
  {
  }

  lemma MouseUpPreservesInv(s: State, button: MouseButton, angleDraw: AngleDraw, sideDraw: bool, dir: int -> Vec)
    requires Inv(s)
    ensures Inv(MouseReleased(s, button, angleDraw, sideDraw, dir))
  {
    if button == LeftButton && (s.status == Title || s.status == Waiting) {
      MouseUpStartsPlay(s, angleDraw, sideDraw, dir);
    } else if button == LeftButton && (s.status == GameOver || s.status == Winning) {
      MouseUpEndsMatch(s, angleDraw, sideDraw, dir);
    }
  }

  lemma FramePreservesInv(s: State, dt: Duration)
    requires Inv(s)
    ensures Inv(Frame(s, dt).state)
  {
    if s.status == Playing {
      var t := TrackBall(Fly(s, dt), dt);
      TrackBallStaysOnField(Fly(s, dt), dt);
      if t.ballX < -GoalX {
        BounceLeftGoal(t);
      } else if t.ballX > GoalX {
        BounceRightGoal(t);
      } else {
        BounceNoGoal(t);
      }
    }
  }

  /** Every event keeps the invariant. */
  lemma ApplyPreservesInv(s: State, e: Event, dir: int -> Vec)
    requires Inv(s)
    ensures Inv(Apply(s, e, dir))
  {
    match e
    case MouseMove(focused, y) => MouseMovePreservesInv(s, focused, y);
    case MouseUp(button, angleDraw, sideDraw) => MouseUpPreservesInv(s, button, angleDraw, sideDraw, dir);
    case Paint(dt) => FramePreservesInv(s, dt);
  }

  /** Any sequence of events keeps the invariant. */
  lemma {:induction false} RunPreservesInv(s: State, events: seq<Event>, dir: int -> Vec)
    requires Inv(s)
    ensures Inv(Run(s, events, dir))
    decreases |events|
  {
    if events != [] {
      ApplyPreservesInv(s, events[0], dir);
      RunPreservesInv(Apply(s, events[0], dir), events[1..], dir);
    }
  }

  /** Scores never decrease while frames run, and the round counter rises by
      exactly the number of points scored. */
  lemma {:induction false} FramesNeverLowerScores(s: State, dts: seq<Duration>)
    ensures s.leftScore <= Frames(s, dts).leftScore
    ensures s.rightScore <= Frames(s, dts).rightScore
    ensures Frames(s, dts).round - s.round
            == (Frames(s, dts).leftScore - s.leftScore) + (Frames(s, dts).rightScore - s.rightScore)
    decreases |dts|
  {
    if dts != [] {
      FrameScoresAtMostOne(s, dts[0]);
      FramesNeverLowerScores(Frame(s, dts[0]).state, dts[1..]);
    }
  }

  /** Outside of play (Title, Waiting, or a finished match) frames change nothing. */
  lemma {:induction false} FramesIdleOutsidePlay(s: State, dts: seq<Duration>)
    requires s.status != Playing
    ensures Frames(s, dts) == s
    decreases |dts|
  {
    if dts != [] {
      FramesIdleOutsidePlay(s, dts[1..]);
    }
  }

  /** The level speed never rises above its start value: the configured
      per-level increase is never applied. */
  lemma {:induction false} LevelSpeedNeverIncreases(s: State, events: seq<Event>, dir: int -> Vec)
    requires s.levelSpeed == StartLevelSpeed
    ensures Run(s, events, dir).levelSpeed == StartLevelSpeed
    decreases |events|
  {
    if events != [] {
      if events[0].Paint? {
        FrameScoresAtMostOne(s, events[0].dt);
      }
      LevelSpeedNeverIncreases(Apply(s, events[0], dir), events[1..], dir);
    }
  }

  /** The pointer protocol: while steering, a move in the resetting phase
      is discarded (only the phase flips and the offset is cleared), and the
      next move applies its offset from the centre row, clamped to the field,
      and goes back to the resetting phase. */
  lemma RecentreThenSteer(s: State, firstY: int, secondY: int)
    requires Steering(s, true) && s.mouseResetting
    ensures var a := MouseMoved(s, true, firstY);
      && a.leftPadY == s.leftPadY && !a.mouseResetting && a.mouseOffsetY == 0
      && a == s.(mouseResetting := false, mouseOffsetY := 0)
    ensures var b := MouseMoved(MouseMoved(s, true, firstY), true, secondY);
      && b.mouseResetting && b.mouseOffsetY == secondY - PointerCentreY
      && b.leftPadY == ClampPad(s.leftPadY + secondY - PointerCentreY)
  {
  }

  /** Neither the end of a match nor the way back through the title screen
      re-centres the ball: a match lost with the ball past the left goal line
      restarts with it still there, and unless the serve carries the ball
      rightwards the first frame of the new match concedes a point at once. */
  lemma RestartKeepsBallPastGoal(s: State, angleDraw: AngleDraw, sideDraw: bool, dir: int -> Vec, dt: Duration)
    requires Inv(s) && s.status == GameOver && s.ballX < -GoalX
    requires dir(ServeAngle(sideDraw, angleDraw)).x <= 0.0
    ensures var title := MouseReleased(s, LeftButton, angleDraw, sideDraw, dir);
      var play := MouseReleased(title, LeftButton, angleDraw, sideDraw, dir);
      && title.status == Title
      && play.status == Playing && play.ballX == s.ballX && play.leftScore == 0 && play.rightScore == 0
      && Frame(play, dt).state.rightScore == 1
      && Frame(play, dt).state.status == Waiting
  {
    var title := MouseReleased(s, LeftButton, angleDraw, sideDraw, dir);
    MouseUpEndsMatch(s, angleDraw, sideDraw, dir);
    var play := MouseReleased(title, LeftButton, angleDraw, sideDraw, dir);
    MouseUpStartsPlay(title, angleDraw, sideDraw, dir);
    assert dt * play.levelSpeed * play.ballSpeedX <= 0.0;
    var t := TrackBall(Fly(play, dt), dt);
    assert t.ballX < -GoalX;
    BounceLeftGoal(t);
  }

  /** An illustration of `TruncDiv`'s contract (which covers every input):
      C#'s truncating division differs from Dafny's for a paddle moving up,
      so a 15-pixel rise gives a spin of -1, not -2. */
  lemma SpinTruncatesTowardZero()
    ensures TruncDiv(-15, 10) == -1 && -15 / 10 == -2
  {
  }

  /** The match ends on the frame a side's 11th point is scored, and only then. */
  lemma MatchEndsAtEleven(s: State, dt: Duration)
    requires Inv(s) && s.status == Playing
    ensures var r := Frame(s, dt).state;
      && (r.status == GameOver <==> r.rightScore == PointsToWin)
      && (r.status == Winning <==> r.leftScore == PointsToWin)
  {
    ApplyPreservesInv(s, Paint(dt), (a: int) => Vec(0.0, 0.0));
  }
}
