/** The game state of MyPong's window, taken out of the form as a value, and
    one function per thing the window does to it: a pointer move, a button
    release, the AI tracker, the collision and scoring resolver, and one
    simulated frame. The class in module Window performs the same updates in
    place; these functions are its specification. */
module Pong {
  import opened CSharp

  // Geometry and tuning (world coordinates, origin at the centre of the 640x480 field).
  const PadHeight: int := 64
  const HalfPadHeight: int := PadHeight / 2
  const LimitTop: int := HalfPadHeight - 240
  const LimitBottom: int := 480 - HalfPadHeight - 240
  const StartLevelSpeed: real := 500.0
  const InitRightPadSpeed: real := 300.0
  /** The score at which a match ends. */
  const PointsToWin: int := 11

  /** The screen row the pointer is re-centred on. */
  const PointerCentreY: int := 240

  /** The ball's x beyond which a side concedes a point, and the paddle faces. */
  const GoalX: real := 340.0
  const PadFaceX: real := 264.0
  const PadBackX: real := 280.0
  /** How far from the centre the ball may go vertically. */
  const WallY: real := 232.0

  /** The phase of a match (the window's `status_` string). */
  datatype Status = Title | Waiting | Playing | GameOver | Winning

  /** The mouse button reported by a release event. */
  datatype MouseButton = LeftButton | RightButton | MiddleButton | XButton1 | XButton2 | NoButton

  /** The side that wins a point. */
  datatype Side = LeftSide | RightSide

  /** A velocity direction, as produced by the serve's cosine and sine. */
  datatype Vec = Vec(x: real, y: real)

  /** A fire-and-forget tone the window asks the console to play. */
  datatype Beep = Beep(frequency: int, durationMs: int)
  const PadBeep: Beep := Beep(698, 100)
  const WallBeep: Beep := Beep(523, 100)

  /** Elapsed seconds between two frames; the stopwatch never runs backwards. */
  type Duration = t: real | 0.0 <= t

  /** The draw `Next(0, 90)` of the serve angle. */
  type AngleDraw = d: int | 0 <= d < 90

  /** Every field of the window the simulation reads or writes. */
  datatype State = State(
    leftPadY: int,
    rightPadY: real,
    ballX: real,
    ballY: real,
    ballSpeedX: real,
    ballSpeedY: real,
    levelSpeed: real,
    rightPadMaxSpeed: real,
    leftScore: int,
    rightScore: int,
    serveSide: bool,
    round: int,
    mouseResetting: bool,
    cursorLocked: bool,
    mouseOffsetY: int,
    status: Status,
    lastLeftPadSample: int,
    lastRightPadSample: int)

  /** A new state together with the tones emitted while producing it. */
  datatype Stepped = Stepped(state: State, beeps: seq<Beep>)

  /** The state the window's constructor sets up. */
  function Initial(): (s: State)
    ensures s.status == Title && !s.cursorLocked && s.mouseResetting
    ensures s.leftScore == 0 && s.rightScore == 0 && s.round == 0 && !s.serveSide
    ensures s.levelSpeed == StartLevelSpeed && s.rightPadMaxSpeed == InitRightPadSpeed
    ensures s.ballX == 0.0 && s.ballY == 0.0 && s.ballSpeedX == 0.0 && s.ballSpeedY == 0.0
    ensures s.leftPadY == 0 && s.rightPadY == 0.0 && s.mouseOffsetY == 0
    ensures s.lastLeftPadSample == 0 && s.lastRightPadSample == 0
  {
    State(0, 0.0, 0.0, 0.0, 0.0, 0.0, StartLevelSpeed, InitRightPadSpeed,
          0, 0, false, 0, true, false, 0, Title, 0, 0)
  }

  /** The two sequential guards that keep the left paddle on the field. */
  function ClampPad(y: int): (r: int)
    ensures LimitTop <= r <= LimitBottom
    ensures LimitTop <= y <= LimitBottom ==> r == y
    ensures y < LimitTop ==> r == LimitTop
    ensures LimitBottom < y ==> r == LimitBottom
  {
    var y := if y < LimitTop then LimitTop else y;
    if y > LimitBottom then LimitBottom else y
  }

  /** The paddle's vertical influence on the ball, kept within [-2, 2]. */
  function ClampSpin(v: real): (r: real)
    ensures -2.0 <= r <= 2.0
    ensures -2.0 <= v <= 2.0 ==> r == v
    ensures v < -2.0 ==> r == -2.0
    ensures 2.0 < v ==> r == 2.0
  {
    Min(2.0, Max(v, -2.0))
  }

  /** The serve angle in degrees: a draw in [0, 90) shifted into the band
      around 0 degrees (towards the right) or around 180 degrees (towards the left). */
  function ServeAngle(serveSide: bool, draw: AngleDraw): (angle: int)
    ensures serveSide ==> -45 <= angle <= 44
    ensures !serveSide ==> 135 <= angle <= 224
    ensures (angle < 90) == serveSide && AngleToDraw(angle) == draw
  {
    if serveSide then draw - 45 else draw + 135
  }

  /** Recovers the random draw from a serve angle. */
  function AngleToDraw(angle: int): (draw: int)
  {
    if angle < 90 then angle + 45 else angle - 135
  }

  /** `LockCursor`: confine the pointer and restart the recentring protocol. */
  function Lock(s: State): (r: State)
    ensures r.cursorLocked && r.mouseResetting
    ensures r.(cursorLocked := s.cursorLocked, mouseResetting := s.mouseResetting) == s
  {
    s.(cursorLocked := true, mouseResetting := true)
  }

  /** `UnlockCursor`: release the pointer. */
  function Unlock(s: State): (r: State)
    ensures !r.cursorLocked
    ensures r.(cursorLocked := s.cursorLocked) == s
  {
    s.(cursorLocked := false)
  }

  /** Whether pointer events drive the left paddle at all. */
  predicate Steering(s: State, focused: bool)
  {
    focused && s.cursorLocked && s.status == Playing
  }

  /** `OnMouseMove`: a two-phase protocol. In the resetting phase the pointer
      is put back on the centre and the event is discarded; in the sampling
      phase the offset from the centre moves the paddle, which is then clamped. */
  function MouseMoved(s: State, focused: bool, pointerY: int): (r: State)
    ensures !Steering(s, focused) ==> r == s
    ensures Steering(s, focused) && s.mouseResetting ==>
              r == s.(mouseResetting := false, mouseOffsetY := 0)
    ensures Steering(s, focused) && !s.mouseResetting ==>
              && r.mouseResetting
              && r.mouseOffsetY == pointerY - PointerCentreY
              && r.leftPadY == ClampPad(s.leftPadY + r.mouseOffsetY)
              && r == s.(mouseResetting := true, mouseOffsetY := r.mouseOffsetY, leftPadY := r.leftPadY)
    ensures LimitTop <= s.leftPadY <= LimitBottom ==> LimitTop <= r.leftPadY <= LimitBottom
  {
    if !focused || !s.cursorLocked || s.status != Playing then s
    else if s.mouseResetting then s.(mouseResetting := false, mouseOffsetY := 0)
    else
      var offset := pointerY - PointerCentreY;
      s.(mouseOffsetY := offset, mouseResetting := true, leftPadY := ClampPad(s.leftPadY + offset))
  }

  /** The serve common to every accepted release: the level speed is reset
      and the ball gets the direction of the serve angle for `side`. */
  function Serve(s: State, side: bool, angleDraw: AngleDraw, dir: int -> Vec): (r: State)
    ensures r.levelSpeed == StartLevelSpeed && r.serveSide == side
    ensures Vec(r.ballSpeedX, r.ballSpeedY) == dir(ServeAngle(side, angleDraw))
    ensures r == s.(levelSpeed := r.levelSpeed, serveSide := r.serveSide,
                    ballSpeedX := r.ballSpeedX, ballSpeedY := r.ballSpeedY)
  {
    var v := dir(ServeAngle(side, angleDraw));
    s.(levelSpeed := StartLevelSpeed, serveSide := side, ballSpeedX := v.x, ballSpeedY := v.y)
  }

  /** `OnMouseUp`: a left-button release outside of play serves. From Title or
      Waiting it starts play; from GameOver or Winning it clears the scores and
      goes back to Title. `dir` is the platform's (cos, sin) of an angle in degrees. */
  function MouseReleased(s: State, button: MouseButton, angleDraw: AngleDraw, sideDraw: bool,
                         dir: int -> Vec): (r: State)
    ensures button != LeftButton || s.status == Playing ==> r == s
  {
    if button != LeftButton then s
    else if s.status == Playing then s
    else
      var served := Serve(s, if s.status == Title then sideDraw else s.serveSide, angleDraw, dir);
      if s.status == Winning || s.status == GameOver then
        served.(leftScore := 0, rightScore := 0, status := Title)
      else
        Lock(served).(status := Playing)
  }

  /** `ProcessAI`: the right paddle takes one step of `rightPadMaxSpeed * dt`
      towards the ball, and is stopped at the wall it is heading for. The
      float.Epsilon test of the source is exact equality. */
  function TrackBall(s: State, dt: Duration): (r: State)
    ensures r == s.(rightPadY := r.rightPadY)
    ensures s.rightPadY == s.ballY ==> r == s
    ensures s.rightPadY > s.ballY ==>
              r.rightPadY == s.rightPadY - s.rightPadMaxSpeed * dt
              || (r.rightPadY == LimitTop as real && s.rightPadY - s.rightPadMaxSpeed * dt < r.rightPadY)
    ensures s.rightPadY < s.ballY ==>
              r.rightPadY == s.rightPadY + s.rightPadMaxSpeed * dt
              || (r.rightPadY == LimitBottom as real && r.rightPadY < s.rightPadY + s.rightPadMaxSpeed * dt)
  {
    if s.rightPadY == s.ballY then s
    else
      var step := s.rightPadMaxSpeed * dt;
      if s.rightPadY - s.ballY > 0.0 then
        var y := s.rightPadY - step;
        s.(rightPadY := if y < LimitTop as real then LimitTop as real else y)
      else
        var y := s.rightPadY + step;
        s.(rightPadY := if y > LimitBottom as real then LimitBottom as real else y)
  }

  /** `n % 2 == 0`; C#'s remainder is zero exactly when Dafny's is. */
  predicate Even(n: int)
  {
    n % 2 == 0
  }

  /** The score of one side. */
  function ScoreOf(s: State, side: Side): (n: int)
  {
    if side == LeftSide then s.leftScore else s.rightScore
  }

  /** The bookkeeping of a point for `scorer`: its tally and the round
      counter rise, and the serve side flips on every even round. */
  function Tally(s: State, scorer: Side): (r: State)
    ensures ScoreOf(r, scorer) == ScoreOf(s, scorer) + 1
    ensures ScoreOf(r, Opponent(scorer)) == ScoreOf(s, Opponent(scorer))
    ensures r.round == s.round + 1
    ensures r.serveSide == (if Even(r.round) then !s.serveSide else s.serveSide)
    ensures r == s.(leftScore := r.leftScore, rightScore := r.rightScore, round := r.round, serveSide := r.serveSide)
  {
    var tallied := if scorer == RightSide then s.(rightScore := s.rightScore + 1)
                   else s.(leftScore := s.leftScore + 1);
    var counted := tallied.(round := s.round + 1);
    if Even(counted.round) then counted.(serveSide := !counted.serveSide) else counted
  }

  function Opponent(side: Side): (other: Side)
    ensures other != side
  {
    if side == LeftSide then RightSide else LeftSide
  }

  /** What follows a point: at 11 the match ends and the ball and paddles stay
      where they are; otherwise play waits for the next serve with ball and
      paddles back in the centre. The pointer is released either way. */
  function AfterPoint(s: State, scorer: Side): (r: State)
    ensures !r.cursorLocked
    ensures ScoreOf(s, scorer) >= PointsToWin ==>
              r == s.(status := if scorer == RightSide then GameOver else Winning, cursorLocked := false)
    ensures ScoreOf(s, scorer) < PointsToWin ==>
              r == s.(status := Waiting, cursorLocked := false,
                      ballX := 0.0, ballY := 0.0, leftPadY := 0, rightPadY := 0.0)
  {
    if ScoreOf(s, scorer) >= PointsToWin then
      Unlock(s.(status := if scorer == RightSide then GameOver else Winning))
    else
      Unlock(s.(ballX := 0.0, ballY := 0.0, status := Waiting)).(leftPadY := 0, rightPadY := 0.0)
  }

  /** A point for `scorer`: the tally, then what follows it. */
  function Score(s: State, scorer: Side): (r: State)
    ensures ScoreOf(r, scorer) == ScoreOf(s, scorer) + 1
    ensures ScoreOf(r, Opponent(scorer)) == ScoreOf(s, Opponent(scorer))
    ensures r.round == s.round + 1 && !r.cursorLocked
    ensures r.status == (if ScoreOf(s, scorer) + 1 >= PointsToWin then
                           (if scorer == RightSide then GameOver else Winning)
                         else Waiting)
  {
    AfterPoint(Tally(s, scorer), scorer)
  }

  /** The ball is on the left paddle's face. */
  predicate LeftPadHit(s: State)
  {
    -PadBackX < s.ballX < -PadFaceX && Abs(s.leftPadY as real - s.ballY) < HalfPadHeight as real
  }

  /** The ball is on the right paddle's face. */
  predicate RightPadHit(s: State)
  {
    PadFaceX < s.ballX < PadBackX && Abs(s.rightPadY - s.ballY) < HalfPadHeight as real
  }

  /** A paddle returns the ball: it is put on the face at `faceX`, its
      horizontal direction reverses and the paddle's motion adds spin. */
  function PadReturn(s: State, faceX: real, spin: real): (r: State)
    ensures r.ballX == faceX && r.ballSpeedX == -s.ballSpeedX
    ensures r.ballSpeedY == ClampSpin(s.ballSpeedY + spin) && -2.0 <= r.ballSpeedY <= 2.0
    ensures r == s.(ballX := faceX, ballSpeedX := r.ballSpeedX, ballSpeedY := r.ballSpeedY)
  {
    s.(ballX := faceX, ballSpeedX := -s.ballSpeedX, ballSpeedY := ClampSpin(s.ballSpeedY + spin))
  }

  /** The top, then the bottom wall: the ball is put back on the wall and its
      vertical direction reverses. */
  function Walls(b: Stepped): (r: Stepped)
    ensures -WallY <= r.state.ballY <= WallY
    ensures -WallY <= b.state.ballY <= WallY ==> r == b
    ensures r.state == b.state.(ballY := r.state.ballY, ballSpeedY := r.state.ballSpeedY)
    ensures b.state.ballY < -WallY ==>
              r.state.ballY == -WallY && r.state.ballSpeedY == -b.state.ballSpeedY && r.beeps == b.beeps + [WallBeep]
    ensures WallY < b.state.ballY ==>
              r.state.ballY == WallY && r.state.ballSpeedY == -b.state.ballSpeedY && r.beeps == b.beeps + [WallBeep]
  {
    var s := b.state;
    var top := if s.ballY < -WallY then Stepped(s.(ballY := -WallY, ballSpeedY := -s.ballSpeedY), b.beeps + [WallBeep])
               else b;
    var t := top.state;
    if t.ballY > WallY then Stepped(t.(ballY := WallY, ballSpeedY := -t.ballSpeedY), top.beeps + [WallBeep])
    else top
  }

  /** The left paddle returns the ball when it is on its face. */
  function LeftPad(s: State, spin: real): (r: Stepped)
    ensures LeftPadHit(s) ==> r == Stepped(PadReturn(s, -PadFaceX, spin), [PadBeep])
    ensures !LeftPadHit(s) ==> r == Stepped(s, [])
  {
    if s.ballX < -PadFaceX && LeftPadHit(s) then Stepped(PadReturn(s, -PadFaceX, spin), [PadBeep])
    else Stepped(s, [])
  }

  /** The right paddle returns the ball when it is on its face. */
  function RightPad(b: Stepped, spin: real): (r: Stepped)
    ensures RightPadHit(b.state) ==> r == Stepped(PadReturn(b.state, PadFaceX, spin), b.beeps + [PadBeep])
    ensures !RightPadHit(b.state) ==> r == b
  {
    if b.state.ballX > PadFaceX && RightPadHit(b.state) then Stepped(PadReturn(b.state, PadFaceX, spin), b.beeps + [PadBeep])
    else b
  }

  /** `ProcessBouce`: sample the paddles for spin, then resolve the left side
      (goal, else paddle), the right side (goal, else paddle), and the walls.
      A goal ends the step at once. The left spin is the integer paddle
      motion divided by 10 with C#'s truncation; the right one is a float. */
  function Bounce(s0: State): (r: Stepped)
    ensures r.state.lastLeftPadSample == s0.leftPadY
    ensures r.state.lastRightPadSample == TruncReal(s0.rightPadY)
  {
    var leftSpin := TruncDiv(s0.leftPadY - s0.lastLeftPadSample, 10) as real;
    var rightSpin := (s0.rightPadY - s0.lastRightPadSample as real) / 10.0;
    var s := Sampled(s0);
    if s.ballX < -PadFaceX && s.ballX < -GoalX then Stepped(Score(s, RightSide), [])
    else
      var left := LeftPad(s, leftSpin);
      if left.state.ballX > PadFaceX && left.state.ballX > GoalX then Stepped(Score(left.state, LeftSide), left.beeps)
      else Walls(RightPad(left, rightSpin))
  }

  /** The paddle samples `ProcessBouce` records before resolving anything. */
  function Sampled(s: State): (r: State)
    ensures r.lastLeftPadSample == s.leftPadY && r.lastRightPadSample == TruncReal(s.rightPadY)
    ensures r.(lastLeftPadSample := s.lastLeftPadSample, lastRightPadSample := s.lastRightPadSample) == s
  {
    s.(lastLeftPadSample := s.leftPadY, lastRightPadSample := TruncReal(s.rightPadY))
  }

  /** The ball's straight-line flight over `dt` seconds. */
  function Fly(s: State, dt: Duration): (r: State)
    ensures r == s.(ballX := r.ballX, ballY := r.ballY)
  {
    s.(ballX := s.ballX + dt * s.levelSpeed * s.ballSpeedX,
       ballY := s.ballY + dt * s.levelSpeed * s.ballSpeedY)
  }

  /** The simulation part of `Render`: only while playing, fly the ball, move
      the AI paddle, then resolve collisions and goals. */
  function Frame(s: State, dt: Duration): (r: Stepped)
    ensures s.status != Playing ==> r == Stepped(s, [])
  {
    if s.status == Playing then Bounce(TrackBall(Fly(s, dt), dt)) else Stepped(s, [])
  }

  /** What the window keeps true between events. */
  predicate Inv(s: State)
  {
    && LimitTop <= s.leftPadY <= LimitBottom
    && LimitTop as real <= s.rightPadY <= LimitBottom as real
    && s.levelSpeed == StartLevelSpeed
    && s.rightPadMaxSpeed == InitRightPadSpeed
    && 0 <= s.leftScore <= PointsToWin && 0 <= s.rightScore <= PointsToWin
    && s.leftScore + s.rightScore <= s.round
    && (s.status == Title ==> s.leftScore == 0 && s.rightScore == 0)
    && (s.status in {Title, Waiting, Playing} ==> s.leftScore < PointsToWin && s.rightScore < PointsToWin)
    && (s.status == GameOver ==> s.rightScore == PointsToWin && s.leftScore < PointsToWin)
    && (s.status == Winning ==> s.leftScore == PointsToWin && s.rightScore < PointsToWin)
    && (s.status == Waiting ==> s.ballX == 0.0 && s.ballY == 0.0 && s.leftPadY == 0 && s.rightPadY == 0.0)
    && (s.cursorLocked <==> s.status == Playing)
  }
}
