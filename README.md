# MyPong game logic in Dafny

This project models the simulation and match logic of MyPong's `GameWindow`.
MyPong is a WinForms Pong game: the player moves the left paddle with the mouse,
the computer moves the right one, and the first side to 11 points wins.
The model keeps the window's game fields and leaves out the form, the drawing and
the platform calls.

- `CSharp.dfy` (module `CSharp`): the C# numeric behaviour the logic depends on.
  Integer `/` truncates toward zero (`TruncDiv`), and a float-to-int cast truncates
  toward zero (`TruncReal`). `Abs`, `Min` and `Max` stand for `Math.Abs/Min/Max`.
- `Pong.dfy` (module `Pong`): the window's state as a value (`State`) and the
  match phase `status_` as a datatype (`Status`).
  There is one function per operation the window performs:
  - `MouseMoved` for `OnMouseMove`;
  - `MouseReleased` for `OnMouseUp`;
  - `TrackBall` for `ProcessAI`;
  - `Bounce` for `ProcessBouce`;
  - `Frame` for the playing branch of `Render`.
  
  `Inv` is the invariant the window keeps between events.
- `PongProperties.dfy` (module `PongProperties`): lemmas about single operations,
  and about any sequence of window events (`Run`) or of frames (`Frames`).
- `Window.dfy` (module `Window`): class `GameWindow`, with the source's fields as
  mutable fields and its handlers as methods that update them in place.
  Each method's postcondition equates the new state with the function of module
  `Pong` applied to the old state. The event handlers and `Update` also keep `Inv`.

Inputs the window gets from the platform become parameters:
- whether the window has focus;
- the pointer's row and the released button;
- the seconds since the last paint (`dt`, never negative);
- the two random draws of a serve: `Next(0, 90)` and `NextDouble() < 0.5`;
- the platform's cosine and sine of the serve angle, as a function `dir` from degrees to a `Vec`.

Tones are not played. `Bounce` and `ProcessBounce` return the list of `Beep`s
(698 Hz or 523 Hz, 100 ms) that the source would start.

`ProcessBouce` repeats one scoring block for each side. The class runs that block
as `ScorePoint`, split into `TallyPoint` and `ConcludePoint`. The paddle return is
`ReturnBall`, and the two wall checks are `BounceOffWalls`. The order of the tests
and the early returns are those of the source.

Behaviour of the code worth knowing:
- Confirming on the title screen does not re-centre the ball. The code re-centres
  it only after a point that does not end the match. So a match lost with the ball
  past the left goal line starts the next match with the ball still there. Unless
  the serve carries the ball back over the line, the new match concedes a point on
  its first frame (`RestartKeepsBallPastGoal`). The first serve after the window
  opens does start from the centre (`FirstServeFromCentre`).
- There are five phases: title, waiting, playing, gameover and winning. There is
  no separate phase between rounds.
- The AI paddle is stopped only at the wall it is heading for (`TrackBall`).
- The two spins differ. The left paddle's motion is an integer divided by 10 with
  truncation toward zero. The right paddle's motion is a float divided by 10,
  measured from a truncated sample.
- The paddle samples are taken at collision time, after the ball has flown and the
  AI has moved.

## Model

| member | source | states |
|---|---|---|
| `CSharp.TruncDiv` | MyPong/GameWindow.cs:269 | the quotient of C#'s int division by a positive divisor, rounded toward zero: the remainder has the dividend's sign and is smaller than the divisor |
| `CSharp.TruncReal` | MyPong/GameWindow.cs:272 | `(int)` of a float drops the fractional part toward zero: the result is within 1 of the value and never further from zero |
| `Pong.Initial` | MyPong/GameWindow.cs:78-117 | the constructor's state: title screen, pointer free, recentring armed, scores, round and serve side zero/false, level speed 500, AI speed 300, ball at rest in the centre, both paddles, the pointer offset and the paddle samples at 0 |
| `Pong.ClampPad` | MyPong/GameWindow.cs:175-178 | the left paddle after a pointer sample lies in [-208, 208]: the offset is kept inside the limits and replaced by the nearer limit outside them |
| `Pong.ClampSpin` | MyPong/GameWindow.cs:299 | `Math.Min(2, Math.Max(v, -2))` keeps the vertical speed in [-2, 2] and leaves it alone inside that range |
| `Pong.ServeAngle` | MyPong/GameWindow.cs:192-203 | the serve angle lies in [-45, 44] when the serve side is set and in [135, 224] otherwise; the side and the draw can be read back from the angle |
| `Pong.Lock` | MyPong/GameWindow.cs:120-126 | `LockCursor` captures the pointer and re-arms the recentring phase, and changes no other game field |
| `Pong.Unlock` | MyPong/GameWindow.cs:128-132 | `UnlockCursor` releases the pointer and changes no other game field |
| `Pong.MouseMoved` | MyPong/GameWindow.cs:156-179 | nothing changes unless focused, captured and playing; in the resetting phase only the phase flips and the offset is cleared; otherwise the offset from row 240 moves the paddle, which is then clamped to [-208, 208] (put on the nearer limit when outside), and the phase flips back |
| `Pong.Serve` | MyPong/GameWindow.cs:189-208 | an accepted release resets the level speed to 500, records the serve side and sets the ball's direction to the platform's direction of the serve angle, changing nothing else |
| `Pong.MouseReleased` | MyPong/GameWindow.cs:181-187 | a release of another button, or any release during play, changes nothing |
| `Pong.TrackBall` | MyPong/GameWindow.cs:248-266 | only the right paddle moves; it stays put when level with the ball, otherwise moves towards the ball by exactly speed times dt unless stopped at the wall it is heading for |
| `Pong.Tally` | MyPong/GameWindow.cs:276-280 | a point raises the scorer's tally and the round counter by one, leaves the other tally, and flips the serve side exactly when the new round is even |
| `Pong.AfterPoint` | MyPong/GameWindow.cs:281-293 | after a point the pointer is released; at 11 the phase becomes gameover or winning with ball and paddles untouched, below 11 it becomes waiting with ball and paddles back at 0 |
| `Pong.Score` | MyPong/GameWindow.cs:276-293 | a point raises the scorer's tally and the round by one, keeps the other tally, releases the pointer, and ends the match at 11 (gameover for the right side, winning for the left) or else waits |
| `Pong.LeftPad` | MyPong/GameWindow.cs:295-300 | a ball on the left paddle's face is returned from x = -264 with the paddle tone; otherwise nothing happens |
| `Pong.RightPad` | MyPong/GameWindow.cs:323-328 | a ball on the right paddle's face is returned from x = 264 with the paddle tone after any earlier ones; otherwise nothing happens |
| `Pong.PadReturn` | MyPong/GameWindow.cs:295-300 | a paddle hit puts the ball on the paddle face, reverses its horizontal direction and sets its vertical speed to the old one plus the spin, clamped to [-2, 2] |
| `Pong.Walls` | MyPong/GameWindow.cs:330-339 | afterwards the ball is between the walls at -232 and 232; a ball beyond a wall is put on it with its vertical speed reversed and a wall tone; a ball inside is untouched |
| `Pong.Sampled` | MyPong/GameWindow.cs:269-272 | the resolver records the left paddle and the truncated right paddle as the samples for the next spin, changing nothing else |
| `Pong.Bounce` | MyPong/GameWindow.cs:268-340 | every resolver step, goal or not, leaves the paddle samples at the current left offset and the truncated right offset; the goal, paddle, miss and wall paths are stated by `BounceLeftGoal`, `BounceRightGoal`, `LeftPadReturnsBall`, `RightPadReturnsBall`, `BounceMiss` and `BounceNoGoal` |
| `Pong.Fly` | MyPong/GameWindow.cs:348-349 | the flight of one frame moves only the ball's position |
| `PongProperties.FlyNoTime` | MyPong/GameWindow.cs:348-349 | a flight over zero seconds moves nothing |
| `PongProperties.FlyComposes` | MyPong/GameWindow.cs:348-349 | the ball flies in a straight line at constant speed: a flight of a seconds then b seconds is one flight of a + b seconds |
| `Pong.Frame` | MyPong/GameWindow.cs:347 | outside of play a frame changes nothing and plays no tone |
| `PongProperties.InitialInv` | MyPong/GameWindow.cs:78-117 | the constructor's state satisfies the window invariant |
| `PongProperties.FirstServeFromCentre` | MyPong/GameWindow.cs:181-219 | the first left release after the window opens starts play with the ball and paddles in the centre, level speed 500, the pointer captured and the drawn serve side |
| `PongProperties.Apply` | MyPong/GameWindow.cs:146-220 | one window event: a pointer move changes only the paddle and the pointer protocol fields, never the ball or the match |
| `PongProperties.TrackBallStaysOnField` | MyPong/GameWindow.cs:248-266 | an AI paddle that starts in [-208, 208] stays there and moves at most speed times dt |
| `PongProperties.FrameKeepsBallInside` | MyPong/GameWindow.cs:330-339 | a playing frame that scores no point keeps play going with the ball between the walls |
| `PongProperties.LeftPadReturnsBall` | MyPong/GameWindow.cs:295-300 | a ball on the left paddle's face is sent back from x = -264 with reversed horizontal speed and the paddle tone first; its vertical speed becomes the old one plus the left paddle's motion since the last sample divided by 10 with truncation toward zero, clamped to [-2, 2], before the walls act |
| `PongProperties.RightPadReturnsBall` | MyPong/GameWindow.cs:323-328 | the mirror case for the right paddle at x = 264, with the spin the right paddle's motion since its truncated sample divided by 10 as a float |
| `PongProperties.MouseUpStartsPlay` | MyPong/GameWindow.cs:189-219 | from title or waiting a left release starts play: level speed 500, pointer captured, recentring armed; the serve side is drawn anew only from title, and the serve angle is in its band; ball, paddles, scores, round, pointer offset, paddle samples and AI speed are untouched |
| `PongProperties.MouseUpEndsMatch` | MyPong/GameWindow.cs:189-215 | from gameover or winning a left release clears both scores and returns to title without capturing the pointer; the level speed resets and the serve direction is overwritten, while serve side, round, ball, paddles, pointer offset, paddle samples and AI speed are kept |
| `PongProperties.BounceLeftGoal` | MyPong/GameWindow.cs:274-294 | with the ball past x = -340 the right side scores one point, the round rises, the side flips on even rounds, the pointer is released, no tone plays; at 11 gameover with nothing reset, else waiting with ball and paddles at 0 |
| `PongProperties.BounceRightGoal` | MyPong/GameWindow.cs:302-322 | the mirror case past x = 340: the left side scores and at 11 the phase is winning |
| `PongProperties.BounceNoGoal` | MyPong/GameWindow.cs:295-339 | without a goal the resolver leaves the ball between the walls and the phase, pointer capture, scores, round, serve side, paddles and level speed unchanged |
| `PongProperties.BounceMiss` | MyPong/GameWindow.cs:274-339 | without a goal and without a paddle hit the resolver records the samples and only the walls act: the ball keeps its x and its horizontal speed |
| `PongProperties.BounceOffBottomWall` | MyPong/GameWindow.cs:335-339 | a mid-field ball past the bottom wall is put back on it at 232 with its vertical speed reversed, and exactly one wall tone plays |
| `PongProperties.FrameScoresAtMostOne` | MyPong/GameWindow.cs:347-353 | a frame scores at most one point, never lowers a score, raises the round counter by exactly the points scored and keeps the level speed |
| `PongProperties.MouseMovePreservesInv` | MyPong/GameWindow.cs:156-179 | pointer moves keep the window invariant (paddles on the field, scores in 0..11, phase consistent with scores and pointer capture) |
| `PongProperties.MouseUpPreservesInv` | MyPong/GameWindow.cs:181-220 | button releases keep the window invariant |
| `PongProperties.FramePreservesInv` | MyPong/GameWindow.cs:347-353 | frames keep the window invariant |
| `PongProperties.ApplyPreservesInv` | MyPong/GameWindow.cs:146-220 | every window event keeps the window invariant |
| `PongProperties.RunPreservesInv` | MyPong/Program.cs:21-26 | any sequence of events the message loop delivers keeps the window invariant: paddles within [-208, 208], scores within 0..11, 11 only in the matching terminal phase, pointer captured exactly while playing |
| `PongProperties.FramesNeverLowerScores` | MyPong/GameWindow.cs:347-353 | over any run of frames the scores never decrease and the round counter rises by exactly the points scored |
| `PongProperties.FramesIdleOutsidePlay` | MyPong/GameWindow.cs:347 | outside of play any run of frames leaves the state unchanged, so a finished match stays finished |
| `PongProperties.LevelSpeedNeverIncreases` | MyPong/GameWindow.cs:15-16 | the level speed stays at 500 over any sequence of events; the configured increase is never applied |
| `PongProperties.RecentreThenSteer` | MyPong/GameWindow.cs:164-178 | while steering, a move in the resetting phase is discarded and the next move applies its offset from row 240 to the paddle, clamped to [-208, 208] with the nearer limit outside it, and re-arms the resetting phase |
| `PongProperties.RestartKeepsBallPastGoal` | MyPong/GameWindow.cs:186-219 | after a lost match with the ball past the goal line, two confirms start a new match with the ball still there, and unless the serve heads right its first frame, of any length, gives the right side a point |
| `PongProperties.SpinTruncatesTowardZero` | MyPong/GameWindow.cs:269 | an illustration of `TruncDiv`'s contract: a 15-pixel upward paddle motion gives a spin of -1 under C# division, where Dafny's own division gives -2 |
| `PongProperties.MatchEndsAtEleven` | MyPong/GameWindow.cs:281-285 | from a valid playing state, the frame ends in gameover exactly when the right score is 11, and in winning exactly when the left score is 11 |
| `Window.GameWindow.constructor` | MyPong/GameWindow.cs:62-118 | the new window holds the initial state and the invariant |
| `Window.GameWindow.LockCursor` | MyPong/GameWindow.cs:120-126 | updates the fields as `Pong.Lock` |
| `Window.GameWindow.UnlockCursor` | MyPong/GameWindow.cs:128-132 | updates the fields as `Pong.Unlock` |
| `Window.GameWindow.OnMouseMove` | MyPong/GameWindow.cs:156-179 | updates the fields as `Pong.MouseMoved` and keeps the invariant |
| `Window.GameWindow.OnMouseUp` | MyPong/GameWindow.cs:181-220 | updates the fields as `Pong.MouseReleased` and keeps the invariant |
| `Window.GameWindow.ServeBall` | MyPong/GameWindow.cs:189-208 | updates the fields as `Pong.Serve` |
| `Window.GameWindow.ProcessAI` | MyPong/GameWindow.cs:248-266 | updates the fields as `Pong.TrackBall` |
| `Window.GameWindow.TallyPoint` | MyPong/GameWindow.cs:276-280 | updates the fields as `Pong.Tally` |
| `Window.GameWindow.ConcludePoint` | MyPong/GameWindow.cs:281-293 | updates the fields as `Pong.AfterPoint` |
| `Window.GameWindow.ScorePoint` | MyPong/GameWindow.cs:276-293 | updates the fields as `Pong.Score` |
| `Window.GameWindow.ReturnBall` | MyPong/GameWindow.cs:296-299 | updates the fields as `Pong.PadReturn` |
| `Window.GameWindow.BounceOffWalls` | MyPong/GameWindow.cs:330-339 | updates the fields and the tone list as `Pong.Walls` |
| `Window.GameWindow.ProcessBounce` | MyPong/GameWindow.cs:268-340 | updates the fields as `Pong.Bounce` and returns the tones it would play |
| `Window.GameWindow.Update` | MyPong/GameWindow.cs:347-353 | updates the fields as `Pong.Frame`, returns the tones, and keeps the invariant |

## Left out

- Drawing: everything `Render` draws (MyPong/GameWindow.cs:342-346, 355-410). It is GDI output and changes no game field.
- Timing: `OnPaint`'s stopwatch (MyPong/GameWindow.cs:146-154). The elapsed seconds are the `dt` parameter of `Update` and `Frame`, so `last_elapsed_time_` is not a field.
- Pointer and window calls: `Cursor.Clip`, `Cursor.Show`/`Hide`, `Cursor.Position` and `PointToScreen`. Only the `cursor_locked_` and `mouse_resetting_` flags are kept. `OnLostFocus` and `OnGotFocus` only show or hide the cursor, so they are not modelled. Focus is a parameter of `OnMouseMove`.
- Sound: `PlayBeep` starts `Console.Beep` asynchronously and never waits. The model only returns the tones, in order.
- Randomness: the `Random` draws are parameters. The 1-in-99 "My Pony" window title is left out.
- Trigonometry: `Math.Cos`/`Math.Sin` of the serve angle come from the `dir` parameter. That the serve direction has unit length is not proved.
- Floating point: `float` and `double` values are exact reals, so rounding is not modelled. The `float.Epsilon` test in `ProcessAI` is exact equality, which is what it amounts to for floats.
- Integer width: the model does not wrap 32-bit `int` arithmetic on the left paddle, the scores or the round counter. The paddle stays within ±208 and the pointer's row is a screen coordinate, so no realistic input overflows.
- `right_pad_max_speed_` is a field that is set once and never changed. It is in `State`, and the invariant fixes it at 300.
- `kLevelSpeedIncrese` is declared but never used by the source, so the model does not declare it. `LevelSpeedNeverIncreases` states the consequence.
- `OnKeyUp` (Escape closes the window), fonts and string formats, `ClientYToCentralY` (never called), and MyPong/Program.cs's message loop are window plumbing. The loop is modelled only as an arbitrary sequence of events (`PongProperties.Run`).
