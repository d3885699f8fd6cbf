/** The game session: the single mutable state object of the game and the
    operations that change it, frame by frame and event by event. The
    viewport size, the clock and the random draws are passed in. */
module Session {
  import opened Wrappers
  import opened Input
  import opened Collision
  import opened Spawner

  const BasketW: real := 110.0
  const BasketH: real := 24.0
  /** Distance from the viewport's bottom edge to the basket's top edge. */
  const BasketLift: real := 64.0
  const StartLives: int := 3
  /** Colour and length, in milliseconds, of the basket flash after a bomb. */
  const FlashColor: string := "#ff6b6b"
  const FlashDuration: real := 220.0
  /** Longest frame simulated, and the frame used when no time has passed, in seconds. */
  const MaxFrame: real := 0.05
  const FallbackFrame: real := 0.016

  /** Seconds simulated for a frame at timestamp `ts` (milliseconds) after one
      at `lastTs`: the elapsed time capped at 50 ms, with a nominal frame when
      no time has passed. It is never zero, and it is negative exactly when
      the timestamps run backwards. */
  function FrameDelta(ts: real, lastTs: real): (dt: real)
    ensures dt != 0.0 && dt <= MaxFrame
    ensures lastTs < ts ==> 0.0 < dt
    ensures ts < lastTs ==> dt < 0.0
    ensures ts == lastTs ==> dt == FallbackFrame
    ensures lastTs < ts <= lastTs + 50.0 ==> dt == (ts - lastTs) / 1000.0
    ensures lastTs + 50.0 < ts ==> dt == MaxFrame
    ensures ts < lastTs ==> dt == (ts - lastTs) / 1000.0
  {
    var elapsed := (ts - lastTs) / 1000.0;
    var d := if MaxFrame < elapsed then MaxFrame else elapsed;
    if d == 0.0 then FallbackFrame else d
  }

  /** The lives counter as shown to the player: never below zero. */
  function DisplayedLives(lives: int): (r: nat)
    ensures lives <= r
    ensures 0 <= lives ==> r == lives
    ensures lives < 0 ==> r == 0
  {
    if lives < 0 then 0 else lives
  }

  class Game {
    var playing: bool
    var score: int
    var lives: int
    var basketX: real
    var basketY: real
    /** The falling apples and bombs, oldest first. */
    var items: seq<Item>
    var spawnInterval: real
    var lastSpawn: real
    var baseSpeed: real
    var inputMode: InputMode
    /** Calibration offset subtracted from every tilt sample. */
    var tiltZero: real
    var smoothedTilt: real
    var flashColor: Option<string>
    var flashUntil: real
    // Input variables that live beside the state object.
    var tiltSupported: bool
    var lastTouchX: Option<real>
    /** Whether a pointer is pressed on the canvas. */
    var dragging: bool
    var keyLeft: bool
    var keyRight: bool
    /** Timestamp of the previous animation frame, in milliseconds. */
    var lastTs: real

    /** What every operation keeps: the counters within their bounds, a
        running round has lives left, tilt and difficulty within their
        ranges, and a drag knows where it was. No operation selects keys
        mode, so the arrow-key flags never move the basket. */
    ghost predicate Valid()
      reads this
    {
      && inputMode != Keys
      && 0 <= score && lives <= StartLives && (playing ==> 0 < lives)
      && -TiltLimit <= smoothedTilt <= TiltLimit
      && MinInterval <= spawnInterval <= StartInterval
      && StartSpeed <= baseSpeed <= StartSpeed + MaxSpeedBonus
      && (dragging ==> lastTouchX.Some?)
    }

    /** The state right after a round begins in a viewport `width` wide at time `now`. */
    ghost predicate FreshRound(width: real, now: real)
      reads this
    {
      && playing && score == 0 && lives == StartLives && items == []
      && spawnInterval == StartInterval && baseSpeed == StartSpeed && lastSpawn == now
      && basketX == width / 2.0 - BasketW / 2.0
    }

    /** The state before any round: the initial state object, after the first
        resize has placed the basket row in a viewport `clientHeight` tall. */
    constructor (clientHeight: real)
      ensures Valid()
      ensures !playing && score == 0 && lives == StartLives && items == []
      ensures basketX == 0.0 && basketY == clientHeight - BasketLift
      ensures spawnInterval == StartInterval && lastSpawn == 0.0 && baseSpeed == StartSpeed
      ensures inputMode == Tilt && tiltZero == 0.0 && smoothedTilt == 0.0
      ensures flashColor == None && flashUntil == 0.0
      ensures !tiltSupported && lastTouchX == None && !dragging && !keyLeft && !keyRight && lastTs == 0.0
    {
      playing, score, lives := false, 0, StartLives;
      basketX, basketY := 0.0, clientHeight - BasketLift;
      items := [];
      spawnInterval, lastSpawn, baseSpeed := StartInterval, 0.0, StartSpeed;
      inputMode, tiltZero, smoothedTilt := Tilt, 0.0, 0.0;
      flashColor, flashUntil := None, 0.0;
      tiltSupported, lastTouchX, dragging := false, None, false;
      keyLeft, keyRight := false, false;
      lastTs := 0.0;
    }

    /** A new viewport height moves the basket row with it. */
    method Resize(clientHeight: real)
      modifies this`basketY
      ensures basketY == clientHeight - BasketLift
    {
      basketY := clientHeight - BasketLift;
    }

    /** Begin a round: counters, items and difficulty back to their start
        values, the spawn clock restarted and the basket centred. */
    method ResetGame(width: real, now: real)
      requires Valid()
      modifies this`playing, this`score, this`lives, this`items, this`spawnInterval,
               this`baseSpeed, this`lastSpawn, this`basketX
      ensures Valid() && FreshRound(width, now)
      ensures BasketW <= width ==> 0.0 <= basketX <= width - BasketW
    {
      playing := true;
      score := 0;
      lives := StartLives;
      items := [];
      spawnInterval := StartInterval;
      baseSpeed := StartSpeed;
      lastSpawn := now;
      basketX := width / 2.0 - BasketW / 2.0;
    }

    /** Stop the simulation; the score is left as it is. */
    method EndGame()
      modifies this`playing
      ensures !playing
    {
      playing := false;
    }

    /** The start button: tilt input when the sensor permission is granted,
        touch input otherwise, then a new round. */
    method StartWithTilt(granted: bool, width: real, now: real)
      requires Valid()
      modifies this`inputMode, this`tiltSupported, this`playing, this`score, this`lives,
               this`items, this`spawnInterval, this`baseSpeed, this`lastSpawn, this`basketX
      ensures Valid() && FreshRound(width, now)
      ensures inputMode == if granted then Tilt else Touch
      ensures tiltSupported == (granted || old(tiltSupported))
    {
      inputMode := Tilt;
      if granted {
        tiltSupported := true;
      } else {
        inputMode := Touch;
      }
      ResetGame(width, now);
    }

    /** The touch-mode button: touch input, then a new round. */
    method StartWithTouch(width: real, now: real)
      requires Valid()
      modifies this`inputMode, this`playing, this`score, this`lives,
               this`items, this`spawnInterval, this`baseSpeed, this`lastSpawn, this`basketX
      ensures Valid() && FreshRound(width, now)
      ensures inputMode == Touch
    {
      inputMode := Touch;
      ResetGame(width, now);
    }

    /** Append the item that the draws `d` describe. */
    method SpawnDrop(d: Draws, width: real)
      modifies this`items
      ensures items == old(items) + [NewItem(d, baseSpeed, width)]
    {
      items := items + [NewItem(d, baseSpeed, width)];
    }

    /** A device-orientation sample: a non-numeric one is ignored; a numeric one
        marks tilt as working and pulls the smoothed tilt towards the
        calibrated, capped sample. */
    method HandleOrientation(gamma: Option<real>)
      requires Valid()
      modifies this`tiltSupported, this`smoothedTilt
      ensures Valid()
      ensures gamma == None ==> tiltSupported == old(tiltSupported) && smoothedTilt == old(smoothedTilt)
      ensures gamma != None ==>
                tiltSupported && smoothedTilt == Smooth(old(smoothedTilt), CapTilt(gamma.value, tiltZero))
    {
      if gamma == None {
        return;
      }
      tiltSupported := true;
      var raw := gamma.value - tiltZero;
      var capped := Clamp(raw, -TiltLimit, TiltLimit);
      smoothedTilt := smoothedTilt + TiltAlpha * (capped - smoothedTilt);
    }

    /** Make the current orientation the new level: the smoothed tilt moves
        into the offset, so offset plus tilt is unchanged. */
    method Calibrate()
      requires Valid()
      modifies this`tiltZero, this`smoothedTilt
      ensures Valid()
      ensures tiltZero + smoothedTilt == old(tiltZero + smoothedTilt)
      ensures smoothedTilt == 0.0 && tiltZero == old(tiltZero) + old(smoothedTilt)
    {
      tiltZero := tiltZero + smoothedTilt;
      smoothedTilt := 0.0;
    }

    /** A pointer presses on the canvas. */
    method PointerDown(clientX: real)
      requires Valid()
      modifies this`dragging, this`lastTouchX
      ensures Valid()
      ensures dragging && lastTouchX == Some(clientX)
    {
      dragging := true;
      lastTouchX := Some(clientX);
    }

    /** A pointer moves: while dragging, the basket follows it one to one and
        is not clamped until the next frame, whatever the input mode. */
    method PointerMove(clientX: real)
      requires Valid()
      modifies this`basketX, this`lastTouchX
      ensures Valid()
      ensures !dragging ==> basketX == old(basketX) && lastTouchX == old(lastTouchX)
      ensures dragging ==> basketX == old(basketX) + (clientX - old(lastTouchX).value)
                           && lastTouchX == Some(clientX)
    {
      if !dragging {
        return;
      }
      var dx := clientX - lastTouchX.value;
      basketX := basketX + dx;
      lastTouchX := Some(clientX);
    }

    /** The pointer is released or the gesture is cancelled. */
    method PointerRelease()
      requires Valid()
      modifies this`dragging, this`lastTouchX
      ensures Valid()
      ensures !dragging && lastTouchX == None
    {
      dragging := false;
      lastTouchX := None;
    }

    /** A key goes down: the steering keys set their flag; other keys change nothing. */
    method KeyDown(key: string)
      modifies this`keyLeft, this`keyRight
      ensures keyLeft == (old(keyLeft) || IsLeftKey(key))
      ensures keyRight == (old(keyRight) || IsRightKey(key))
    {
      if IsLeftKey(key) { keyLeft := true; }
      if IsRightKey(key) { keyRight := true; }
    }

    /** A key comes up: the steering keys clear their flag. */
    method KeyUp(key: string)
      modifies this`keyLeft, this`keyRight
      ensures keyLeft == (old(keyLeft) && !IsLeftKey(key))
      ensures keyRight == (old(keyRight) && !IsRightKey(key))
    {
      if IsLeftKey(key) { keyLeft := false; }
      if IsRightKey(key) { keyRight := false; }
    }

    /** The basket's displacement over a frame of `dt` seconds under the current input. */
    function Shift(dt: real): real
      reads this`inputMode, this`tiltSupported, this`smoothedTilt, this`keyLeft, this`keyRight
    {
      BasketShift(inputMode, tiltSupported, smoothedTilt, keyLeft, keyRight, dt)
    }

    /** Move the basket for one frame, then clamp it into the viewport: for
        every input mode it ends inside `[0, width - BasketW]` when it fits. */
    method UpdateBasket(dt: real, width: real)
      modifies this`basketX
      ensures basketX == Clamp(old(basketX) + Shift(dt), 0.0, width - BasketW)
      ensures BasketW <= width ==> 0.0 <= basketX <= width - BasketW
    {
      var x := basketX;
      if inputMode == Tilt && tiltSupported {
        var vx := smoothedTilt / TiltLimit;
        x := x + vx * MaxTiltSpeed * dt;
      } else if inputMode == Touch {
        // moved by pointer events instead
      } else if inputMode == Keys {
        if keyLeft { x := x - KeySpeed * dt; }
        if keyRight { x := x + KeySpeed * dt; }
      }
      assert x == basketX + Shift(dt);
      basketX := Clamp(x, 0.0, width - BasketW);
    }

    /** Colour the basket `color` until `duration` milliseconds after `now`. */
    method FlashBasket(color: string, duration: real, now: real)
      modifies this`flashColor, this`flashUntil
      ensures flashColor == Some(color) && flashUntil == now + duration
    {
      flashColor := Some(color);
      flashUntil := now + duration;
    }

    /** Whether this frame spawns an item at time `now`: more than the ramped
        interval has passed since the last spawn. */
    function SpawnDue(now: real): bool
      reads this`lastSpawn, this`spawnInterval, this`score
    {
      now - lastSpawn > NextInterval(spawnInterval, score)
    }

    /** The items the collision pass of this frame sees: the current ones and
        the new one when a spawn is due, each moved by one frame. */
    function Pool(dt: real, now: real, d: Draws, width: real): seq<Item>
      reads this`items, this`lastSpawn, this`spawnInterval, this`score
    {
      AdvanceAll(items + (if SpawnDue(now) then [NewItem(d, BaseSpeed(score), width)] else []), dt)
    }

    /** One frame of the falling items: ramp the difficulty, spawn when due,
        move every item, then resolve each one exactly once against the basket.
        Apples caught score, bombs caught and apples missed cost a life, bombs
        missed are harmless; the round ends once lives reach zero, and the
        items after that point in the pass are still resolved. */
    method UpdateApples(dt: real, now: real, d: Draws, width: real, height: real)
      requires Valid()
      modifies this`spawnInterval, this`baseSpeed, this`lastSpawn, this`items, this`score,
               this`lives, this`playing, this`flashColor, this`flashUntil
      ensures Valid()
      ensures spawnInterval == NextInterval(old(spawnInterval), old(score))
      ensures baseSpeed == BaseSpeed(old(score))
      ensures lastSpawn == if old(SpawnDue(now)) then now else old(lastSpawn)
      ensures var pool, b := old(Pool(dt, now, d, width)), Basket(basketX, basketY, BasketW, BasketH);
              && items == Survivors(pool, b, height)
              && score == old(score) + ScoreGain(pool, b, height)
              && lives == old(lives) - LivesLost(pool, b, height)
              && playing == (old(playing) && !EndsGame(old(lives), LivesLost(pool, b, height)))
              && (flashColor, flashUntil)
                 == if Tally(pool, b, height, Bomb, Caught) > 0 then (Some(FlashColor), now + FlashDuration)
                    else (old(flashColor), old(flashUntil))
    {
      ghost var pool0 := Pool(dt, now, d, width);
      NextIntervalInRange(spawnInterval, score);
      spawnInterval := NextInterval(spawnInterval, score);
      baseSpeed := BaseSpeed(score);
      if now - lastSpawn > spawnInterval {
        SpawnDrop(d, width);
        lastSpawn := now;
      }
      MoveItems(dt);
      assert items == pool0;
      ResolveCollisions(height, now);
    }

    /** Every item falls by its speed plus gravity and turns by its spin. */
    method MoveItems(dt: real)
      modifies this`items
      ensures items == AdvanceAll(old(items), dt)
    {
      var i := 0;
      while i < |items|
        modifies this`items
        invariant 0 <= i <= |items| == |old(items)|
        invariant forall j :: 0 <= j < i ==> items[j] == Advance(old(items)[j], dt)
        invariant forall j :: i <= j < |items| ==> items[j] == old(items)[j]
      {
        items := items[i := Advance(items[i], dt)];
        i := i + 1;
      }
    }

    /** The collision and cleanup pass over the current items, against the
        basket where it stands now. */
    method ResolveCollisions(height: real, now: real)
      requires Valid()
      modifies this`items, this`score, this`lives, this`playing, this`flashColor, this`flashUntil
      ensures Valid()
      ensures var pool, b := old(items), Basket(basketX, basketY, BasketW, BasketH);
              && items == Survivors(pool, b, height)
              && score == old(score) + ScoreGain(pool, b, height)
              && lives == old(lives) - LivesLost(pool, b, height)
              && playing == (old(playing) && !EndsGame(old(lives), LivesLost(pool, b, height)))
              && (flashColor, flashUntil)
                 == if Tally(pool, b, height, Bomb, Caught) > 0 then (Some(FlashColor), now + FlashDuration)
                    else (old(flashColor), old(flashUntil))
    {
      var basket := Basket(basketX, basketY, BasketW, BasketH);
      var pool := items;
      var kept: seq<Item> := [];
      var i := 0;
      while i < |pool|
        modifies this`score, this`lives, this`playing, this`flashColor, this`flashUntil
        invariant 0 <= i <= |pool|
        invariant kept == Survivors(pool[..i], basket, height)
        invariant score == old(score) + ScoreGain(pool[..i], basket, height)
        invariant lives == old(lives) - LivesLost(pool[..i], basket, height)
        invariant playing == (old(playing) && !EndsGame(old(lives), LivesLost(pool[..i], basket, height)))
        invariant Tally(pool[..i], basket, height, Bomb, Caught) > 0 ==>
                    flashColor == Some(FlashColor) && flashUntil == now + FlashDuration
        invariant Tally(pool[..i], basket, height, Bomb, Caught) == 0 ==>
                    flashColor == old(flashColor) && flashUntil == old(flashUntil)
      {
        var a := pool[i];
        PrefixStep(pool, i, basket, height);
        var keep := ResolveItem(a, basket, height, now);
        if keep {
          kept := kept + [a];
        }
        i := i + 1;
      }
      assert pool[..i] == pool;
      items := kept;
    }

    /** The fate of one item in the pass: a caught apple scores; a caught bomb
        costs a life and flashes the basket; an apple past the bottom costs a
        life; a bomb past the bottom does nothing. A lost life that leaves
        none ends the round. The result says whether the item stays. */
    method ResolveItem(a: Item, basket: Basket, height: real, now: real) returns (keep: bool)
      modifies this`score, this`lives, this`playing, this`flashColor, this`flashUntil
      ensures keep == (OutcomeOf(a, basket, height) == Kept)
      ensures score == old(score) + (if a.kind == Apple && Hits(a, basket) then 1 else 0)
      ensures var penalty := OutcomeOf(a, basket, height) == (if a.kind == Bomb then Caught else FellOff);
              && lives == old(lives) - (if penalty then 1 else 0)
              && playing == (old(playing) && !(penalty && lives <= 0))
      ensures a.kind == Bomb && Hits(a, basket) ==>
                flashColor == Some(FlashColor) && flashUntil == now + FlashDuration
      ensures !(a.kind == Bomb && Hits(a, basket)) ==>
                flashColor == old(flashColor) && flashUntil == old(flashUntil)
    {
      keep := false;
      if Hits(a, basket) {
        if a.kind == Apple {
          score := score + 1;
        } else {
          lives := lives - 1;
          FlashBasket(FlashColor, FlashDuration, now);
          if lives <= 0 { EndGame(); }
        }
      } else if a.y > height + OffscreenMargin {
        if a.kind == Apple {
          lives := lives - 1;
          if lives <= 0 { EndGame(); }
        }
      } else {
        keep := true;
      }
    }

    /** One animation frame at timestamp `ts` (milliseconds): the frame time is
        derived from the previous timestamp; a running round moves the basket
        and then the items, and a stopped one changes nothing else. */
    method Frame(ts: real, now: real, d: Draws, width: real, height: real)
      requires Valid()
      modifies this`lastTs, this`basketX, this`spawnInterval, this`baseSpeed, this`lastSpawn,
               this`items, this`score, this`lives, this`playing, this`flashColor, this`flashUntil
      ensures Valid()
      ensures lastTs == ts
      ensures !old(playing) ==>
                && basketX == old(basketX) && items == old(items) && score == old(score)
                && lives == old(lives) && !playing && spawnInterval == old(spawnInterval)
                && baseSpeed == old(baseSpeed) && lastSpawn == old(lastSpawn)
                && flashColor == old(flashColor) && flashUntil == old(flashUntil)
      ensures old(playing) ==>
                var dt := FrameDelta(ts, old(lastTs));
                var pool, b := old(Pool(dt, now, d, width)), Basket(basketX, basketY, BasketW, BasketH);
                && basketX == Clamp(old(basketX) + old(Shift(dt)), 0.0, width - BasketW)
                && items == Survivors(pool, b, height)
                && score == old(score) + ScoreGain(pool, b, height)
                && lives == old(lives) - LivesLost(pool, b, height)
                && playing == !EndsGame(old(lives), LivesLost(pool, b, height))
                && spawnInterval == NextInterval(old(spawnInterval), old(score))
                && baseSpeed == BaseSpeed(old(score))
                && lastSpawn == (if old(SpawnDue(now)) then now else old(lastSpawn))
                && (flashColor, flashUntil)
                   == if Tally(pool, b, height, Bomb, Caught) > 0 then (Some(FlashColor), now + FlashDuration)
                      else (old(flashColor), old(flashUntil))
    {
      var dt := FrameDelta(ts, lastTs);
      lastTs := ts;
      if playing {
        UpdateBasket(dt, width);
        UpdateApples(dt, now, d, width, height);
      }
    }
  }

  /** Calibrating and then holding the device in the same pose: the pose is
      the new level, so the next sample, which reads the old offset plus the
      smoothed tilt at calibration, leaves the smoothed tilt at zero. */
  method CalibrateThenHoldPose(g: Game)
    requires g.Valid()
    modifies g
    ensures g.Valid()
    ensures g.tiltZero == old(g.tiltZero + g.smoothedTilt)
    ensures g.smoothedTilt == 0.0 && g.tiltSupported
  {
    var pose := g.tiltZero + g.smoothedTilt;
    g.Calibrate();
    g.HandleOrientation(Some(pose));
  }
}
