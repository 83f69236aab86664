/**
 * The client's game object (public/Game.ts): the mirrored entity maps, the
 * pressed-key flags, the movement-input counter and the log of inputs the
 * server has not yet acknowledged, and the per-frame and per-interval
 * updates of that state. Drawing, the tile background and the DOM are not
 * modelled; mouse angles arrive as inputs.
 */
module ClientGame {
  import opened Wrappers
  import opened Constants
  import opened GameState
  import Camera

  /** One predicted movement: the sequence number sent with it and its displacement. */
  datatype PlayerInput = PlayerInput(sequenceNumber: int, dx: real, dy: real)

  datatype Point = Point(x: real, y: real)

  /** The client's copy of a player; `target` is the last server position plus replayed inputs. */
  datatype FrontPlayer = FrontPlayer(
    x: real, y: real,
    color: Color,
    speed: real,
    radius: real,
    username: string,
    health: int,
    angle: real,
    target: Option<Point>)

  datatype FrontProjectile = FrontProjectile(x: real, y: real, radius: real, color: Color, velocity: Velocity)

  /** A client-side enemy; `health` is optional and nothing in the client sets it. */
  datatype FrontEnemy = FrontEnemy(x: real, y: real, radius: real, color: Color, velocity: Velocity, health: Option<int>)

  datatype Particle = Particle(x: real, y: real, radius: real, color: Color, velocity: Velocity, opacity: real, fades: bool)

  /** The pressed flags of the four movement keys. */
  datatype KeyStates = KeyStates(w: bool, a: bool, s: bool, d: bool)

  /** The `keydown` message sent to the server. */
  datatype KeyDownMessage = KeyDownMessage(keycode: string, sequenceNumber: int)

  /** A movement one pressed key produces in one interval step. */
  datatype Move = Move(keycode: string, dx: real, dy: real)

  /** The moves of one interval step, in the order W, A, S, D. */
  function PressedMoves(keys: KeyStates, speed: real): (moves: seq<Move>)
    ensures |moves| <= 4
    ensures forall m :: m in moves ==>
      || (m.keycode == "KeyW" && keys.w && m.dx == 0.0 && m.dy == -speed)
      || (m.keycode == "KeyA" && keys.a && m.dx == -speed && m.dy == 0.0)
      || (m.keycode == "KeyS" && keys.s && m.dx == 0.0 && m.dy == speed)
      || (m.keycode == "KeyD" && keys.d && m.dx == speed && m.dy == 0.0)
    ensures keys.w ==> Move("KeyW", 0.0, -speed) in moves
    ensures keys.a ==> Move("KeyA", -speed, 0.0) in moves
    ensures keys.s ==> Move("KeyS", 0.0, speed) in moves
    ensures keys.d ==> Move("KeyD", speed, 0.0) in moves
  {
    IfPressed(keys.w, Move("KeyW", 0.0, -speed)) + IfPressed(keys.a, Move("KeyA", -speed, 0.0))
    + IfPressed(keys.s, Move("KeyS", 0.0, speed)) + IfPressed(keys.d, Move("KeyD", speed, 0.0))
  }

  /** The one-move block of a key: its move if the key is pressed, nothing otherwise. */
  function IfPressed(pressed: bool, move: Move): seq<Move> {
    if pressed then [move] else []
  }

  /** Moves listed in the W, A, S, D order of the interval's checks, each key at most once. */
  predicate RanksIncreasing(moves: seq<Move>) {
    forall i, j :: 0 <= i < j < |moves| ==> KeyRank(moves[i].keycode) < KeyRank(moves[j].keycode)
  }

  /**
   * The moves of a step: exactly one per pressed key, in the W, A, S, D order
   * of the interval's checks, so the server applies them in that order.
   */
  lemma PressedMovesInOrder(keys: KeyStates, speed: real)
    ensures |PressedMoves(keys, speed)| == Count(keys.w) + Count(keys.a) + Count(keys.s) + Count(keys.d)
    ensures RanksIncreasing(PressedMoves(keys, speed))
  {
    var w := IfPressed(keys.w, Move("KeyW", 0.0, -speed));
    var a := IfPressed(keys.a, Move("KeyA", -speed, 0.0));
    var s := IfPressed(keys.s, Move("KeyS", 0.0, speed));
    var d := IfPressed(keys.d, Move("KeyD", speed, 0.0));
    BlockRanked(keys.w, Move("KeyW", 0.0, -speed), 0);
    BlockRanked(keys.a, Move("KeyA", -speed, 0.0), 1);
    BlockRanked(keys.s, Move("KeyS", 0.0, speed), 2);
    BlockRanked(keys.d, Move("KeyD", speed, 0.0), 3);
    BlocksInOrder(w, a, s, d);
    assert PressedMoves(keys, speed) == w + a + s + d;
  }

  /** Four blocks of at most one move each, ranked 0, 1, 2 and 3, concatenate in rank order. */
  lemma BlocksInOrder(w: seq<Move>, a: seq<Move>, s: seq<Move>, d: seq<Move>)
    requires |w| <= 1 && |a| <= 1 && |s| <= 1 && |d| <= 1
    requires RanksWithin(w, 0, 1) && RanksWithin(a, 1, 2) && RanksWithin(s, 2, 3) && RanksWithin(d, 3, 4)
    ensures RanksIncreasing(w + a + s + d)
  {
    RanksAppend(w, a, 0, 1, 2);
    RanksAppend(w + a, s, 0, 2, 3);
    RanksAppend(w + a + s, d, 0, 3, 4);
  }

  /** A key's block holds at most its own move, which ranks at the key's place. */
  lemma BlockRanked(pressed: bool, move: Move, rank: int)
    requires KeyRank(move.keycode) == rank
    ensures |IfPressed(pressed, move)| == Count(pressed)
    ensures RanksWithin(IfPressed(pressed, move), rank, rank + 1)
  {
  }

  /** Every move's key ranks in [lo, hi). */
  predicate RanksWithin(moves: seq<Move>, lo: int, hi: int) {
    forall i :: 0 <= i < |moves| ==> lo <= KeyRank(moves[i].keycode) < hi
  }

  /** An ordered run below `mid` followed by an ordered run from `mid` on is ordered. */
  lemma RanksAppend(x: seq<Move>, y: seq<Move>, lo: int, mid: int, hi: int)
    requires |x| <= 1 || RanksIncreasing(x)
    requires |y| <= 1 && lo <= mid <= hi
    requires RanksWithin(x, lo, mid) && RanksWithin(y, mid, hi)
    ensures RanksIncreasing(x + y) && RanksWithin(x + y, lo, hi)
  {
    forall i, j | 0 <= i < j < |x + y|
      ensures KeyRank((x + y)[i].keycode) < KeyRank((x + y)[j].keycode)
    {
      if j < |x| {
        assert (x + y)[i] == x[i] && (x + y)[j] == x[j];
      } else {
        assert (x + y)[j] == y[j - |x|];
        assert i < |x| && (x + y)[i] == x[i];
      }
    }
    forall i | 0 <= i < |x + y|
      ensures lo <= KeyRank((x + y)[i].keycode) < hi
    {
      if i < |x| {
        assert (x + y)[i] == x[i];
      } else {
        assert (x + y)[i] == y[i - |x|];
      }
    }
  }

  function Count(pressed: bool): nat {
    if pressed then 1 else 0
  }

  /** Position of a movement key in the interval's W, A, S, D sequence of checks. */
  function KeyRank(keycode: string): int {
    if keycode == "KeyW" then 0
    else if keycode == "KeyA" then 1
    else if keycode == "KeyS" then 2
    else if keycode == "KeyD" then 3
    else 4
  }

  /** The log entries for `moves` when the counter stood at `n`: numbered n + 1, n + 2, ... */
  function Logged(moves: seq<Move>, n: int): (r: seq<PlayerInput>)
    ensures |r| == |moves|
    ensures forall i :: 0 <= i < |moves| ==> r[i] == PlayerInput(n + i + 1, moves[i].dx, moves[i].dy)
  {
    seq(|moves|, i requires 0 <= i < |moves| => PlayerInput(n + i + 1, moves[i].dx, moves[i].dy))
  }

  /** The keydown messages for `moves` when the counter stood at `n`. */
  function Sent(moves: seq<Move>, n: int): (r: seq<KeyDownMessage>)
    ensures |r| == |moves|
    ensures forall i :: 0 <= i < |moves| ==> r[i] == KeyDownMessage(moves[i].keycode, n + i + 1)
  {
    seq(|moves|, i requires 0 <= i < |moves| => KeyDownMessage(moves[i].keycode, n + i + 1))
  }

  /** Sequence numbers in the log strictly increase. */
  predicate Increasing(log: seq<PlayerInput>) {
    forall i, j :: 0 <= i < j < |log| ==> log[i].sequenceNumber < log[j].sequenceNumber
  }

  /** No logged input carries a sequence number above `counter`. */
  predicate LogBelow(log: seq<PlayerInput>, counter: int) {
    forall i :: 0 <= i < |log| ==> log[i].sequenceNumber <= counter
  }

  /** `code` sets or clears only its own flag; other codes change nothing. */
  function SetKey(keys: KeyStates, code: string, pressed: bool): (r: KeyStates)
    ensures r.w == (if code == "KeyW" then pressed else keys.w)
    ensures r.a == (if code == "KeyA" then pressed else keys.a)
    ensures r.s == (if code == "KeyS" then pressed else keys.s)
    ensures r.d == (if code == "KeyD" then pressed else keys.d)
  {
    if code == "KeyW" then keys.(w := pressed)
    else if code == "KeyS" then keys.(s := pressed)
    else if code == "KeyA" then keys.(a := pressed)
    else if code == "KeyD" then keys.(d := pressed)
    else keys
  }

  /** Releasing a key undoes pressing it: the later event wins. */
  lemma ReleaseAfterPress(keys: KeyStates, code: string)
    ensures SetKey(SetKey(keys, code, true), code, false) == SetKey(keys, code, false)
  {
  }

  /** One frame of smoothing: move halfway towards the target, if there is one. */
  function Smoothed(p: FrontPlayer): (r: FrontPlayer)
    ensures p.target.None? ==> r == p
    ensures p.target.Some? ==>
      && r == p.(x := r.x, y := r.y)
      && r.x - p.target.value.x == (p.x - p.target.value.x) / 2.0
      && r.y - p.target.value.y == (p.y - p.target.value.y) / 2.0
  {
    match p.target
    case None => p
    case Some(t) => p.(x := p.x + (t.x - p.x) * 0.5, y := p.y + (t.y - p.y) * 0.5)
  }

  function Pow2(n: nat): (r: real)
    ensures r >= 1.0
  {
    if n == 0 then 1.0 else 2.0 * Pow2(n - 1)
  }

  function SmoothedTimes(p: FrontPlayer, n: nat): FrontPlayer {
    if n == 0 then p else Smoothed(SmoothedTimes(p, n - 1))
  }

  /**
   * With a fixed target, n frames of smoothing divide the distance to it by
   * 2^n on each axis; a player already at its target stays there.
   */
  lemma {:induction false} SmoothingHalvesDistance(p: FrontPlayer, n: nat)
    requires p.target.Some?
    ensures var q, t := SmoothedTimes(p, n), p.target.value;
      && q.target == p.target
      && q.x - t.x == (p.x - t.x) / Pow2(n)
      && q.y - t.y == (p.y - t.y) / Pow2(n)
  {
    if n > 0 {
      SmoothingHalvesDistance(p, n - 1);
      var t := p.target.value;
      var q := SmoothedTimes(p, n - 1);
      assert (q.x - t.x) / 2.0 == (p.x - t.x) / Pow2(n - 1) / 2.0;
      assert (p.x - t.x) / Pow2(n - 1) / 2.0 == (p.x - t.x) / (2.0 * Pow2(n - 1));
      assert (q.y - t.y) / 2.0 == (p.y - t.y) / Pow2(n - 1) / 2.0;
      assert (p.y - t.y) / Pow2(n - 1) / 2.0 == (p.y - t.y) / (2.0 * Pow2(n - 1));
    }
  }

  /** Particle.update: drift by the velocity, damp it by 0.98, and fade by 0.005 if fading. */
  function UpdatedParticle(p: Particle): (r: Particle)
    ensures r.fades == p.fades && r.radius == p.radius && r.color == p.color
    ensures r.opacity <= p.opacity && (p.fades <==> r.opacity < p.opacity)
  {
    p.(x := p.x + p.velocity.x, y := p.y + p.velocity.y,
       velocity := Velocity(p.velocity.x * 0.98, p.velocity.y * 0.98),
       opacity := if p.fades then p.opacity - 0.005 else p.opacity)
  }

  /** The particles with positive opacity, in their original order. */
  function Visible(ps: seq<Particle>): (r: seq<Particle>)
    ensures |r| <= |ps|
  {
    if ps == [] then []
    else (if ps[0].opacity > 0.0 then [ps[0]] else []) + Visible(ps[1..])
  }

  /**
   * Visible keeps exactly the particles with positive opacity: everything
   * it returns has positive opacity, every such particle of the input is
   * kept, and nothing is duplicated or invented.
   */
  lemma {:induction false} VisibleFilters(ps: seq<Particle>)
    ensures forall i :: 0 <= i < |Visible(ps)| ==> Visible(ps)[i].opacity > 0.0
    ensures forall p :: p in ps && p.opacity > 0.0 ==> p in Visible(ps)
    ensures multiset(Visible(ps)) <= multiset(ps)
  {
    if ps != [] {
      var head: seq<Particle> := if ps[0].opacity > 0.0 then [ps[0]] else [];
      var rest := Visible(ps[1..]);
      VisibleFilters(ps[1..]);
      assert Visible(ps) == head + rest;
      forall i | 0 <= i < |Visible(ps)|
        ensures Visible(ps)[i].opacity > 0.0
      {
        if i >= |head| {
          assert Visible(ps)[i] == rest[i - |head|];
        }
      }
      forall p | p in ps && p.opacity > 0.0
        ensures p in Visible(ps)
      {
        if p != ps[0] {
          assert p in ps[1..];
        }
      }
      assert multiset(Visible(ps)) <= multiset(ps) by {
        assert ps == [ps[0]] + ps[1..];
        assert multiset(ps) == multiset([ps[0]]) + multiset(ps[1..]);
      }
    }
  }

  /** Particles with positive opacity are all kept, in order. */
  lemma {:induction false} VisibleKeepsLive(ps: seq<Particle>)
    requires forall i :: 0 <= i < |ps| ==> ps[i].opacity > 0.0
    ensures Visible(ps) == ps
  {
    if ps != [] {
      VisibleKeepsLive(ps[1..]);
      assert ps == [ps[0]] + ps[1..];
    }
  }

  function UpdatedAll(ps: seq<Particle>): (r: seq<Particle>)
    ensures |r| == |ps| && forall i :: 0 <= i < |ps| ==> r[i] == UpdatedParticle(ps[i])
  {
    seq(|ps|, i requires 0 <= i < |ps| => UpdatedParticle(ps[i]))
  }

  /** Whether enemiesHandler removes the enemy: its health is defined and not positive. */
  predicate Defeated(e: FrontEnemy) {
    e.health.Some? && e.health.value <= 0
  }

  class Game {
    const socketId: string
    const camera: Camera.Camera
    var frontEndPlayers: map<string, FrontPlayer>
    var frontEndProjectiles: map<string, FrontProjectile>
    var particles: seq<Particle>
    var enemies: map<string, FrontEnemy>
    var keys: KeyStates
    var sequenceNumber: int
    /** The pending-input log, shared with the socket handlers of frontend.ts. */
    var playerInputs: seq<PlayerInput>

    /** The pending log is sorted and holds no number the counter has not issued. */
    ghost predicate Valid()
      reads this
    {
      Increasing(playerInputs) && LogBelow(playerInputs, sequenceNumber)
    }

    /** The world is 32·64 = 2048 pixels square; no keys are pressed and the counter is 0. */
    constructor (gameWindowWidth: real, gameWindowHeight: real, socketId: string,
                 frontEndPlayers: map<string, FrontPlayer>, playerInputs: seq<PlayerInput>,
                 frontEndProjectiles: map<string, FrontProjectile>)
      ensures this.socketId == socketId
      ensures this.frontEndPlayers == frontEndPlayers && this.frontEndProjectiles == frontEndProjectiles
      ensures this.playerInputs == playerInputs
      ensures particles == [] && enemies == map[]
      ensures keys == KeyStates(false, false, false, false) && sequenceNumber == 0
      ensures camera.x == 0.0 && camera.y == 0.0
      ensures camera.gameWindowWidth == gameWindowWidth && camera.gameWindowHeight == gameWindowHeight
      ensures camera.gameWidth == 2048.0 && camera.gameHeight == 2048.0
      ensures playerInputs == [] ==> Valid()
    {
      this.socketId := socketId;
      this.frontEndPlayers := frontEndPlayers;
      this.frontEndProjectiles := frontEndProjectiles;
      particles := [];
      enemies := map[];
      camera := new Camera.Camera(gameWindowWidth, gameWindowHeight, 32.0 * 64.0, 32.0 * 64.0);
      keys := KeyStates(false, false, false, false);
      this.playerInputs := playerInputs;
      sequenceNumber := 0;
    }

    /**
     * The body of the input interval of init: with the local player present,
     * each pressed key (W, A, S, D in that order) takes the next sequence
     * number, appends its displacement to the log and sends a keydown
     * message; without the local player nothing happens.
     */
    method InputStep() returns (sent: seq<KeyDownMessage>)
      requires Valid()
      modifies this`sequenceNumber, this`playerInputs
      ensures Valid()
      ensures socketId !in frontEndPlayers ==>
        sent == [] && sequenceNumber == old(sequenceNumber) && playerInputs == old(playerInputs)
      ensures socketId in frontEndPlayers ==>
        var moves := PressedMoves(keys, frontEndPlayers[socketId].speed);
        && sequenceNumber == old(sequenceNumber) + |moves|
        && playerInputs == old(playerInputs) + Logged(moves, old(sequenceNumber))
        && sent == Sent(moves, old(sequenceNumber))
    {
      sent := [];
      if socketId !in frontEndPlayers {
        return;
      }
      var currentPlayer := frontEndPlayers[socketId];
      ghost var n, log := sequenceNumber, playerInputs;
      var speed := currentPlayer.speed;
      ghost var doneW, doneA, doneS, doneD;
      sent, doneW := RecordIfPressed(keys.w, Move("KeyW", 0.0, -speed), sent, n, log, []);
      sent, doneA := RecordIfPressed(keys.a, Move("KeyA", -speed, 0.0), sent, n, log, doneW);
      sent, doneS := RecordIfPressed(keys.s, Move("KeyS", 0.0, speed), sent, n, log, doneA);
      sent, doneD := RecordIfPressed(keys.d, Move("KeyD", speed, 0.0), sent, n, log, doneS);
      assert doneD == PressedMoves(keys, speed) by {
        assert doneW == IfPressed(keys.w, Move("KeyW", 0.0, -speed)) by {
          assert [] + IfPressed(keys.w, Move("KeyW", 0.0, -speed)) == IfPressed(keys.w, Move("KeyW", 0.0, -speed));
        }
      }
    }

    /**
     * One `if (this.keys.k.pressed)` block of the interval: for a pressed key
     * take the next sequence number, log the input and send keydown. `done`
     * is the moves of this step so far, `log` the log before the step.
     */
    method RecordIfPressed(pressed: bool, move: Move, sent: seq<KeyDownMessage>,
                           ghost n: int, ghost log: seq<PlayerInput>, ghost done: seq<Move>)
      returns (sent': seq<KeyDownMessage>, ghost done': seq<Move>)
      requires Valid()
      requires playerInputs == log + Logged(done, n) && sent == Sent(done, n) && sequenceNumber == n + |done|
      modifies this`sequenceNumber, this`playerInputs
      ensures Valid()
      ensures done' == done + IfPressed(pressed, move)
      ensures playerInputs == log + Logged(done', n) && sent' == Sent(done', n) && sequenceNumber == n + |done'|
    {
      sent', done' := sent, done;
      if pressed {
        sequenceNumber := sequenceNumber + 1;
        playerInputs := playerInputs + [PlayerInput(sequenceNumber, move.dx, move.dy)];
        sent' := sent + [KeyDownMessage(move.keycode, sequenceNumber)];
        LoggedSnoc(done, move, n);
        done' := done + [move];
      } else {
        assert done + [] == done;
      }
    }

    /** keyDownHandler: ignored without the local player; otherwise sets the matching flag. */
    method KeyDownHandler(code: string)
      modifies this`keys
      ensures keys == if socketId in frontEndPlayers then SetKey(old(keys), code, true) else old(keys)
    {
      if socketId !in frontEndPlayers {
        return;
      }
      if code == "KeyW" {
        keys := keys.(w := true);
      }
      if code == "KeyS" {
        keys := keys.(s := true);
      }
      if code == "KeyA" {
        keys := keys.(a := true);
      }
      if code == "KeyD" {
        keys := keys.(d := true);
      }
    }

    /** keyUpHandler: clears the matching flag whether or not the player exists. */
    method KeyUpHandler(code: string)
      modifies this`keys
      ensures keys == SetKey(old(keys), code, false)
    {
      if code == "KeyW" {
        keys := keys.(w := false);
      }
      if code == "KeyS" {
        keys := keys.(s := false);
      }
      if code == "KeyA" {
        keys := keys.(a := false);
      }
      if code == "KeyD" {
        keys := keys.(d := false);
      }
    }

    /** The smoothing loop of update: every player with a target moves halfway to it. */
    method SmoothPlayers()
      modifies this`frontEndPlayers
      ensures frontEndPlayers == map id | id in old(frontEndPlayers) :: Smoothed(old(frontEndPlayers)[id])
    {
      ghost var start := frontEndPlayers;
      var remaining := frontEndPlayers.Keys;
      while remaining != {}
        invariant remaining <= start.Keys && frontEndPlayers.Keys == start.Keys
        invariant forall id :: id in start ==>
          frontEndPlayers[id] == if id in remaining then start[id] else Smoothed(start[id])
        decreases remaining
      {
        var id :| id in remaining;
        var frontEndPlayer := frontEndPlayers[id];
        if frontEndPlayer.target.Some? {
          var target := frontEndPlayer.target.value;
          frontEndPlayer := frontEndPlayer.(x := frontEndPlayer.x + (target.x - frontEndPlayer.x) * 0.5);
          frontEndPlayer := frontEndPlayer.(y := frontEndPlayer.y + (target.y - frontEndPlayer.y) * 0.5);
          frontEndPlayers := frontEndPlayers[id := frontEndPlayer];
        }
        remaining := remaining - {id};
      }
    }

    /**
     * particlesHandler: walk the list from the back, splice out each particle
     * whose opacity is at most 0 and update the others in place.
     */
    method ParticlesHandler()
      modifies this`particles
      ensures particles == UpdatedAll(Visible(old(particles)))
    {
      ghost var ps := particles;
      var i := |particles| - 1;
      while i >= 0
        invariant -1 <= i < |ps|
        invariant particles == ps[..i + 1] + UpdatedAll(Visible(ps[i + 1..]))
      {
        ParticleStep(ps, i);
        if particles[i].opacity <= 0.0 {
          particles := particles[..i] + particles[i + 1..];
        } else {
          particles := particles[i := UpdatedParticle(particles[i])];
        }
        i := i - 1;
      }
      assert ps[0..] == ps;
    }

    /** enemiesHandler: delete exactly the enemies whose health is defined and not positive. */
    method EnemiesHandler()
      modifies this`enemies
      ensures enemies == map id | id in old(enemies) && !Defeated(old(enemies)[id]) :: old(enemies)[id]
    {
      ghost var start := enemies;
      var remaining := enemies.Keys;
      while remaining != {}
        invariant remaining <= start.Keys && remaining <= enemies.Keys && enemies.Keys <= start.Keys
        invariant forall id :: id in start ==>
          && (id in enemies <==> id in remaining || !Defeated(start[id]))
          && (id in enemies ==> enemies[id] == start[id])
        decreases remaining
      {
        var id :| id in remaining;
        var enemy := enemies[id];
        if enemy.health.Some? && enemy.health.value <= 0 {
          enemies := enemies - {id};
        }
        remaining := remaining - {id};
      }
      ghost var expected := map id | id in start && !Defeated(start[id]) :: start[id];
      assert enemies.Keys == expected.Keys;
    }

    /**
     * The state changes of one animation frame: centre the camera on the
     * local player (if present), smooth every player, then run the particle
     * and enemy handlers.
     */
    method Update()
      modifies this`frontEndPlayers, this`particles, this`enemies, camera
      ensures socketId in old(frontEndPlayers) ==>
        && camera.x == Camera.ClampOffset(old(frontEndPlayers)[socketId].x, camera.gameWindowWidth, camera.gameWidth)
        && camera.y == Camera.ClampOffset(old(frontEndPlayers)[socketId].y, camera.gameWindowHeight, camera.gameHeight)
      ensures socketId !in old(frontEndPlayers) ==> camera.x == old(camera.x) && camera.y == old(camera.y)
      ensures frontEndPlayers == map id | id in old(frontEndPlayers) :: Smoothed(old(frontEndPlayers)[id])
      ensures particles == UpdatedAll(Visible(old(particles)))
      ensures enemies == map id | id in old(enemies) && !Defeated(old(enemies)[id]) :: old(enemies)[id]
    {
      if socketId in frontEndPlayers {
        var player := frontEndPlayers[socketId];
        camera.Update(player.x, player.y);
      }
      SmoothPlayers();
      ParticlesHandler();
      EnemiesHandler();
    }
  }

  lemma UpdatedAllAppend(a: seq<Particle>, b: seq<Particle>)
    ensures UpdatedAll(a + b) == UpdatedAll(a) + UpdatedAll(b)
  {
  }

  lemma VisibleCons(p: Particle, rest: seq<Particle>)
    ensures Visible([p] + rest) == (if p.opacity > 0.0 then [p] else []) + Visible(rest)
  {
    assert ([p] + rest)[1..] == rest;
  }

  /** The log entries of one more move extend those of the earlier ones. */
  lemma LoggedSnoc(moves: seq<Move>, move: Move, n: int)
    ensures Logged(moves + [move], n) == Logged(moves, n) + [PlayerInput(n + |moves| + 1, move.dx, move.dy)]
    ensures Sent(moves + [move], n) == Sent(moves, n) + [KeyDownMessage(move.keycode, n + |moves| + 1)]
  {
  }

  /** Removing the element between `a` and `b`. */
  lemma RemoveAt(a: seq<Particle>, x: Particle, b: seq<Particle>)
    ensures var s := a + [x] + b; s[..|a|] + s[|a| + 1..] == a + b
  {
    var s := a + [x] + b;
    assert s[..|a|] == a;
    assert s[|a| + 1..] == b;
  }

  /** Replacing the element between `a` and `b`. */
  lemma ReplaceAt(a: seq<Particle>, x: Particle, b: seq<Particle>, v: Particle)
    ensures (a + [x] + b)[|a| := v] == a + [v] + b
  {
  }

  /** One iteration of particlesHandler's backward loop keeps its invariant. */
  lemma ParticleStep(ps: seq<Particle>, i: int)
    requires 0 <= i < |ps|
    ensures var pre := ps[..i + 1] + UpdatedAll(Visible(ps[i + 1..]));
      && pre[i] == ps[i]
      && (ps[i].opacity <= 0.0 ==> pre[..i] + pre[i + 1..] == ps[..i] + UpdatedAll(Visible(ps[i..])))
      && (ps[i].opacity > 0.0 ==> pre[i := UpdatedParticle(ps[i])] == ps[..i] + UpdatedAll(Visible(ps[i..])))
  {
    var rest := ps[i + 1..];
    var done := UpdatedAll(Visible(rest));
    assert ps[..i + 1] == ps[..i] + [ps[i]];
    var pre := ps[..i] + [ps[i]] + done;
    assert Visible(ps[i..]) == (if ps[i].opacity > 0.0 then [ps[i]] else []) + Visible(rest) by {
      assert ps[i..] == [ps[i]] + rest;
      VisibleCons(ps[i], rest);
    }
    if ps[i].opacity <= 0.0 {
      assert pre[..i] + pre[i + 1..] == ps[..i] + done by {
        RemoveAt(ps[..i], ps[i], done);
      }
    } else {
      assert pre[i := UpdatedParticle(ps[i])] == ps[..i] + UpdatedAll([ps[i]] + Visible(rest)) by {
        ReplaceAt(ps[..i], ps[i], done, UpdatedParticle(ps[i]));
        UpdatedAllAppend([ps[i]], Visible(rest));
      }
    }
  }
}
