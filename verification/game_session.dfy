/**
 * One game session of the whack-a-cube server (the `GameSession` class of
 * server.js), as an immutable record with pure transitions.
 *
 * The class's two timer handles become `Timer` values; a timer going off is
 * an explicit event, and the random draws, positions and clock readings the
 * callbacks would take become event inputs. Broadcasts are returned as a
 * list of `Message`s instead of being written to a socket.
 */
module GameSession {
  import opened Wrappers
  import Decimal

  type SocketId = string
  type SessionId = string

  // The per-session settings, fixed at construction (milliseconds).
  const CubeSpawnDelayMin: real := 3000.0
  const CubeSpawnDelayMax: real := 5000.0
  const CubeStayDuration: real := 2000.0

  /** Lives every player starts with. */
  const StartingLives: int := 3

  /** A cube is red when its uniform draw in [0, 1) exceeds this. */
  const RedThreshold: real := 0.7

  datatype Player = Player(id: SocketId, name: string, score: int, lives: int, isGameOver: bool)

  /** The live cube; `hitBy` is the claim field, empty until a hit resolves it. */
  datatype Cube = Cube(isRed: bool, x: real, z: real, spawnTime: int, hitBy: Option<SocketId>)

  /**
   * A timer handle field and the timers behind it. Assigning a fresh
   * `setTimeout` to the field does not cancel the timer it held before:
   * that timer stays pending but can no longer be cancelled. `armed` says
   * the field names a pending timer; `orphans` counts the pending timers no
   * field names any more.
   */
  datatype Timer = Timer(armed: bool, orphans: nat) {

    /** Number of callbacks still due to run. */
    function Pending(): nat {
      orphans + (if armed then 1 else 0)
    }

    /** `field = setTimeout(...)`: one more pending timer, now the tracked one. */
    function Arm(): (t: Timer)
      ensures t.armed && t.Pending() == Pending() + 1
    {
      Timer(true, orphans + if armed then 1 else 0)
    }

    /** `clearTimeout(field); field = null`: cancels only the tracked timer. */
    function Clear(): (t: Timer)
      ensures !t.armed && t.orphans == orphans
      ensures t.Pending() == if armed then Pending() - 1 else Pending()
    {
      Timer(false, orphans)
    }

    /** Whether a timer of the chosen kind (tracked or orphaned) is pending. */
    predicate CanFire(tracked: bool) {
      if tracked then armed else orphans > 0
    }

    /** A pending timer runs; the field keeps a stale handle, which is harmless. */
    function Fire(tracked: bool): (t: Timer)
      requires CanFire(tracked)
      ensures t.Pending() == Pending() - 1
      ensures tracked ==> !t.armed && t.orphans == orphans
      ensures !tracked ==> t.armed == armed && t.orphans == orphans - 1
    {
      if tracked then Timer(false, orphans) else Timer(armed, orphans - 1)
    }
  }

  const NoTimer: Timer := Timer(false, 0)

  /**
   * Clearing a handle right after re-arming it cancels only the new timer:
   * a timer the handle named before stays pending.
   */
  lemma ClearCancelsOnlyLatest(t: Timer)
    ensures t.Arm().Clear().Pending() == t.Pending()
    ensures t.armed ==> t.Arm().Clear().Pending() > 0
  {
  }

  /** `players` is the insertion-ordered map, as a list of records keyed by `id`. */
  datatype Session = Session(id: SessionId, players: seq<Player>, cube: Option<Cube>, spawn: Timer, hide: Timer)

  /** Who a message goes to: every socket in a session's room, or one socket. */
  datatype Audience = Room(sessionId: SessionId) | To(socketId: SocketId)

  datatype Event =
    | SessionCreated(sessionId: SessionId)
    | SessionJoined(socketId: SocketId, players: seq<Player>)
    | PlayersUpdate(players: seq<Player>)
    | CubeSpawned(cube: Cube)
    | CubeHidden
    | ScoreUpdate(score: int, lives: int, isGameOver: bool)
    | Error(message: string)

  datatype Message = Message(to: Audience, event: Event)

  /** A session after a transition, with the messages the transition sent. */
  datatype Outcome = Outcome(session: Session, out: seq<Message>)

  // ---------------------------------------------------------------- roster

  ghost predicate UniqueIds(ps: seq<Player>) {
    forall i, j :: 0 <= i < |ps| && 0 <= j < |ps| && ps[i].id == ps[j].id ==> i == j
  }

  predicate HasId(ps: seq<Player>, id: SocketId) {
    exists i :: 0 <= i < |ps| && ps[i].id == id
  }

  /** Position of the player with key `id`, if any (the first, should there be several). */
  function IndexOf(ps: seq<Player>, id: SocketId): (r: Option<nat>)
    ensures r.Some? ==> r.value < |ps| && ps[r.value].id == id
    ensures r.Some? ==> forall j :: 0 <= j < r.value ==> ps[j].id != id
    ensures r.None? <==> !HasId(ps, id)
    decreases |ps|
  {
    if |ps| == 0 then None
    else if ps[0].id == id then Some(0)
    else match IndexOf(ps[1..], id)
      case None => assert forall j :: 1 <= j < |ps| ==> ps[1..][j - 1] == ps[j]; None
      case Some(k) => Some(k + 1)
  }

  /** `players.get(id)`. */
  function Find(ps: seq<Player>, id: SocketId): (r: Option<Player>)
    ensures r.Some? ==> r.value in ps && r.value.id == id
    ensures r.None? <==> !HasId(ps, id)
    ensures UniqueIds(ps) ==> forall i :: 0 <= i < |ps| && ps[i].id == id ==> r == Some(ps[i])
  {
    match IndexOf(ps, id)
    case None => None
    case Some(k) => Some(ps[k])
  }

  /** `players.set(p.id, p)`: replaces in place when the key exists, appends otherwise. */
  function Upsert(ps: seq<Player>, p: Player): (r: seq<Player>)
    requires UniqueIds(ps)
    ensures UniqueIds(r)
    ensures HasId(ps, p.id) ==> |r| == |ps|
    ensures !HasId(ps, p.id) ==> r == ps + [p]
    ensures Find(r, p.id) == Some(p)
    ensures forall i :: 0 <= i < |ps| && ps[i].id != p.id ==> i < |r| && r[i] == ps[i]
    ensures forall i :: 0 <= i < |r| ==> r[i] == p || (i < |ps| && r[i] == ps[i])
    ensures forall id :: id != p.id ==> Find(r, id) == Find(ps, id)
  {
    match IndexOf(ps, p.id)
    case None =>
      var r := ps + [p];
      assert r[|ps|] == p;
      FindByMembers(ps, r, p.id);
      r
    case Some(k) =>
      var r := ps[k := p];
      assert r[k] == p;
      assert forall q: Player :: q.id != p.id ==> (q in r <==> q in ps) by {
        forall q: Player | q.id != p.id
          ensures q in r <==> q in ps
        {
          if q in r {
            var j :| 0 <= j < |r| && r[j] == q;
            assert j != k;
          }
          if q in ps {
            var j :| 0 <= j < |ps| && ps[j] == q;
            assert j != k && r[j] == q;
          }
        }
      }
      FindByMembers(ps, r, p.id);
      r
  }

  /** `players.delete(id)`: the others stay, in their order. */
  function Delete(ps: seq<Player>, id: SocketId): (r: seq<Player>)
    requires UniqueIds(ps)
    ensures UniqueIds(r)
    ensures !HasId(r, id)
    ensures HasId(ps, id) ==> |r| == |ps| - 1
    ensures !HasId(ps, id) ==> r == ps
    ensures forall q :: q in r <==> q in ps && q.id != id
    ensures HasId(ps, id) ==> exists k :: 0 <= k < |ps| && ps[k].id == id && r == ps[..k] + ps[k + 1..]
    ensures forall other :: other != id ==> Find(r, other) == Find(ps, other)
  {
    match IndexOf(ps, id)
    case None => ps
    case Some(k) =>
      var r := ps[..k] + ps[k + 1..];
      assert forall i :: 0 <= i < |r| ==> r[i] == if i < k then ps[i] else ps[i + 1];
      FindByMembers(ps, r, id);
      r
  }

  /**
   * Two rosters holding the same records apart from those under `key` agree
   * on every lookup of another key.
   */
  lemma FindByMembers(ps: seq<Player>, r: seq<Player>, key: SocketId)
    requires UniqueIds(ps) && UniqueIds(r)
    requires forall q: Player :: q.id != key ==> (q in r <==> q in ps)
    ensures forall id :: id != key ==> Find(r, id) == Find(ps, id)
  {
    forall id | id != key
      ensures Find(r, id) == Find(ps, id)
    {
      match Find(ps, id)
      case Some(x) =>
        var j :| 0 <= j < |r| && r[j] == x;
      case None =>
        assert forall j :: 0 <= j < |r| ==> r[j] in ps || r[j].id == key;
    }
  }

  // ------------------------------------------------------------- players

  /** The source's falsy test on the supplied name: absent or empty. */
  predicate IsFalsy(name: Option<string>) {
    name.None? || name.value == ""
  }

  /**
   * `name || \`Player ${size + 1}\``: a supplied name is kept; otherwise the
   * name is "Player " followed by the decimal digits, without leading
   * zeros, of one more than the roster size.
   */
  function DisplayName(name: Option<string>, size: nat): (r: string)
    ensures !IsFalsy(name) ==> r == name.value
    ensures IsFalsy(name) ==>
      && |r| > 7 && r[..7] == "Player "
      && Decimal.AllDigits(r[7..])
      && (|r| > 8 ==> r[7] != '0')
      && Decimal.Read(r[7..]) == size + 1
  {
    if IsFalsy(name) then
      var digits := Decimal.Show(size + 1);
      Decimal.ReadShow(size + 1);
      var r := "Player " + digits;
      assert r[7..] == digits;
      r
    else name.value
  }

  /** A player record the rules can produce. */
  predicate PlayerOk(p: Player) {
    && 0 <= p.lives <= StartingLives
    && p.score >= 0
    && (p.isGameOver <==> p.lives == 0)
  }

  /** The invariant every session keeps between callbacks. */
  ghost predicate Valid(s: Session) {
    && UniqueIds(s.players)
    && (forall i :: 0 <= i < |s.players| ==> PlayerOk(s.players[i]))
    && (s.cube.Some? ==> s.cube.value.hitBy.None?)
  }

  /** `new GameSession(id)`. */
  function NewSession(id: SessionId): (s: Session)
    ensures Valid(s) && s.id == id
    ensures |s.players| == 0 && s.cube.None?
    ensures s.spawn.Pending() == 0 && s.hide.Pending() == 0
  {
    Session(id, [], None, NoTimer, NoTimer)
  }

  /**
   * `getPlayers()`: the values of the roster map in insertion order — one
   * entry per key, each the record stored under its id.
   */
  function GetPlayers(s: Session): (r: seq<Player>)
    ensures |r| == |s.players|
    ensures forall id :: HasId(r, id) <==> HasId(s.players, id)
    ensures UniqueIds(s.players) ==> forall i :: 0 <= i < |r| ==> Find(s.players, r[i].id) == Some(r[i])
  {
    s.players
  }

  // ------------------------------------------------------------- timers

  /**
   * The delay `min + r * (max - min)` for a uniform draw `r` in [0, 1): it
   * always falls in [CubeSpawnDelayMin, CubeSpawnDelayMax).
   */
  function SpawnDelay(r: real): (d: real)
    requires 0.0 <= r < 1.0
    ensures CubeSpawnDelayMin <= d < CubeSpawnDelayMax
    ensures r < 0.5 <==> d < (CubeSpawnDelayMin + CubeSpawnDelayMax) / 2.0
  {
    CubeSpawnDelayMin + r * (CubeSpawnDelayMax - CubeSpawnDelayMin)
  }

  /** `scheduleNextCube()`: arms the spawn timer unless the roster is empty. */
  function ScheduleNextCube(s: Session): (r: Session)
    ensures |s.players| == 0 ==> r == s
    ensures |s.players| > 0 ==> r == s.(spawn := r.spawn) && r.spawn.armed
    ensures |s.players| > 0 ==> r.spawn.Pending() == s.spawn.Pending() + 1
  {
    if |s.players| == 0 then s else s.(spawn := s.spawn.Arm())
  }

  /**
   * `spawnCube()`: with players present, a new unclaimed cube replaces any
   * previous one, is broadcast to the room, and the hide timer is armed.
   */
  function SpawnCube(s: Session, redDraw: real, x: real, z: real, now: int): (o: Outcome)
    requires 0.0 <= redDraw < 1.0
    ensures |s.players| == 0 ==> o == Outcome(s, [])
    ensures |s.players| > 0 ==>
      && o.session.cube.Some?
      && (o.session.cube.value.isRed <==> RedThreshold < redDraw)
      && o.session.cube.value == Cube(o.session.cube.value.isRed, x, z, now, None)
      && o.session == s.(cube := o.session.cube, hide := o.session.hide)
      && o.session.hide.armed && o.session.hide.Pending() == s.hide.Pending() + 1
      && o.out == [Message(Room(s.id), CubeSpawned(o.session.cube.value))]
  {
    if |s.players| == 0 then Outcome(s, [])
    else
      var cube := Cube(redDraw > RedThreshold, x, z, now, None);
      Outcome(s.(cube := Some(cube), hide := s.hide.Arm()), [Message(Room(s.id), CubeSpawned(cube))])
  }

  /**
   * The auto-hide callback: acts only on a live, unclaimed cube, clearing it,
   * broadcasting `cubeHidden` and scheduling the next spawn.
   */
  function AutoHide(s: Session): (o: Outcome)
    ensures !(s.cube.Some? && s.cube.value.hitBy.None?) ==> o == Outcome(s, [])
    ensures s.cube.Some? && s.cube.value.hitBy.None? ==>
      && o.session.cube.None?
      && o.session.players == s.players
      && o.session.hide == s.hide
      && o.session.id == s.id
      && o.session.spawn == (if |s.players| > 0 then s.spawn.Arm() else s.spawn)
      && (|s.players| > 0 ==> o.session.spawn.armed && o.session.spawn.Pending() == s.spawn.Pending() + 1)
      && o.out == [Message(Room(s.id), CubeHidden)]
  {
    if s.cube.Some? && s.cube.value.hitBy.None? then
      Outcome(ScheduleNextCube(s.(cube := None)), [Message(Room(s.id), CubeHidden)])
    else
      Outcome(s, [])
  }

  // ------------------------------------------------------------ players in

  /**
   * `addPlayer(socketId, name)`: a fresh record (score 0, three lives, not
   * game over) under `socketId`, replacing in place a record already under
   * that key; the spawn loop starts whenever the roster then holds one player.
   */
  function AddPlayer(s: Session, socketId: SocketId, name: Option<string>): (r: Session)
    requires Valid(s)
    ensures Valid(r)
    ensures Find(r.players, socketId) == Some(Player(socketId, DisplayName(name, |s.players|), 0, StartingLives, false))
    ensures !HasId(s.players, socketId) ==> r.players == s.players + [Find(r.players, socketId).value]
    ensures HasId(s.players, socketId) ==> |r.players| == |s.players|
    ensures forall i :: 0 <= i < |s.players| && s.players[i].id != socketId ==> r.players[i] == s.players[i]
    ensures forall id :: id != socketId ==> Find(r.players, id) == Find(s.players, id)
    ensures r.cube == s.cube && r.hide == s.hide && r.id == s.id
    ensures |r.players| == 1 ==> r.spawn.armed && r.spawn.Pending() == s.spawn.Pending() + 1
    ensures |r.players| != 1 ==> r.spawn == s.spawn
  {
    var p := Player(socketId, DisplayName(name, |s.players|), 0, StartingLives, false);
    var s1 := s.(players := Upsert(s.players, p));
    if |s1.players| == 1 then ScheduleNextCube(s1) else s1
  }

  /**
   * `removePlayer(socketId)`: deletes that key only; the cube is left as it
   * is, and when nobody is left both tracked timers are cancelled.
   */
  function RemovePlayer(s: Session, socketId: SocketId): (r: Session)
    requires Valid(s)
    ensures Valid(r)
    ensures r.players == Delete(s.players, socketId)
    ensures !HasId(r.players, socketId)
    ensures forall q :: q in r.players <==> q in s.players && q.id != socketId
    ensures HasId(s.players, socketId) ==> |r.players| == |s.players| - 1
    ensures !HasId(s.players, socketId) ==> r.players == s.players
    ensures r.cube == s.cube && r.id == s.id
    ensures |r.players| == 0 ==> r.spawn == s.spawn.Clear() && r.hide == s.hide.Clear()
    ensures |r.players| > 0 ==> r.spawn == s.spawn && r.hide == s.hide
  {
    var s1 := s.(players := Delete(s.players, socketId));
    if |s1.players| == 0 then s1.(spawn := s1.spawn.Clear(), hide := s1.hide.Clear()) else s1
  }

  // -------------------------------------------------------------- hits

  /** The guards of `handleHit`: a live unclaimed cube and a known player still in the game. */
  predicate Accepts(s: Session, socketId: SocketId) {
    && s.cube.Some?
    && s.cube.value.hitBy.None?
    && Find(s.players, socketId).Some?
    && !Find(s.players, socketId).value.isGameOver
  }

  /** The claimant's record after the hit: red costs a life, green scores one. */
  function Scored(p: Player, red: bool): (q: Player)
    requires !p.isGameOver
    ensures q.id == p.id && q.name == p.name
    ensures red ==> q.lives == p.lives - 1 && q.score == p.score && (q.isGameOver <==> q.lives <= 0)
    ensures !red ==> q.score == p.score + 1 && q.lives == p.lives && !q.isGameOver
  {
    if red then
      var lives := p.lives - 1;
      p.(lives := lives, isGameOver := if lives <= 0 then true else p.isGameOver)
    else
      p.(score := p.score + 1)
  }

  /**
   * `handleHit(socketId, isRedHit)`. A rejected hit changes nothing and
   * sends nothing. An accepted one is scored by the server's own cube
   * colour (the client's `isRedHit` plays no part), cancels the hide timer,
   * sends the claimant its new score and everyone the roster, hides the
   * cube and schedules the next one.
   */
  function HandleHit(s: Session, socketId: SocketId, isRedHit: bool): (o: Outcome)
    requires Valid(s)
    ensures Valid(o.session)
    ensures !Accepts(s, socketId) ==> o == Outcome(s, [])
    ensures Accepts(s, socketId) ==>
      var p := Find(s.players, socketId).value;
      && Find(o.session.players, socketId).Some?
      && var q := Find(o.session.players, socketId).value;
      && q == Scored(p, s.cube.value.isRed)
      && |o.session.players| == |s.players|
      && (forall i :: 0 <= i < |s.players| && s.players[i].id != socketId ==> o.session.players[i] == s.players[i])
      && o.session.cube.None?
      && !o.session.hide.armed && o.session.hide.orphans == s.hide.orphans
      && o.session.spawn.armed && o.session.spawn.Pending() == s.spawn.Pending() + 1
      && o.session.spawn == s.spawn.Arm()
      && o.session.id == s.id
      && o.out == [
           Message(To(socketId), ScoreUpdate(q.score, q.lives, q.isGameOver)),
           Message(Room(s.id), PlayersUpdate(o.session.players)),
           Message(Room(s.id), CubeHidden)]
  {
    if s.cube.None? || s.cube.value.hitBy.Some? then Outcome(s, [])
    else match Find(s.players, socketId)
      case None => Outcome(s, [])
      case Some(p) =>
        if p.isGameOver then Outcome(s, [])
        else
          var q := Scored(p, s.cube.value.isRed);
          var players := Upsert(s.players, q);
          var s1 := s.(players := players, hide := s.hide.Clear(), cube := None);
          Outcome(ScheduleNextCube(s1), [
            Message(To(socketId), ScoreUpdate(q.score, q.lives, q.isGameOver)),
            Message(Room(s.id), PlayersUpdate(players)),
            Message(Room(s.id), CubeHidden)])
  }

  // ---------------------------------------------------------- the machine

  /** Everything that can happen to one session, with the inputs the source would draw itself. */
  datatype Input =
    | Join(socketId: SocketId, name: Option<string>)
    | Leave(socketId: SocketId)
    | SpawnFires(tracked: bool, redDraw: real, x: real, z: real, now: int)
    | HideFires(tracked: bool)
    | Hit(socketId: SocketId, isRedHit: bool)

  /** A random draw the source takes from `Math.random()`, which lies in [0, 1). */
  predicate WellFormed(i: Input) {
    i.SpawnFires? ==> 0.0 <= i.redDraw < 1.0
  }

  /** One event. A timer event with no such timer pending is ignored. */
  function Step(s: Session, i: Input): (o: Outcome)
    requires Valid(s) && WellFormed(i)
    ensures Valid(o.session)
    ensures o.session.id == s.id
  {
    match i
    case Join(id, name) => Outcome(AddPlayer(s, id, name), [])
    case Leave(id) => Outcome(RemovePlayer(s, id), [])
    case SpawnFires(tracked, redDraw, x, z, now) =>
      if s.spawn.CanFire(tracked) then SpawnCube(s.(spawn := s.spawn.Fire(tracked)), redDraw, x, z, now)
      else Outcome(s, [])
    case HideFires(tracked) =>
      if s.hide.CanFire(tracked) then AutoHide(s.(hide := s.hide.Fire(tracked)))
      else Outcome(s, [])
    case Hit(id, isRedHit) => HandleHit(s, id, isRedHit)
  }
}
