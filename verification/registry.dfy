/**
 * The process-wide `sessions` map of server.js and the socket handlers that
 * drive it: createSession, joinSession, cubeHit, disconnect, the 30-second
 * cleanup timers, and the session timers.
 *
 * The room a socket joins is not tracked: a message to `Room(id)` stands
 * for `io.to(id).emit`. `socket.sessionId` is the `joined` map. A session's
 * timers close over the session object, not its id, so a session that
 * leaves the map (overwritten by a colliding id, or deleted by a cleanup)
 * lives on in `dropped` for as long as its timers do.
 *
 * Every handler takes `fixed`: `false` runs the session operations as
 * written in server.js, `true` runs the corrected join and leave of
 * `SessionFix`, for which the one-pending-timer discipline holds.
 */
module Registry {
  import opened Wrappers
  import opened GameSession
  import SessionFix

  /**
   * `sessions`; `dropped` are the session objects no longer in the map;
   * `joined[sock]` is the `sessionId` stored on a socket that joined a
   * session; `cleanups` holds the session ids of pending cleanup timers.
   */
  datatype Registry = Registry(
    sessions: map<SessionId, Session>,
    dropped: seq<Session>,
    joined: map<SocketId, SessionId>,
    cleanups: multiset<SessionId>)

  datatype Reply = Reply(registry: Registry, out: seq<Message>)

  /** The session object a timer closes over: the one stored under an id, or a dropped one. */
  datatype Target = Stored(sid: SessionId) | Dropped(index: nat)

  /** A session keeps its roster invariant, and under the corrected operations the discipline too. */
  ghost predicate SessionOk(s: Session, fixed: bool) {
    GameSession.Valid(s) && (fixed ==> SessionFix.Disciplined(s))
  }

  /** Every stored session is stored under its own id, and every session object is `SessionOk`. */
  ghost predicate Valid(r: Registry, fixed: bool) {
    && (forall sid :: sid in r.sessions ==> r.sessions[sid].id == sid && SessionOk(r.sessions[sid], fixed))
    && (forall k :: 0 <= k < |r.dropped| ==> SessionOk(r.dropped[k], fixed))
  }

  /** The server at start-up: no sessions, no joined sockets, no cleanup pending. */
  const Empty: Registry := Registry(map[], [], map[], multiset{})

  /** The server starts in a valid state, so `Serve` and `OneTimerPerSession` apply from start-up. */
  lemma EmptyValid(fixed: bool)
    ensures Valid(Empty, fixed)
  {
  }

  /** `sessions.get(socket.sessionId)`, with an absent `sessionId` finding nothing. */
  function SessionOf(r: Registry, socketId: SocketId): (s: Option<Session>)
    ensures s.Some? <==> socketId in r.joined && r.joined[socketId] in r.sessions
    ensures s.Some? ==> s.value == r.sessions[r.joined[socketId]]
  {
    if socketId in r.joined && r.joined[socketId] in r.sessions then Some(r.sessions[r.joined[socketId]]) else None
  }

  /** `session.addPlayer`: as written, or the corrected join; both build the same roster. */
  function Add(fixed: bool, s: Session, socketId: SocketId, name: Option<string>): (r: Session)
    requires SessionOk(s, fixed)
    ensures SessionOk(r, fixed) && r.id == s.id
    ensures r.players == GameSession.AddPlayer(s, socketId, name).players
    ensures !fixed ==> r == GameSession.AddPlayer(s, socketId, name)
    ensures fixed ==> r == SessionFix.AddPlayer(s, socketId, name)
  {
    if fixed then
      SessionFix.StepKeepsDiscipline(s, Join(socketId, name));
      SessionFix.AddPlayer(s, socketId, name)
    else GameSession.AddPlayer(s, socketId, name)
  }

  /** `session.removePlayer`: as written, or the corrected leave; both build the same roster. */
  function Remove(fixed: bool, s: Session, socketId: SocketId): (r: Session)
    requires SessionOk(s, fixed)
    ensures SessionOk(r, fixed) && r.id == s.id
    ensures r.players == GameSession.RemovePlayer(s, socketId).players
    ensures !fixed ==> r == GameSession.RemovePlayer(s, socketId)
    ensures fixed ==> r == SessionFix.RemovePlayer(s, socketId)
  {
    if fixed then
      SessionFix.StepKeepsDiscipline(s, Leave(socketId));
      SessionFix.RemovePlayer(s, socketId)
    else GameSession.RemovePlayer(s, socketId)
  }

  /** Hits and timer firings are the same under both sets of operations, and keep `SessionOk`. */
  lemma SharedStepOk(fixed: bool, s: Session, i: Input)
    requires SessionOk(s, fixed) && WellFormed(i) && !i.Join? && !i.Leave?
    ensures SessionOk(GameSession.Step(s, i).session, fixed)
  {
    if fixed {
      SessionFix.StepKeepsDiscipline(s, i);
    }
  }

  /**
   * `createSession` with `sid` standing for the generated slug: a new empty
   * session is stored under `sid` — replacing any session already there,
   * since the slug is not checked for collisions, and that session object
   * is dropped — its id is sent to the creator, and a cleanup timer is
   * armed for it.
   */
  function CreateSession(r: Registry, fixed: bool, socketId: SocketId, sid: SessionId): (o: Reply)
    requires Valid(r, fixed)
    ensures Valid(o.registry, fixed)
    ensures o.registry.sessions == r.sessions[sid := NewSession(sid)]
    ensures o.registry.dropped == r.dropped + (if sid in r.sessions then [r.sessions[sid]] else [])
    ensures o.registry.joined == r.joined
    ensures o.registry.cleanups == r.cleanups + multiset{sid}
    ensures o.out == [Message(To(socketId), SessionCreated(sid))]
  {
    SessionFix.NewSessionDisciplined(sid);
    var dropped := if sid in r.sessions then r.dropped + [r.sessions[sid]] else r.dropped;
    Reply(Registry(r.sessions[sid := NewSession(sid)], dropped, r.joined, r.cleanups + multiset{sid}),
          [Message(To(socketId), SessionCreated(sid))])
  }

  /**
   * `joinSession`. An unknown id is answered with an error and changes
   * nothing. Otherwise the player is added, the socket remembers the
   * session, and the joiner gets the roster, the room gets the roster, and
   * the joiner gets the live cube if there is one.
   */
  function JoinSession(r: Registry, fixed: bool, socketId: SocketId, sid: SessionId, name: Option<string>): (o: Reply)
    requires Valid(r, fixed)
    ensures Valid(o.registry, fixed)
    ensures sid !in r.sessions ==>
      o == Reply(r, [Message(To(socketId), Error("Session not found"))])
    ensures sid in r.sessions ==>
      var s := Add(fixed, r.sessions[sid], socketId, name);
      && o.registry == r.(sessions := r.sessions[sid := s], joined := r.joined[socketId := sid])
      && o.out == [Message(To(socketId), SessionJoined(socketId, s.players)),
                   Message(Room(sid), PlayersUpdate(s.players))]
                  + (if s.cube.Some? then [Message(To(socketId), CubeSpawned(s.cube.value))] else [])
  {
    if sid !in r.sessions then
      Reply(r, [Message(To(socketId), Error("Session not found"))])
    else
      var s := Add(fixed, r.sessions[sid], socketId, name);
      var greet := [Message(To(socketId), SessionJoined(socketId, GetPlayers(s))),
                    Message(Room(sid), PlayersUpdate(GetPlayers(s)))];
      var late := if s.cube.Some? then [Message(To(socketId), CubeSpawned(s.cube.value))] else [];
      Reply(r.(sessions := r.sessions[sid := s], joined := r.joined[socketId := sid]), greet + late)
  }

  /** `cubeHit`: handed to the socket's session if it still exists, otherwise ignored. */
  function CubeHit(r: Registry, fixed: bool, socketId: SocketId, isRed: bool): (o: Reply)
    requires Valid(r, fixed)
    ensures Valid(o.registry, fixed)
    ensures SessionOf(r, socketId).None? ==> o == Reply(r, [])
    ensures SessionOf(r, socketId).Some? ==>
      var sid := r.joined[socketId];
      var h := HandleHit(r.sessions[sid], socketId, isRed);
      o == Reply(r.(sessions := r.sessions[sid := h.session]), h.out)
  {
    match SessionOf(r, socketId)
    case None => Reply(r, [])
    case Some(s) =>
      var sid := r.joined[socketId];
      SharedStepOk(fixed, s, Hit(socketId, isRed));
      var h := HandleHit(s, socketId, isRed);
      Reply(r.(sessions := r.sessions[sid := h.session]), h.out)
  }

  /**
   * `disconnect`: the socket is gone. If its session still exists the
   * player is removed, the room gets the roster, and when the session is
   * now empty a cleanup timer is armed for it.
   */
  function Disconnect(r: Registry, fixed: bool, socketId: SocketId): (o: Reply)
    requires Valid(r, fixed)
    ensures Valid(o.registry, fixed)
    ensures o.registry.joined == r.joined - {socketId}
    ensures o.registry.dropped == r.dropped
    ensures SessionOf(r, socketId).None? ==>
      o.registry.sessions == r.sessions && o.registry.cleanups == r.cleanups && o.out == []
    ensures SessionOf(r, socketId).Some? ==>
      var sid := r.joined[socketId];
      var s := Remove(fixed, r.sessions[sid], socketId);
      && o.registry.sessions == r.sessions[sid := s]
      && !HasId(o.registry.sessions[sid].players, socketId)
      && o.registry.cleanups == r.cleanups + (if |s.players| == 0 then multiset{sid} else multiset{})
      && o.out == [Message(Room(sid), PlayersUpdate(s.players))]
  {
    var gone := r.(joined := r.joined - {socketId});
    match SessionOf(r, socketId)
    case None => Reply(gone, [])
    case Some(s0) =>
      var sid := r.joined[socketId];
      var s := Remove(fixed, s0, socketId);
      var cleanups := if |s.players| == 0 then r.cleanups + multiset{sid} else r.cleanups;
      Reply(gone.(sessions := r.sessions[sid := s], cleanups := cleanups), [Message(Room(sid), PlayersUpdate(GetPlayers(s)))])
  }

  /**
   * A cleanup timer for `sid` goes off: the session is deleted exactly when
   * it still exists and still has no players, and the deleted object is
   * dropped. A timer that is not pending changes nothing.
   */
  function CleanupFires(r: Registry, fixed: bool, sid: SessionId): (o: Registry)
    requires Valid(r, fixed)
    ensures Valid(o, fixed)
    ensures sid !in r.cleanups ==> o == r
    ensures sid in r.cleanups ==> o.cleanups == r.cleanups - multiset{sid} && o.joined == r.joined
    ensures sid in r.cleanups ==>
      (sid !in o.sessions <==> sid !in r.sessions || |r.sessions[sid].players| == 0)
    ensures sid !in o.sessions && sid in r.sessions ==> o.dropped == r.dropped + [r.sessions[sid]]
    ensures !(sid in r.sessions && sid !in o.sessions) ==> o.dropped == r.dropped
    ensures forall other :: other != sid ==> (other in o.sessions <==> other in r.sessions)
    ensures forall other :: other in o.sessions ==> o.sessions[other] == r.sessions[other]
  {
    if sid !in r.cleanups then r
    else
      var r1 := r.(cleanups := r.cleanups - multiset{sid});
      if sid in r.sessions && |r.sessions[sid].players| == 0 then
        r1.(sessions := r.sessions - {sid}, dropped := r.dropped + [r.sessions[sid]])
      else r1
  }

  /** The session object a timer target names, if there is one. */
  function Instance(r: Registry, target: Target): (s: Option<Session>)
    ensures target.Stored? ==> (s.Some? <==> target.sid in r.sessions)
    ensures target.Dropped? ==> (s.Some? <==> target.index < |r.dropped|)
    ensures s.Some? ==> s.value == match target
      case Stored(sid) => r.sessions[sid]
      case Dropped(k) => r.dropped[k]
  {
    match target
    case Stored(sid) => if sid in r.sessions then Some(r.sessions[sid]) else None
    case Dropped(k) => if k < |r.dropped| then Some(r.dropped[k]) else None
  }

  /**
   * A spawn or hide timer of a session object goes off. It acts on that
   * object alone, stored or dropped, never changes its roster, and sends
   * only to that session's room. A dropped session is beyond the reach of
   * every handler but its own timers, so its spawn loop keeps broadcasting
   * to the room of its id.
   */
  function SessionTimer(r: Registry, fixed: bool, target: Target, i: Input): (o: Reply)
    requires Valid(r, fixed) && (i.SpawnFires? || i.HideFires?) && WellFormed(i)
    ensures Valid(o.registry, fixed)
    ensures o.registry.joined == r.joined && o.registry.cleanups == r.cleanups
    ensures Instance(r, target).None? ==> o == Reply(r, [])
    ensures Instance(r, target).Some? ==>
      var s := Instance(r, target).value;
      var step := GameSession.Step(s, i);
      && Instance(o.registry, target) == Some(step.session)
      && step.session.players == s.players
      && o.out == step.out
      && (forall m :: m in o.out ==> m.to == Room(s.id))
    ensures target.Stored? ==>
      && o.registry.dropped == r.dropped
      && o.registry.sessions.Keys == r.sessions.Keys
      && (forall other :: other in r.sessions && other != target.sid ==> o.registry.sessions[other] == r.sessions[other])
    ensures target.Dropped? ==>
      && o.registry.sessions == r.sessions
      && |o.registry.dropped| == |r.dropped|
      && (forall k :: 0 <= k < |r.dropped| && k != target.index ==> o.registry.dropped[k] == r.dropped[k])
  {
    match Instance(r, target)
    case None => Reply(r, [])
    case Some(s) =>
      SharedStepOk(fixed, s, i);
      var step := GameSession.Step(s, i);
      match target
      case Stored(sid) => Reply(r.(sessions := r.sessions[sid := step.session]), step.out)
      case Dropped(k) => Reply(r.(dropped := r.dropped[k := step.session]), step.out)
  }

  // ---------------------------------------------------------- the machine

  /** Everything that can happen to the registry; `sid` of a creation stands for the generated slug. */
  datatype Request =
    | Create(socketId: SocketId, sid: SessionId)
    | JoinRequest(socketId: SocketId, sid: SessionId, name: Option<string>)
    | HitRequest(socketId: SocketId, isRed: bool)
    | Disconnected(socketId: SocketId)
    | Cleanup(sid: SessionId)
    | TimerFires(target: Target, timer: Input)

  predicate WellFormedRequest(i: Request) {
    i.TimerFires? ==> (i.timer.SpawnFires? || i.timer.HideFires?) && WellFormed(i.timer)
  }

  function Handle(r: Registry, fixed: bool, i: Request): (o: Reply)
    requires Valid(r, fixed) && WellFormedRequest(i)
    ensures Valid(o.registry, fixed)
  {
    match i
    case Create(sock, sid) => CreateSession(r, fixed, sock, sid)
    case JoinRequest(sock, sid, name) => JoinSession(r, fixed, sock, sid, name)
    case HitRequest(sock, isRed) => CubeHit(r, fixed, sock, isRed)
    case Disconnected(sock) => Disconnect(r, fixed, sock)
    case Cleanup(sid) => Reply(CleanupFires(r, fixed, sid), [])
    case TimerFires(target, t) => SessionTimer(r, fixed, target, t)
  }

  /**
   * Any sequence of events from any valid registry: every stored session
   * stays under its own id and every session object, stored or dropped,
   * keeps a consistent roster (unique ids, `lives` in [0, 3], game over
   * exactly at zero lives) and no claimed cube; under the corrected
   * operations each also keeps the one-pending-timer discipline.
   */
  function Serve(r: Registry, fixed: bool, inputs: seq<Request>): (o: Registry)
    requires Valid(r, fixed) && forall k :: 0 <= k < |inputs| ==> WellFormedRequest(inputs[k])
    ensures Valid(o, fixed)
    decreases |inputs|
  {
    if |inputs| == 0 then r else Serve(Handle(r, fixed, inputs[0]).registry, fixed, inputs[1..])
  }

  /**
   * With the corrected join and leave, however requests, disconnects and
   * timers interleave, every session object the server holds — stored or
   * dropped — has at most one of its timers pending.
   */
  lemma OneTimerPerSession(r: Registry, inputs: seq<Request>)
    requires Valid(r, true) && forall k :: 0 <= k < |inputs| ==> WellFormedRequest(inputs[k])
    ensures var after := Serve(r, true, inputs);
      && (forall sid :: sid in after.sessions ==>
            after.sessions[sid].spawn.Pending() + after.sessions[sid].hide.Pending() <= 1)
      && (forall k :: 0 <= k < |after.dropped| ==>
            after.dropped[k].spawn.Pending() + after.dropped[k].hide.Pending() <= 1)
  {
    var after := Serve(r, true, inputs);
    forall sid | sid in after.sessions
      ensures after.sessions[sid].spawn.Pending() + after.sessions[sid].hide.Pending() <= 1
    {
      SessionFix.DisciplinedHasOnePending(after.sessions[sid]);
    }
    forall k | 0 <= k < |after.dropped|
      ensures after.dropped[k].spawn.Pending() + after.dropped[k].hide.Pending() <= 1
    {
      SessionFix.DisciplinedHasOnePending(after.dropped[k]);
    }
  }

  /**
   * The last player's disconnect cancels both tracked timers. As written
   * the cube stays up in the now empty session; corrected, it goes too.
   */
  lemma LastLeaveKeepsCube(r: Registry, fixed: bool, socketId: SocketId)
    requires Valid(r, fixed) && SessionOf(r, socketId).Some?
    requires |SessionOf(r, socketId).value.players| == 1
    requires SessionOf(r, socketId).value.players[0].id == socketId
    ensures var sid := r.joined[socketId];
      var s := Disconnect(r, fixed, socketId).registry.sessions[sid];
      && s.players == []
      && !s.spawn.armed && !s.hide.armed
      && (!fixed ==> s.cube == r.sessions[sid].cube)
      && (fixed ==> s.cube.None? && s.spawn.Pending() == 0 && s.hide.Pending() == 0)
  {
    var s0 := r.sessions[r.joined[socketId]];
    assert HasId(s0.players, socketId);
  }

  /**
   * The stale cube at the server as written: whoever joins an empty
   * session that still holds a cube is sent that cube, and their hit on it
   * is accepted, which arms a second spawn timer on top of the one the
   * join armed.
   */
  lemma StaleCubeReachesJoiner(r: Registry, sid: SessionId, socketId: SocketId, name: Option<string>, isRed: bool)
    requires Valid(r, false) && sid in r.sessions
    requires r.sessions[sid].players == [] && r.sessions[sid].cube.Some?
    ensures var j := JoinSession(r, false, socketId, sid, name);
      var h := CubeHit(j.registry, false, socketId, isRed);
      && |j.out| == 3
      && j.out[2] == Message(To(socketId), CubeSpawned(r.sessions[sid].cube.value))
      && |h.out| == 3
      && h.registry.sessions[sid].spawn.Pending() == r.sessions[sid].spawn.Pending() + 2
  {
    var s := Add(false, r.sessions[sid], socketId, name);
    assert |s.players| == 1 && s.players[0].id == socketId;
    assert Accepts(s, socketId);
  }

  /**
   * The same with the corrected operations: an empty session holds no
   * cube, so the joiner is sent none, their hit is rejected, and only the
   * join's spawn timer is pending.
   */
  lemma FixedJoinerSeesNoStaleCube(r: Registry, sid: SessionId, socketId: SocketId, name: Option<string>, isRed: bool)
    requires Valid(r, true) && sid in r.sessions && r.sessions[sid].players == []
    ensures var j := JoinSession(r, true, socketId, sid, name);
      var h := CubeHit(j.registry, true, socketId, isRed);
      && |j.out| == 2
      && h.out == []
      && h.registry.sessions[sid].spawn.Pending() == 1
  {
  }

  /** Joining an unknown session id is refused with an error and changes nothing. */
  lemma JoinUnknownIsRefused(r: Registry, fixed: bool, socketId: SocketId, sid: SessionId, name: Option<string>)
    requires Valid(r, fixed) && sid !in r.sessions
    ensures JoinSession(r, fixed, socketId, sid, name).registry == r
    ensures JoinSession(r, fixed, socketId, sid, name).out == [Message(To(socketId), Error("Session not found"))]
  {
  }

  /**
   * The last player leaving arms a cleanup; if that timer goes off before
   * anyone joins, the session is deleted and nothing else is.
   */
  lemma LastLeaveThenCleanupDeletes(r: Registry, fixed: bool, socketId: SocketId)
    requires Valid(r, fixed) && SessionOf(r, socketId).Some?
    requires |SessionOf(r, socketId).value.players| == 1
    requires SessionOf(r, socketId).value.players[0].id == socketId
    ensures var sid := r.joined[socketId];
      var after := CleanupFires(Disconnect(r, fixed, socketId).registry, fixed, sid);
      && sid !in after.sessions
      && after.sessions == r.sessions - {sid}
  {
  }

  /** A player who joins within the grace period keeps the session alive when the cleanup goes off. */
  lemma JoinWithinGraceKeepsSession(r: Registry, fixed: bool, sid: SessionId, socketId: SocketId, name: Option<string>)
    requires Valid(r, fixed) && sid in r.sessions && sid in r.cleanups
    ensures var joined := JoinSession(r, fixed, socketId, sid, name).registry;
      var after := CleanupFires(joined, fixed, sid);
      && sid in after.sessions
      && after.sessions[sid] == joined.sessions[sid]
  {
  }

  /**
   * Two cleanup timers for the same session (one from creation, one from a
   * disconnect) never delete twice: the second finds the session gone and
   * leaves every other session alone.
   */
  lemma SecondCleanupIsHarmless(r: Registry, fixed: bool, sid: SessionId)
    requires Valid(r, fixed) && sid in r.sessions && |r.sessions[sid].players| == 0
    requires r.cleanups[sid] >= 2
    ensures var once := CleanupFires(r, fixed, sid);
      var twice := CleanupFires(once, fixed, sid);
      && sid !in once.sessions
      && twice.sessions == once.sessions
      && twice.cleanups == r.cleanups - multiset{sid, sid}
  {
  }

  /**
   * Session ids are not checked for collisions. Creating a session under an
   * id in use stores a fresh empty session there, so the old session's
   * players, whose sockets still carry that id, now reach the new session,
   * which ignores their hits. The old session object keeps its players and
   * its spawn loop: its pending spawn still brings up a cube and broadcasts
   * it to the room of that id.
   */
  lemma CreateOverwritesOnCollision(r: Registry, fixed: bool, socketId: SocketId, sid: SessionId,
                                    member: SocketId, isRed: bool, redDraw: real, x: real, z: real, now: int)
    requires Valid(r, fixed) && sid in r.sessions
    requires |r.sessions[sid].players| > 0 && r.sessions[sid].spawn.armed
    requires member in r.joined && r.joined[member] == sid
    requires 0.0 <= redDraw < 1.0
    ensures var after := CreateSession(r, fixed, socketId, sid).registry;
      var n := |r.dropped|;
      && after.sessions[sid].players == []
      && |after.dropped| == n + 1 && after.dropped[n] == r.sessions[sid]
      && CubeHit(after, fixed, member, isRed) == Reply(after, [])
      && SessionTimer(after, fixed, Dropped(n), SpawnFires(true, redDraw, x, z, now)).out
         == [Message(Room(sid), CubeSpawned(Cube(RedThreshold < redDraw, x, z, now, None)))]
  {
  }
}
