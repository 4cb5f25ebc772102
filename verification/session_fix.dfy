/**
 * The spawn loop is meant to keep exactly one thing pending per session: a
 * spawn timer while no cube is up, the auto-hide timer while one is. As
 * written, two paths arm a second spawn timer while one is still pending,
 * after which two cubes spawn back to back and an auto-hide timer is lost:
 *
 *  - removePlayer cancels both timers when the roster empties but leaves
 *    `currentCube` in place; the next player to join is sent that cube,
 *    the join arms a spawn, and a hit on the stale cube arms another;
 *  - addPlayer arms a spawn whenever the roster holds one player after the
 *    insert, which includes the only player joining again under the same id.
 *
 * This module exhibits both traces against `GameSession` and defines the
 * corrected join and leave, for which the one-pending-timer discipline is
 * an invariant of every event.
 */
module SessionFix {
  import opened Wrappers
  import opened GameSession

  // ------------------------------------------------------- as written

  /**
   * As written, a join on an empty session that still holds a cube arms a
   * spawn, and a hit on that cube arms another while the first is pending.
   */
  lemma StaleCubeHitArmsSecondSpawn(s: Session, socketId: SocketId, name: Option<string>, isRedHit: bool)
    requires Valid(s) && s.players == [] && s.cube.Some?
    ensures var joined := GameSession.AddPlayer(s, socketId, name);
      var hit := HandleHit(joined, socketId, isRedHit);
      && joined.spawn.Pending() == s.spawn.Pending() + 1
      && hit.out != []
      && hit.session.spawn.Pending() == s.spawn.Pending() + 2
  {
    var joined := GameSession.AddPlayer(s, socketId, name);
    assert |joined.players| == 1 && joined.players[0].id == socketId;
    assert Accepts(joined, socketId);
  }

  /** Stale cube: join, spawn, leave, another join, hit the stale cube. */
  lemma StaleCubeArmsTwoSpawns()
    ensures var s0 := NewSession("s");
      var s1 := GameSession.AddPlayer(s0, "a", Some("A"));
      var s2 := GameSession.Step(s1, SpawnFires(true, 0.0, 0.0, 0.0, 0)).session;
      var s3 := GameSession.RemovePlayer(s2, "a");
      var s4 := GameSession.AddPlayer(s3, "b", Some("B"));
      var s5 := HandleHit(s4, "b", false).session;
      && s3.players == [] && s3.cube.Some?
      && s4.spawn.Pending() == 1
      && s5.spawn.Pending() == 2
  {
    var s1 := GameSession.AddPlayer(NewSession("s"), "a", Some("A"));
    assert s1.spawn == Timer(true, 0) && s1.players == [Player("a", "A", 0, 3, false)];
    var s2 := GameSession.Step(s1, SpawnFires(true, 0.0, 0.0, 0.0, 0)).session;
    assert s2.cube.Some? && s2.spawn == Timer(false, 0);
    var s3 := GameSession.RemovePlayer(s2, "a");
    assert s3.players == [] && s3.spawn == Timer(false, 0);
    StaleCubeHitArmsSecondSpawn(s3, "b", Some("B"), false);
  }

  /** Duplicate join: the only player joins again under the same socket id. */
  lemma RejoinArmsTwoSpawns()
    ensures var s1 := GameSession.AddPlayer(NewSession("s"), "a", None);
      var s2 := GameSession.AddPlayer(s1, "a", None);
      && |s2.players| == 1
      && s2.spawn.Pending() == 2
  {
    var s1 := GameSession.AddPlayer(NewSession("s"), "a", None);
    assert |s1.players| == 1 && s1.players[0].id == "a";
    assert HasId(s1.players, "a");
  }

  // --------------------------------------------------------- corrected

  /** Join that starts the spawn loop only when the roster was empty. */
  function AddPlayer(s: Session, socketId: SocketId, name: Option<string>): (r: Session)
    requires Valid(s)
    ensures Valid(r)
    ensures r.players == GameSession.AddPlayer(s, socketId, name).players
    ensures r.cube == s.cube && r.hide == s.hide
    ensures |s.players| == 0 ==> r.spawn == s.spawn.Arm()
    ensures |s.players| > 0 ==> r.spawn == s.spawn
    ensures r == GameSession.AddPlayer(s, socketId, name).(spawn := r.spawn)
  {
    var p := Player(socketId, DisplayName(name, |s.players|), 0, StartingLives, false);
    var s1 := s.(players := Upsert(s.players, p));
    if |s.players| == 0 then ScheduleNextCube(s1) else s1
  }

  /** Leave that also discards the cube when the roster empties. */
  function RemovePlayer(s: Session, socketId: SocketId): (r: Session)
    requires Valid(s)
    ensures Valid(r)
    ensures r.players == GameSession.RemovePlayer(s, socketId).players
    ensures |r.players| == 0 ==> r.cube.None? && !r.spawn.armed && !r.hide.armed
    ensures |r.players| > 0 ==> r == GameSession.RemovePlayer(s, socketId)
    ensures r == GameSession.RemovePlayer(s, socketId).(cube := r.cube)
  {
    var r := GameSession.RemovePlayer(s, socketId);
    if |r.players| == 0 then r.(cube := None) else r
  }

  /** `GameSession.Step` with the corrected join and leave. */
  function Step(s: Session, i: Input): (o: Outcome)
    requires Valid(s) && WellFormed(i)
    ensures Valid(o.session)
  {
    match i
    case Join(id, name) => Outcome(AddPlayer(s, id, name), [])
    case Leave(id) => Outcome(RemovePlayer(s, id), [])
    case _ => GameSession.Step(s, i)
  }

  /**
   * The spawn-loop discipline: no orphaned timer; nothing pending and no
   * cube while the roster is empty; otherwise either a spawn is pending and
   * no cube is up, or a cube is up and its auto-hide is pending.
   */
  predicate Disciplined(s: Session) {
    && s.spawn.orphans == 0 && s.hide.orphans == 0
    && (|s.players| == 0 ==> !s.spawn.armed && !s.hide.armed && s.cube.None?)
    && (|s.players| > 0 ==>
          || (s.spawn.armed && !s.hide.armed && s.cube.None?)
          || (!s.spawn.armed && s.hide.armed && s.cube.Some?))
  }

  /** Under the discipline at most one timer of the session is pending. */
  lemma DisciplinedHasOnePending(s: Session)
    requires Disciplined(s)
    ensures s.spawn.Pending() + s.hide.Pending() == if |s.players| == 0 then 0 else 1
  {
  }

  /** Every event of the corrected machine keeps the discipline. */
  lemma StepKeepsDiscipline(s: Session, i: Input)
    requires Valid(s) && WellFormed(i) && Disciplined(s)
    ensures Disciplined(Step(s, i).session)
  {
  }

  /** Feeding a sequence of events to the corrected machine. */
  function Run(s: Session, inputs: seq<Input>): (r: Session)
    requires Valid(s) && forall k :: 0 <= k < |inputs| ==> WellFormed(inputs[k])
    ensures Valid(r)
    decreases |inputs|
  {
    if |inputs| == 0 then s else Run(Step(s, inputs[0]).session, inputs[1..])
  }

  /**
   * From a new session, whatever happens, at most one spawn timer is ever
   * pending, and at most one timer at all.
   */
  lemma {:induction false} NeverTwoSpawns(s: Session, inputs: seq<Input>)
    requires Valid(s) && Disciplined(s) && forall k :: 0 <= k < |inputs| ==> WellFormed(inputs[k])
    ensures Disciplined(Run(s, inputs))
    ensures Run(s, inputs).spawn.Pending() + Run(s, inputs).hide.Pending() <= 1
    decreases |inputs|
  {
    if |inputs| == 0 {
      DisciplinedHasOnePending(s);
    } else {
      StepKeepsDiscipline(s, inputs[0]);
      NeverTwoSpawns(Step(s, inputs[0]).session, inputs[1..]);
    }
  }

  /** A new session starts disciplined, so `NeverTwoSpawns` covers every session. */
  lemma NewSessionDisciplined(id: SessionId)
    ensures Disciplined(NewSession(id))
  {
  }
}
