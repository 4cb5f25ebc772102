/**
 * Properties of the session state machine that relate several transitions:
 * the claim rules of a hit, the race between the auto-hide timer and a hit,
 * and the player invariant over whole event sequences.
 */
module SessionProperties {
  import opened Wrappers
  import opened GameSession

  /** Whether every input of a sequence is well formed. */
  predicate AllWellFormed(inputs: seq<Input>) {
    forall k :: 0 <= k < |inputs| ==> WellFormed(inputs[k])
  }

  /**
   * Feeding a sequence of events to a session: the messages are those of
   * each step in turn, and every state on the way keeps `Valid` (in
   * particular `lives >= 0` and `isGameOver <==> lives == 0` for everyone).
   */
  function Run(s: Session, inputs: seq<Input>): (o: Outcome)
    requires Valid(s) && AllWellFormed(inputs)
    ensures Valid(o.session)
    ensures o.session.id == s.id
    ensures |inputs| == 0 ==> o == Outcome(s, [])
    decreases |inputs|
  {
    if |inputs| == 0 then Outcome(s, [])
    else
      var first := Step(s, inputs[0]);
      var rest := Run(first.session, inputs[1..]);
      Outcome(rest.session, first.out + rest.out)
  }

  /** The colour the client reports has no influence on how a hit is scored. */
  lemma HitIgnoresClientColour(s: Session, socketId: SocketId, a: bool, b: bool)
    requires Valid(s)
    ensures HandleHit(s, socketId, a) == HandleHit(s, socketId, b)
  {
  }

  /**
   * At most one claim per cube: once a hit is accepted, no further hit —
   * by anyone, with any colour — is accepted until a new cube spawns.
   */
  lemma NoSecondClaim(s: Session, socketId: SocketId, isRedHit: bool, other: SocketId, otherRed: bool)
    requires Valid(s) && Accepts(s, socketId)
    ensures var after := HandleHit(s, socketId, isRedHit).session;
      !Accepts(after, other) && HandleHit(after, other, otherRed) == Outcome(after, [])
  {
  }

  /**
   * After an accepted hit, the auto-hide callback of that cube does nothing
   * visible: no message, and the roster, cube and spawn timer stay as the
   * hit left them. Only the hit performed "clear cube, schedule next".
   */
  lemma HitThenHideIsQuiet(s: Session, socketId: SocketId, isRedHit: bool, tracked: bool)
    requires Valid(s) && Accepts(s, socketId)
    ensures var after := HandleHit(s, socketId, isRedHit).session;
      var o := Step(after, HideFires(tracked));
      && o.out == []
      && o.session.players == after.players
      && o.session.cube == after.cube
      && o.session.spawn == after.spawn
  {
  }

  /** After the auto-hide clears a cube, a late hit on it is rejected and changes nothing. */
  lemma HideThenHitRejected(s: Session, tracked: bool, socketId: SocketId, isRedHit: bool)
    requires Valid(s) && s.cube.Some? && s.hide.CanFire(tracked)
    ensures var after := Step(s, HideFires(tracked)).session;
      && after.cube.None?
      && HandleHit(after, socketId, isRedHit) == Outcome(after, [])
  {
  }

  /** The player under `id` cannot hit: absent from the roster, or out of lives and game over. */
  predicate LockedOut(s: Session, id: SocketId) {
    match Find(s.players, id)
    case None => true
    case Some(p) => p.lives == 0 && p.isGameOver
  }

  /** No input joins under `id`; such a join would give that socket a fresh record. */
  predicate NoJoinBy(inputs: seq<Input>, id: SocketId) {
    forall k :: 0 <= k < |inputs| ==> !(inputs[k].Join? && inputs[k].socketId == id)
  }

  /** Every event other than a join under `id` keeps the player under `id` locked out. */
  lemma StepKeepsLockout(s: Session, i: Input, id: SocketId)
    requires Valid(s) && WellFormed(i) && LockedOut(s, id)
    requires !(i.Join? && i.socketId == id)
    ensures LockedOut(Step(s, i).session, id)
  {
    match i
    case Join(other, name) =>
    case Leave(other) =>
    case SpawnFires(_, _, _, _, _) =>
    case HideFires(_) =>
    case Hit(other, isRedHit) =>
  }

  /** A locked-out player stays locked out through any events that do not re-join them. */
  lemma {:induction false} RunKeepsLockout(s: Session, inputs: seq<Input>, id: SocketId)
    requires Valid(s) && AllWellFormed(inputs) && LockedOut(s, id) && NoJoinBy(inputs, id)
    ensures LockedOut(Run(s, inputs).session, id)
    decreases |inputs|
  {
    if |inputs| > 0 {
      StepKeepsLockout(s, inputs[0], id);
      assert AllWellFormed(inputs[1..]) && NoJoinBy(inputs[1..], id) by {
        forall k | 0 <= k < |inputs| - 1
          ensures inputs[1..][k] == inputs[k + 1]
        {
        }
      }
      RunKeepsLockout(Step(s, inputs[0]).session, inputs[1..], id);
    }
  }

  /**
   * A red hit on a player's last life ends their game, and whatever happens
   * afterwards — other players' hits, joins and leaves, timers — short of
   * that socket joining again, the player stays at zero lives and every hit
   * of theirs is rejected.
   */
  lemma LastLifeLocksOut(s: Session, socketId: SocketId, isRedHit: bool, inputs: seq<Input>, laterRed: bool)
    requires Valid(s) && Accepts(s, socketId) && s.cube.value.isRed
    requires Find(s.players, socketId).value.lives == 1
    requires AllWellFormed(inputs) && NoJoinBy(inputs, socketId)
    ensures var after := HandleHit(s, socketId, isRedHit).session;
      && Find(after.players, socketId).Some?
      && Find(after.players, socketId).value.lives == 0
      && Find(after.players, socketId).value.isGameOver
    ensures var later := Run(HandleHit(s, socketId, isRedHit).session, inputs).session;
      && (HasId(later.players, socketId) ==>
            Find(later.players, socketId).value.lives == 0 && Find(later.players, socketId).value.isGameOver)
      && HandleHit(later, socketId, laterRed) == Outcome(later, [])
  {
    RunKeepsLockout(HandleHit(s, socketId, isRedHit).session, inputs, socketId);
  }

  /** A join under a fresh id appends the new record after every earlier one. */
  lemma FreshJoinAppends(s: Session, a: SocketId, na: Option<string>)
    requires Valid(s) && !HasId(s.players, a)
    ensures AddPlayer(s, a, na).players == s.players + [Player(a, DisplayName(na, |s.players|), 0, StartingLives, false)]
  {
  }

  /**
   * Players that join with fresh ids appear in the roster after the earlier
   * ones, in the order they joined, each named from the roster size at its
   * own join.
   */
  lemma JoinOrder(s: Session, a: SocketId, na: Option<string>, b: SocketId, nb: Option<string>)
    requires Valid(s) && a != b && !HasId(s.players, a) && !HasId(s.players, b)
    ensures GetPlayers(AddPlayer(AddPlayer(s, a, na), b, nb)) ==
      GetPlayers(s) + [Player(a, DisplayName(na, |s.players|), 0, StartingLives, false),
                       Player(b, DisplayName(nb, |s.players| + 1), 0, StartingLives, false)]
  {
    var s1 := AddPlayer(s, a, na);
    var pa := Player(a, DisplayName(na, |s.players|), 0, StartingLives, false);
    var pb := Player(b, DisplayName(nb, |s.players| + 1), 0, StartingLives, false);
    assert s1.players == s.players + [pa] by {
      FreshJoinAppends(s, a, na);
    }
    assert !HasId(s1.players, b) by {
      assert Find(s1.players, b) == Find(s.players, b);
    }
    assert AddPlayer(s1, b, nb).players == s1.players + [pb] by {
      FreshJoinAppends(s1, b, nb);
    }
  }

  /** A spawn timer that fires on an empty roster leaves no cube behind and sends nothing. */
  lemma EmptySessionNeverSpawns(s: Session, tracked: bool, redDraw: real, x: real, z: real, now: int)
    requires Valid(s) && |s.players| == 0 && 0.0 <= redDraw < 1.0
    ensures var o := Step(s, SpawnFires(tracked, redDraw, x, z, now));
      o.out == [] && o.session.cube == s.cube && o.session.players == []
  {
  }
}
