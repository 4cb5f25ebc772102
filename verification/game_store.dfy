/**
 * The client's game-state store (src/store/gameStore.js): one record of
 * state and its actions, each a record-to-record transition. Numbers the
 * source keeps as floating point (hammer position, velocity, parameters)
 * are `real`s here.
 */
module GameStore {
  import opened Wrappers
  import GameSession

  /** Lives a player starts with; the store derives `lives` as this minus `redHits`. */
  const MaxLives: int := 3

  /** Name used when nothing usable is saved in the browser's storage. */
  const DefaultPlayerName: string := "Player"

  datatype Store = Store(
    score: int,
    lives: int,
    isGameOver: bool,
    redHits: int,
    sessionId: Option<string>,
    mySocketId: Option<string>,
    allPlayers: seq<GameSession.Player>,
    playerName: string,
    currentCube: Option<GameSession.Cube>,
    cubeIsUp: bool,
    hammerPosition: seq<real>,
    hammerVelocity: real,
    hammerFalling: bool,
    hammerRaised: bool,
    params: map<string, real>)

  /** The fields of `Store`, to say which ones an action may touch. */
  datatype Field =
    | Score | Lives | IsGameOver | RedHits
    | SessionId | MySocketId | AllPlayers | PlayerName
    | CurrentCube | CubeIsUp
    | HammerPosition | HammerVelocity | HammerFalling | HammerRaised
    | Params

  /** `a` and `b` hold the same value in field `f`. */
  predicate Same(a: Store, b: Store, f: Field) {
    match f
    case Score => a.score == b.score
    case Lives => a.lives == b.lives
    case IsGameOver => a.isGameOver == b.isGameOver
    case RedHits => a.redHits == b.redHits
    case SessionId => a.sessionId == b.sessionId
    case MySocketId => a.mySocketId == b.mySocketId
    case AllPlayers => a.allPlayers == b.allPlayers
    case PlayerName => a.playerName == b.playerName
    case CurrentCube => a.currentCube == b.currentCube
    case CubeIsUp => a.cubeIsUp == b.cubeIsUp
    case HammerPosition => a.hammerPosition == b.hammerPosition
    case HammerVelocity => a.hammerVelocity == b.hammerVelocity
    case HammerFalling => a.hammerFalling == b.hammerFalling
    case HammerRaised => a.hammerRaised == b.hammerRaised
    case Params => a.params == b.params
  }

  /** Every field outside `touched` is the same in `a` and `b`. */
  predicate Unchanged(a: Store, b: Store, touched: set<Field>) {
    forall f: Field :: f !in touched ==> Same(a, b, f)
  }

  /** The fields `resetGame` writes. */
  const GameFields: set<Field> :=
    {Score, Lives, IsGameOver, RedHits, CurrentCube, CubeIsUp,
     HammerPosition, HammerVelocity, HammerFalling, HammerRaised}

  const HammerRest: seq<real> := [0.0, 5.0, 0.0]

  const InitialParams: map<string, real> := map[
    "gravity" := -0.02,
    "hammerRaiseSpeed" := 0.15,
    "groundLevel" := 2.0,
    "normalHeight" := 5.0,
    "raisedHeight" := 6.5,
    "cubePopSpeed" := 0.05,
    "cubeStayDuration" := 2000.0,
    "cubeSpawnDelayMin" := 3000.0,
    "cubeSpawnDelayMax" := 5000.0]

  /** `lives` and `redHits` always add up to the starting lives, and game over means no lives left. */
  predicate Consistent(st: Store) {
    && st.lives + st.redHits == MaxLives
    && (st.isGameOver <==> st.lives <= 0)
  }

  /**
   * The store as created; `saved` is what `localStorage.getItem('playerName')`
   * returned, used unless it is absent or empty.
   */
  function Init(saved: Option<string>): (st: Store)
    ensures st.score == 0 && st.lives == MaxLives && st.redHits == 0 && !st.isGameOver
    ensures Consistent(st)
    ensures st.playerName == if GameSession.IsFalsy(saved) then DefaultPlayerName else saved.value
    ensures st.sessionId.None? && st.mySocketId.None? && st.allPlayers == [] && st.currentCube.None?
    ensures st.hammerPosition == HammerRest && st.hammerVelocity == 0.0
    ensures !st.cubeIsUp && !st.hammerFalling && !st.hammerRaised
    ensures st.params == InitialParams
  {
    Store(
      0, MaxLives, false, 0,
      None, None, [], if GameSession.IsFalsy(saved) then DefaultPlayerName else saved.value,
      None, false,
      HammerRest, 0.0, false, false,
      InitialParams)
  }

  /** The client's default timing parameters are the server's session settings. */
  lemma ParamsMatchServerSettings()
    ensures InitialParams["cubeStayDuration"] == GameSession.CubeStayDuration
    ensures InitialParams["cubeSpawnDelayMin"] == GameSession.CubeSpawnDelayMin
    ensures InitialParams["cubeSpawnDelayMax"] == GameSession.CubeSpawnDelayMax
  {
  }

  // ------------------------------------------------------------- scoring

  /** `incrementScore`: one more point, nothing else. */
  function IncrementScore(st: Store): (r: Store)
    ensures r.score == st.score + 1
    ensures Unchanged(st, r, {Score})
    ensures Consistent(st) ==> Consistent(r)
  {
    st.(score := st.score + 1)
  }

  /**
   * `incrementRedHits`: one more red hit, with `lives` recomputed from the
   * hit count (not floored at zero) and game over whenever no lives remain.
   */
  function IncrementRedHits(st: Store): (r: Store)
    ensures r.redHits == st.redHits + 1
    ensures Consistent(r)
    ensures Consistent(st) ==> r.lives == st.lives - 1
    ensures Unchanged(st, r, {RedHits, Lives, IsGameOver})
  {
    var redHits := st.redHits + 1;
    var lives := MaxLives - redHits;
    st.(redHits := redHits, lives := lives, isGameOver := lives <= 0)
  }

  /** `n` calls of `incrementRedHits` in a row. */
  function RedHitsRepeated(st: Store, n: nat): Store
    decreases n
  {
    if n == 0 then st else IncrementRedHits(RedHitsRepeated(st, n - 1))
  }

  /**
   * After `n` red hits from a consistent store, lives have dropped by
   * exactly `n` — below zero once `n` exceeds the lives left — and the game
   * is over exactly when no lives remain.
   */
  lemma {:induction false} RedHitsCountDown(st: Store, n: nat)
    requires Consistent(st)
    ensures RedHitsRepeated(st, n).lives == st.lives - n
    ensures RedHitsRepeated(st, n).redHits == st.redHits + n
    ensures RedHitsRepeated(st, n).isGameOver <==> st.lives <= n
    decreases n
  {
    if n > 0 {
      RedHitsCountDown(st, n - 1);
    } else {
      assert RedHitsRepeated(st, 0) == st;
    }
  }

  /** Four red hits on a fresh store leave it at minus one life: lives are not floored. */
  lemma LivesGoNegative(saved: Option<string>)
    ensures RedHitsRepeated(Init(saved), 4).lives == -1
    ensures RedHitsRepeated(Init(saved), 4).isGameOver
  {
    RedHitsCountDown(Init(saved), 4);
  }

  // ------------------------------------------------------------ parameters

  /** `updateParams(newParams)`: a shallow merge in which the new values win. */
  function UpdateParams(st: Store, newParams: map<string, real>): (r: Store)
    ensures r.params.Keys == st.params.Keys + newParams.Keys
    ensures forall k :: k in newParams ==> r.params[k] == newParams[k]
    ensures forall k :: k in st.params && k !in newParams ==> r.params[k] == st.params[k]
    ensures Unchanged(st, r, {Params})
  {
    st.(params := st.params + newParams)
  }

  /** Applying the same update twice is the same as applying it once. */
  lemma UpdateParamsIdempotent(st: Store, newParams: map<string, real>)
    ensures UpdateParams(UpdateParams(st, newParams), newParams) == UpdateParams(st, newParams)
  {
    var once := UpdateParams(st, newParams);
    var twice := UpdateParams(once, newParams);
    assert twice.params == once.params;
  }

  /** Updates of different parameters can be applied in either order. */
  lemma UpdateParamsCommute(st: Store, a: map<string, real>, b: map<string, real>)
    requires a.Keys !! b.Keys
    ensures UpdateParams(UpdateParams(st, a), b) == UpdateParams(UpdateParams(st, b), a)
  {
    var ab := UpdateParams(UpdateParams(st, a), b);
    var ba := UpdateParams(UpdateParams(st, b), a);
    assert ab.params == ba.params;
  }

  // ----------------------------------------------------------------- reset

  /**
   * `resetGame`: score, lives, hits, cube and hammer go back to their
   * initial values; the session, identity, roster, name and parameters stay.
   */
  function ResetGame(st: Store): (r: Store)
    ensures forall saved: Option<string>, f: Field :: f in GameFields ==> Same(r, Init(saved), f)
    ensures Unchanged(st, r, GameFields)
    ensures Consistent(r)
  {
    st.(score := 0, lives := MaxLives, isGameOver := false, redHits := 0,
        currentCube := None, cubeIsUp := false,
        hammerPosition := HammerRest, hammerVelocity := 0.0, hammerFalling := false, hammerRaised := false)
  }

  /** Whatever was played since, a reset ends in the same state as resetting right away. */
  lemma ResetForgetsPlay(st: Store, n: nat)
    ensures ResetGame(RedHitsRepeated(st, n)) == ResetGame(st)
    ensures ResetGame(IncrementScore(st)) == ResetGame(st)
  {
    var played := RedHitsRepeated(st, n);
    RedHitsRepeatedKeepsRest(st, n);
    assert Same(st, played, SessionId) && Same(st, played, MySocketId) && Same(st, played, AllPlayers);
    assert Same(st, played, PlayerName) && Same(st, played, Params);
  }

  /** Red hits touch only the hit count, lives and the game-over flag. */
  lemma {:induction false} RedHitsRepeatedKeepsRest(st: Store, n: nat)
    ensures Unchanged(st, RedHitsRepeated(st, n), {RedHits, Lives, IsGameOver})
    decreases n
  {
    if n > 0 {
      RedHitsRepeatedKeepsRest(st, n - 1);
      var before := RedHitsRepeated(st, n - 1);
      forall f: Field | f !in {RedHits, Lives, IsGameOver}
        ensures Same(st, IncrementRedHits(before), f)
      {
        assert Same(st, before, f);
      }
    } else {
      assert RedHitsRepeated(st, 0) == st;
    }
  }

  /** A fresh store is already reset. */
  lemma InitIsReset(saved: Option<string>)
    ensures ResetGame(Init(saved)) == Init(saved)
  {
  }

  // --------------------------------------------------------------- setters

  function SetSessionId(st: Store, id: Option<string>): (r: Store)
    ensures r.sessionId == id && Unchanged(st, r, {SessionId})
  {
    st.(sessionId := id)
  }

  function SetMySocketId(st: Store, id: Option<string>): (r: Store)
    ensures r.mySocketId == id && Unchanged(st, r, {MySocketId})
  {
    st.(mySocketId := id)
  }

  /** `setPlayerName`; the copy it writes to the browser's storage is not modelled. */
  function SetPlayerName(st: Store, name: string): (r: Store)
    ensures r.playerName == name && Unchanged(st, r, {PlayerName})
  {
    st.(playerName := name)
  }

  function SetCurrentCube(st: Store, cube: Option<GameSession.Cube>): (r: Store)
    ensures r.currentCube == cube && Unchanged(st, r, {CurrentCube})
  {
    st.(currentCube := cube)
  }

  function SetCubeIsUp(st: Store, isUp: bool): (r: Store)
    ensures r.cubeIsUp == isUp && Unchanged(st, r, {CubeIsUp})
  {
    st.(cubeIsUp := isUp)
  }

  function SetHammerPosition(st: Store, pos: seq<real>): (r: Store)
    ensures r.hammerPosition == pos && Unchanged(st, r, {HammerPosition})
  {
    st.(hammerPosition := pos)
  }

  function SetHammerVelocity(st: Store, vel: real): (r: Store)
    ensures r.hammerVelocity == vel && Unchanged(st, r, {HammerVelocity})
  {
    st.(hammerVelocity := vel)
  }

  function SetHammerFalling(st: Store, falling: bool): (r: Store)
    ensures r.hammerFalling == falling && Unchanged(st, r, {HammerFalling})
  {
    st.(hammerFalling := falling)
  }

  function SetHammerRaised(st: Store, raised: bool): (r: Store)
    ensures r.hammerRaised == raised && Unchanged(st, r, {HammerRaised})
  {
    st.(hammerRaised := raised)
  }

  function UpdateAllPlayers(st: Store, players: seq<GameSession.Player>): (r: Store)
    ensures r.allPlayers == players && Unchanged(st, r, {AllPlayers})
  {
    st.(allPlayers := players)
  }

  /** No setter disturbs the `lives + redHits` bookkeeping. */
  lemma SettersKeepConsistency(st: Store, touched: set<Field>, r: Store)
    requires Consistent(st) && Unchanged(st, r, touched)
    requires Lives !in touched && RedHits !in touched && IsGameOver !in touched
    ensures Consistent(r)
  {
    assert Same(st, r, Lives) && Same(st, r, RedHits) && Same(st, r, IsGameOver);
  }
}
