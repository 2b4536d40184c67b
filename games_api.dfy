/**
 * The game routes of the HTTP API: the checks a create-game request must
 * pass before a game is made, and which view `GET /games/{id}` returns — the
 * live game's own view, revealed on request or once finished, or the stored
 * game's response, or 404.
 */
module GamesApi {
  import opened Options
  import PyStrings
  import State
  import Records
  import Repository

  datatype PlayerSpec = PlayerSpec(seat: int, name: string, isHuman: bool, model: Option<string>, provider: Option<string>)

  datatype GameCreate = GameCreate(playerCount: int, players: seq<PlayerSpec>)

  datatype HttpError = HttpError(statusCode: int, detail: string)

  // ----- seats -----

  /** `set(seats)`. */
  function SeatSet(players: seq<PlayerSpec>): set<int> {
    set i | 0 <= i < |players| :: players[i].seat
  }

  /** `set(range(n))`. */
  function Range(n: int): set<int>
    decreases n
  {
    if n <= 0 then {} else Range(n - 1) + {n - 1}
  }

  lemma {:induction false} RangeHas(n: int, k: int)
    ensures k in Range(n) <==> 0 <= k < n
    decreases n
  {
    if n > 0 {
      RangeHas(n - 1, k);
    }
  }

  predicate SeatsDistinct(players: seq<PlayerSpec>) {
    forall i, j :: 0 <= i < j < |players| ==> players[i].seat != players[j].seat
  }

  /** `len(set(seats)) == len(seats)` exactly when no two players share a seat. */
  lemma {:induction false} SeatSetSize(players: seq<PlayerSpec>)
    ensures |SeatSet(players)| <= |players|
    ensures |SeatSet(players)| == |players| <==> SeatsDistinct(players)
    decreases |players|
  {
    if players != [] {
      var n := |players| - 1;
      SeatSetSize(players[..n]);
      SeatSetLast(players);
      DistinctLast(players);
    }
  }

  lemma SeatSetLast(players: seq<PlayerSpec>)
    requires players != []
    ensures SeatSet(players) == SeatSet(players[..|players| - 1]) + {players[|players| - 1].seat}
  {
    var n := |players| - 1;
    var init := players[..n];
    forall s | s in SeatSet(players) ensures s in SeatSet(init) + {players[n].seat} {
      var i :| 0 <= i < |players| && players[i].seat == s;
      if i < n {
        assert init[i] == players[i];
      }
    }
    forall s | s in SeatSet(init) ensures s in SeatSet(players) {
      var i :| 0 <= i < |init| && init[i].seat == s;
      assert players[i] == init[i];
    }
  }

  lemma DistinctLast(players: seq<PlayerSpec>)
    requires players != []
    ensures SeatsDistinct(players) <==>
      SeatsDistinct(players[..|players| - 1]) && players[|players| - 1].seat !in SeatSet(players[..|players| - 1])
  {
    var n := |players| - 1;
    var init := players[..n];
    if SeatsDistinct(players) {
      forall i, j | 0 <= i < j < |init| ensures init[i].seat != init[j].seat {
        assert init[i] == players[i] && init[j] == players[j];
      }
      forall i | 0 <= i < |init| ensures init[i].seat != players[n].seat {
        assert init[i] == players[i];
      }
    } else {
      var i, j :| 0 <= i < j < |players| && players[i].seat == players[j].seat;
      assert init[i] == players[i];
      if j < n {
        assert init[j] == players[j];
      }
    }
  }

  lemma {:induction false} RangeSize(n: nat)
    ensures |Range(n)| == n
    decreases n
  {
    if n > 0 {
      RangeSize(n - 1);
      RangeHas(n - 1, n - 1);
    }
  }

  // ----- the create-game checks -----

  /** A player that is not human yet lacks a model or a provider (`None` and `""` both count as missing). */
  predicate Unconfigured(p: PlayerSpec) {
    !p.isHuman && (p.model.None? || p.model.value == "" || p.provider.None? || p.provider.value == "")
  }

  /** The first unconfigured player, in request order. */
  function FirstUnconfigured(players: seq<PlayerSpec>): (r: Option<nat>)
    ensures r.None? <==> forall i :: 0 <= i < |players| ==> !Unconfigured(players[i])
    ensures r.Some? ==> r.value < |players| && Unconfigured(players[r.value])
                        && forall i :: 0 <= i < r.value ==> !Unconfigured(players[i])
  {
    if players == [] then None
    else if Unconfigured(players[0]) then Some(0)
    else match FirstUnconfigured(players[1..])
      case None => None
      case Some(k) => Some(k + 1)
  }

  /** `create_game`'s checks, in order; the request is passed on when all hold. */
  function ValidateCreate(config: GameCreate): (r: Result<GameCreate, HttpError>)
    ensures r.Ok? ==> r.value == config
    ensures r.Err? ==> r.error.statusCode == 400
  {
    if |config.players| != config.playerCount then
      Err(HttpError(400, "Expected " + PyStrings.IntToString(config.playerCount) + " players, got " + PyStrings.IntToString(|config.players|)))
    else if |SeatSet(config.players)| != |config.players| then
      Err(HttpError(400, "Duplicate seats"))
    else if SeatSet(config.players) != Range(config.playerCount) then
      Err(HttpError(400, "Invalid seat numbers"))
    else match FirstUnconfigured(config.players)
      case Some(i) => Err(HttpError(400, "Player " + config.players[i].name + " is not human but missing model/provider"))
      case None => Ok(config)
  }

  /** Some player sits at `seat`. */
  ghost predicate Holds(players: seq<PlayerSpec>, seat: int) {
    exists i :: 0 <= i < |players| && players[i].seat == seat
  }

  /** Each seat 0 .. n-1 is held by exactly one of the players. */
  ghost predicate SeatsArePermutation(players: seq<PlayerSpec>, n: int) {
    && (forall i :: 0 <= i < |players| ==> 0 <= players[i].seat < n)
    && (forall s :: 0 <= s < n ==> Holds(players, s))
    && SeatsDistinct(players)
  }

  /**
   * A request is accepted exactly when it has one player per seat, its
   * seats are 0 .. n-1 each taken once, and every LLM player names a model
   * and a provider.
   */
  lemma CreateAccepted(config: GameCreate)
    ensures ValidateCreate(config).Ok? <==>
      && |config.players| == config.playerCount
      && SeatsArePermutation(config.players, config.playerCount)
      && forall i :: 0 <= i < |config.players| ==> !Unconfigured(config.players[i])
  {
    SeatChecks(config.players, config.playerCount);
  }

  /** The two seat checks together say that the seats are 0 .. n-1, each taken once. */
  lemma SeatChecks(ps: seq<PlayerSpec>, n: int)
    ensures (|SeatSet(ps)| == |ps| && SeatSet(ps) == Range(n)) <==> SeatsArePermutation(ps, n)
  {
    SeatSetSize(ps);
    if SeatsDistinct(ps) && SeatSet(ps) == Range(n) {
      SeatsFromRange(ps, n);
    }
    if SeatsArePermutation(ps, n) {
      RangeFromSeats(ps, n);
    }
  }

  lemma SeatSetHas(ps: seq<PlayerSpec>, s: int)
    ensures s in SeatSet(ps) <==> Holds(ps, s)
  {
  }

  lemma SeatsFromRange(ps: seq<PlayerSpec>, n: int)
    requires SeatSet(ps) == Range(n)
    ensures forall i :: 0 <= i < |ps| ==> 0 <= ps[i].seat < n
    ensures forall s :: 0 <= s < n ==> Holds(ps, s)
  {
    forall i | 0 <= i < |ps| ensures 0 <= ps[i].seat < n {
      SeatSetHas(ps, ps[i].seat);
      RangeHas(n, ps[i].seat);
    }
    forall s | 0 <= s < n ensures Holds(ps, s) {
      RangeHas(n, s);
      SeatSetHas(ps, s);
    }
  }

  lemma RangeFromSeats(ps: seq<PlayerSpec>, n: int)
    requires forall i :: 0 <= i < |ps| ==> 0 <= ps[i].seat < n
    requires forall s :: 0 <= s < n ==> Holds(ps, s)
    ensures SeatSet(ps) == Range(n)
  {
    forall s | s in Range(n) ensures s in SeatSet(ps) {
      RangeHas(n, s);
      SeatSetHas(ps, s);
    }
    forall s | s in SeatSet(ps) ensures s in Range(n) {
      SeatSetHas(ps, s);
      var i :| 0 <= i < |ps| && ps[i].seat == s;
      RangeHas(n, s);
    }
  }

  /** The failing check decides the message: a count mismatch is reported before any seat problem. */
  lemma CreateRejections(config: GameCreate)
    ensures |config.players| != config.playerCount ==>
      ValidateCreate(config).Err? && ValidateCreate(config).error.detail ==
        "Expected " + PyStrings.IntToString(config.playerCount) + " players, got " + PyStrings.IntToString(|config.players|)
    ensures |config.players| == config.playerCount && !SeatsDistinct(config.players) ==>
      ValidateCreate(config) == Err(HttpError(400, "Duplicate seats"))
    ensures |config.players| == config.playerCount && SeatsDistinct(config.players) && SeatSet(config.players) != Range(config.playerCount) ==>
      ValidateCreate(config) == Err(HttpError(400, "Invalid seat numbers"))
  {
    SeatSetSize(config.players);
  }

  /** With a count check passed and distinct seats, the seat check holds for any n seats in 0 .. n-1. */
  lemma DistinctSeatsInRange(players: seq<PlayerSpec>)
    requires SeatsDistinct(players)
    requires forall i :: 0 <= i < |players| ==> 0 <= players[i].seat < |players|
    ensures SeatSet(players) == Range(|players|)
  {
    SeatSetSize(players);
    RangeSize(|players|);
    forall s | s in SeatSet(players) ensures s in Range(|players|) {
      RangeHas(|players|, s);
    }
    SubsetOfSameSize(SeatSet(players), Range(|players|));
  }

  lemma SubsetOfSameSize(a: set<int>, b: set<int>)
    requires a <= b && |a| == |b|
    ensures a == b
  {
    assert b == a + (b - a) && a * (b - a) == {};
    assert |b - a| == 0;
  }

  // ----- looking a game up -----

  datatype GameLookup = Live(view: State.GameView) | Stored(response: Repository.GameResponse)

  /** `should_reveal` for a game held in memory. */
  predicate RevealLive(g: State.Game, revealAll: bool) {
    revealAll || g.status == State.Finished
  }

  /** `get_game`: the live game first, the stored game next, 404 otherwise. */
  function GetGame(active: Option<State.Game>, stored: Option<(Records.StoredGame, seq<Records.Action>)>, revealAll: bool): (r: Result<GameLookup, HttpError>)
    ensures r.Err? <==> active.None? && stored.None?
    ensures r.Err? ==> r.error == HttpError(404, "Game not found")
    ensures active.Some? ==> r.Ok? && r.value.Live? && |r.value.view.players| == |active.value.players|
  {
    if active.Some? then
      Ok(Live(State.ToDict(active.value, None, RevealLive(active.value, revealAll))))
    else if stored.Some? then
      Ok(Stored(Repository.GameToResponse(stored.value.0, stored.value.1, revealAll)))
    else Err(HttpError(404, "Game not found"))
  }

  /** A live game shows every role and team when asked to or once finished. */
  lemma LiveGameRevealed(g: State.Game, stored: Option<(Records.StoredGame, seq<Records.Action>)>, revealAll: bool, i: int)
    requires revealAll || g.status == State.Finished
    requires 0 <= i < |g.players|
    ensures var v := GetGame(Some(g), stored, revealAll).value.view;
      v.players[i].role == g.players[i].role && v.players[i].team == State.TeamOf(g.players[i])
  {
    State.ToDictRevealed(g, None, RevealLive(g, revealAll), i);
  }

  /**
   * The finished-game test is the game view's own rule too, so for a live
   * game the route's view is the view asked for with the flag as given.
   */
  lemma LiveRevealRedundant(g: State.Game, stored: Option<(Records.StoredGame, seq<Records.Action>)>, revealAll: bool)
    ensures GetGame(Some(g), stored, revealAll) == Ok(Live(State.ToDict(g, None, revealAll)))
  {
    var a := State.ToDict(g, None, RevealLive(g, revealAll));
    var b := State.ToDict(g, None, revealAll);
    assert State.RevealsAll(g, RevealLive(g, revealAll)) == State.RevealsAll(g, revealAll);
    assert a.players == b.players;
    assert a.questResults == b.questResults;
  }
}
