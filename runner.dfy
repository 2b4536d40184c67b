/**
 * The headless batch runner: the player line-up of each game, the result
 * counters it keeps while games finish or fail, and the stop request that
 * keeps later games from starting. Running a game itself (the game manager,
 * the LLM calls, the store) is outside the model: each game slot arrives
 * with its outcome.
 */
module Runner {
  import opened Options
  import Records
  import PyStrings

  datatype BatchConfig = BatchConfig(
    numGames: int,
    playerCount: int,
    models: seq<(string, string)>,   // (model name, provider)
    rotateModels: bool,
    parallel: int,
    batchTag: Option<string>)

  datatype PlayerConfig = PlayerConfig(seat: int, name: string, isHuman: bool, model: string, provider: string)

  // ----- the line-up of one game -----

  /** The model a seat plays: shifted by the game index when rotating, by the seat alone otherwise. */
  function ModelIndex(config: BatchConfig, gameIndex: nat, seat: nat): (i: nat)
    requires config.models != []
    ensures i < |config.models|
  {
    if config.rotateModels then (gameIndex + seat) % |config.models| else seat % |config.models|
  }

  /** `range(player_count)` has no seats for a count below one. */
  function SeatCount(config: BatchConfig): nat {
    if config.playerCount > 0 then config.playerCount else 0
  }

  /** The configuration of one seat: an LLM player named after its seat, with the seat's model. */
  function SeatConfig(config: BatchConfig, gameIndex: nat, seat: nat): PlayerConfig
    requires config.models != []
  {
    var m := config.models[ModelIndex(config, gameIndex, seat)];
    PlayerConfig(seat, Records.DefaultPlayerName(seat), false, m.0, m.1)
  }

  /**
   * `_create_player_configs`: `ValueError` without models; otherwise one
   * configuration per seat, seat `s` being an LLM player named
   * `Player{s+1}` that plays the model `ModelIndex` picks.
   */
  function PlayerConfigs(config: BatchConfig, gameIndex: nat): (r: Result<seq<PlayerConfig>, string>)
    ensures r.Err? <==> config.models == []
    ensures r.Ok? ==>
      && |r.value| == SeatCount(config)
      && forall s :: 0 <= s < |r.value| ==>
        && r.value[s].seat == s
        && r.value[s].name == Records.DefaultPlayerName(s)
        && !r.value[s].isHuman
        && (r.value[s].model, r.value[s].provider) == config.models[ModelIndex(config, gameIndex, s)]
  {
    if config.models == [] then Err("ValueError")
    else Ok(seq(SeatCount(config), s requires 0 <= s < SeatCount(config) => SeatConfig(config, gameIndex, s)))
  }

  /** The seat loop of `_create_player_configs`. */
  method CreatePlayerConfigs(config: BatchConfig, gameIndex: nat) returns (r: Result<seq<PlayerConfig>, string>)
    ensures r == PlayerConfigs(config, gameIndex)
  {
    if config.models == [] {
      return Err("ValueError");
    }
    var configs: seq<PlayerConfig> := [];
    for seat := 0 to SeatCount(config)
      invariant |configs| == seat
      invariant forall s :: 0 <= s < seat ==> configs[s] == SeatConfig(config, gameIndex, s)
    {
      var modelIdx := if config.rotateModels then (gameIndex + seat) % |config.models| else seat % |config.models|;
      var m := config.models[modelIdx];
      assert modelIdx == ModelIndex(config, gameIndex, seat);
      configs := configs + [PlayerConfig(seat, Records.DefaultPlayerName(seat), false, m.0, m.1)];
    }
    ghost var expected := PlayerConfigs(config, gameIndex).value;
    assert forall s :: 0 <= s < |configs| ==> configs[s] == expected[s];
    assert configs == expected;
    return Ok(configs);
  }

  /** With rotation, each game hands every seat the model the next seat had in the previous game. */
  lemma RotationShifts(config: BatchConfig, gameIndex: nat, seat: nat)
    requires config.models != [] && config.rotateModels && seat + 1 < SeatCount(config)
    ensures PlayerConfigs(config, gameIndex + 1).value[seat].model == PlayerConfigs(config, gameIndex).value[seat + 1].model
  {
    assert ModelIndex(config, gameIndex + 1, seat) == ModelIndex(config, gameIndex, seat + 1);
  }

  /** Without rotation every game has the same line-up, the one the first game has with rotation. */
  lemma FixedLineUp(config: BatchConfig, gameIndex: nat)
    requires config.models != [] && !config.rotateModels
    ensures PlayerConfigs(config, gameIndex) == PlayerConfigs(config, 0)
    ensures PlayerConfigs(config, gameIndex) == PlayerConfigs(config.(rotateModels := true), 0)
  {
    var a := PlayerConfigs(config, gameIndex).value;
    var b := PlayerConfigs(config.(rotateModels := true), 0).value;
    var c := PlayerConfigs(config, 0).value;
    forall s | 0 <= s < |a| ensures a[s] == b[s] && a[s] == c[s] {
      assert ModelIndex(config, gameIndex, s) == ModelIndex(config.(rotateModels := true), 0, s);
      assert ModelIndex(config, gameIndex, s) == ModelIndex(config, 0, s);
    }
    assert a == b && a == c;
  }

  // ----- recording finished and failed games -----

  /** How a game slot ended: the game ran to its end, or an exception was raised while running it. */
  datatype Outcome = Finished(gameId: string, winner: Option<string>) | Failed(reason: string)

  /** The counters `_run_game_and_record` updates: the `BatchResult` fields and `_completed_count`. */
  datatype Tallies = Tallies(
    completedGames: nat,
    failedGames: nat,
    goodWins: nat,
    evilWins: nat,
    gameIds: seq<string>,
    errors: seq<string>,
    completedCount: nat)

  const NoTallies := Tallies(0, 0, 0, 0, [], [], 0)

  /** `f"Game {game_index+1} failed: {str(e)}"`. */
  function ErrorMessage(gameIndex: nat, reason: string): string {
    "Game " + PyStrings.IntToString(gameIndex + 1) + " failed: " + reason
  }

  /**
   * `_run_game_and_record`: a finished game counts as completed, records its
   * id and its winner's win; a failed one counts as failed and records one
   * error message. Either way `_completed_count` goes up by one.
   */
  function Recorded(t: Tallies, gameIndex: nat, outcome: Outcome): (t': Tallies)
    ensures t'.completedCount == t.completedCount + 1
    ensures t'.completedGames + t'.failedGames == t.completedGames + t.failedGames + 1
    ensures outcome.Failed? ==>
      && t'.completedGames == t.completedGames && t'.gameIds == t.gameIds
      && t'.goodWins == t.goodWins && t'.evilWins == t.evilWins
      && t'.errors == t.errors + [ErrorMessage(gameIndex, outcome.reason)]
    ensures outcome.Finished? ==>
      && t'.gameIds == t.gameIds + [outcome.gameId] && t'.errors == t.errors
      && (t'.goodWins == t.goodWins + 1 <==> outcome.winner == Some("good"))
      && (t'.evilWins == t.evilWins + 1 <==> outcome.winner == Some("evil"))
  {
    match outcome
    case Finished(id, winner) =>
      t.(goodWins := if winner == Some("good") then t.goodWins + 1 else t.goodWins,
         evilWins := if winner == Some("evil") then t.evilWins + 1 else t.evilWins,
         completedGames := t.completedGames + 1,
         gameIds := t.gameIds + [id],
         completedCount := t.completedCount + 1)
    case Failed(reason) =>
      t.(failedGames := t.failedGames + 1,
         completedCount := t.completedCount + 1,
         errors := t.errors + [ErrorMessage(gameIndex, reason)])
  }

  /**
   * The counters agree with each other: every recorded game is completed or
   * failed, with one id per completed game, one error per failed one, and
   * at most one win per completed game.
   */
  ghost predicate Consistent(t: Tallies) {
    && t.completedCount == t.completedGames + t.failedGames
    && |t.gameIds| == t.completedGames
    && |t.errors| == t.failedGames
    && t.goodWins + t.evilWins <= t.completedGames
  }

  // ----- a run as a sequence of events -----

  /** What happens to the runner: a stop request, or a game slot that acquires the semaphore. */
  datatype Event = StopRequested | SlotStarts(gameIndex: nat, outcome: Outcome)

  datatype RunState = RunState(stopRequested: bool, tallies: Tallies)

  /** `stop()`, or `run_with_semaphore`: a slot starting after a stop request returns at once. */
  function Step(s: RunState, e: Event): RunState {
    match e
    case StopRequested => s.(stopRequested := true)
    case SlotStarts(i, outcome) => if s.stopRequested then s else s.(tallies := Recorded(s.tallies, i, outcome))
  }

  function Replay(s: RunState, events: seq<Event>): RunState
    decreases |events|
  {
    if events == [] then s else Replay(Step(s, events[0]), events[1..])
  }

  /**
   * The counts handed to the progress callback: after each game that
   * finishes in a slot starting before a stop request, the running
   * `_completed_count`. A failed game reports nothing.
   */
  function Progress(s: RunState, events: seq<Event>): seq<nat>
    decreases |events|
  {
    if events == [] then []
    else
      var s' := Step(s, events[0]);
      (if !s.stopRequested && events[0].SlotStarts? && events[0].outcome.Finished? then [s'.tallies.completedCount] else [])
      + Progress(s', events[1..])
  }

  /**
   * The progress counts rise strictly, each above the count the run started
   * from and none above the count it ends with.
   */
  lemma {:induction false} ProgressRises(s: RunState, events: seq<Event>)
    ensures s.tallies.completedCount <= Replay(s, events).tallies.completedCount
    ensures forall k :: 0 <= k < |Progress(s, events)| ==>
      s.tallies.completedCount < Progress(s, events)[k] <= Replay(s, events).tallies.completedCount
    ensures forall j, k :: 0 <= j < k < |Progress(s, events)| ==> Progress(s, events)[j] < Progress(s, events)[k]
    decreases |events|
  {
    if events != [] {
      var s' := Step(s, events[0]);
      ProgressRises(s', events[1..]);
      var head := if !s.stopRequested && events[0].SlotStarts? && events[0].outcome.Finished? then [s'.tallies.completedCount] else [];
      assert Progress(s, events) == head + Progress(s', events[1..]);
    }
  }

  /** A replay from position `i` is one step, then the replay from `i + 1`. */
  lemma ReplayFrom(s: RunState, events: seq<Event>, i: nat)
    requires i < |events|
    ensures Replay(s, events[i..]) == Replay(Step(s, events[i]), events[i + 1..])
    ensures Progress(s, events[i..]) ==
      (if !s.stopRequested && events[i].SlotStarts? && events[i].outcome.Finished? then [Step(s, events[i]).tallies.completedCount] else [])
      + Progress(Step(s, events[i]), events[i + 1..])
  {
    assert events[i..][1..] == events[i + 1..];
  }

  lemma AppendAssociates(a: seq<nat>, b: seq<nat>, c: seq<nat>)
    ensures (a + b) + c == a + (b + c)
  {}

  /** The number of slots that start before the first stop request. */
  function SlotsBeforeStop(events: seq<Event>): nat {
    if events == [] || events[0].StopRequested? then 0 else 1 + SlotsBeforeStop(events[1..])
  }

  /** Every run keeps the counters consistent. */
  lemma {:induction false} ReplayConsistent(s: RunState, events: seq<Event>)
    requires Consistent(s.tallies)
    ensures Consistent(Replay(s, events).tallies)
    decreases |events|
  {
    if events != [] {
      ReplayConsistent(Step(s, events[0]), events[1..]);
    }
  }

  /** Once a stop is requested, no later slot changes anything. */
  lemma {:induction false} StoppedRunFrozen(s: RunState, events: seq<Event>)
    requires s.stopRequested
    ensures Replay(s, events) == s
    decreases |events|
  {
    if events != [] {
      StoppedRunFrozen(Step(s, events[0]), events[1..]);
    }
  }

  /** Exactly the slots that start before the first stop request are recorded. */
  lemma {:induction false} ReplayRecordsSlotsBeforeStop(s: RunState, events: seq<Event>)
    requires !s.stopRequested
    ensures Replay(s, events).tallies.completedCount == s.tallies.completedCount + SlotsBeforeStop(events)
    decreases |events|
  {
    if events != [] {
      if events[0].StopRequested? {
        StoppedRunFrozen(Step(s, events[0]), events[1..]);
      } else {
        ReplayRecordsSlotsBeforeStop(Step(s, events[0]), events[1..]);
      }
    }
  }

  class BatchResult {
    const totalGames: int
    const batchId: string
    var completedGames: nat
    var failedGames: nat
    var goodWins: nat
    var evilWins: nat
    var gameIds: seq<string>
    var errors: seq<string>

    constructor(totalGames: int, batchId: string)
      ensures this.totalGames == totalGames && this.batchId == batchId
      ensures completedGames == 0 && failedGames == 0 && goodWins == 0 && evilWins == 0
      ensures gameIds == [] && errors == []
    {
      this.totalGames := totalGames;
      this.batchId := batchId;
      completedGames := 0;
      failedGames := 0;
      goodWins := 0;
      evilWins := 0;
      gameIds := [];
      errors := [];
    }
  }

  class BatchGameRunner {
    const config: BatchConfig
    var stopRequested: bool
    var result: BatchResult
    var completedCount: nat

    /** The runner's state: its stop flag and its counters. */
    function State(): RunState
      reads this, result
    {
      RunState(stopRequested, Tallies(result.completedGames, result.failedGames, result.goodWins, result.evilWins,
        result.gameIds, result.errors, completedCount))
    }

    constructor(config: BatchConfig)
      ensures this.config == config && !stopRequested
      ensures fresh(result) && State().tallies == NoTallies
    {
      this.config := config;
      stopRequested := false;
      result := new BatchResult(config.numGames, "");
      completedCount := 0;
    }

    /** `stop`. */
    method Stop()
      modifies this
      ensures result == old(result)
      ensures State() == Step(old(State()), StopRequested)
    {
      stopRequested := true;
    }

    /**
     * `_run_game_and_record` once the game has ended; on success it also
     * returns the count passed to the progress callback.
     */
    method RecordGame(gameIndex: nat, outcome: Outcome) returns (progress: Option<nat>)
      modifies this, result
      ensures result == old(result) && stopRequested == old(stopRequested)
      ensures State().tallies == Recorded(old(State().tallies), gameIndex, outcome)
      ensures progress == if outcome.Finished? then Some(completedCount) else None
    {
      match outcome
      case Finished(id, winner) =>
        if winner == Some("good") {
          result.goodWins := result.goodWins + 1;
        } else if winner == Some("evil") {
          result.evilWins := result.evilWins + 1;
        }
        result.completedGames := result.completedGames + 1;
        result.gameIds := result.gameIds + [id];
        completedCount := completedCount + 1;
        progress := Some(completedCount);
      case Failed(reason) =>
        result.failedGames := result.failedGames + 1;
        completedCount := completedCount + 1;
        result.errors := result.errors + [ErrorMessage(gameIndex, reason)];
        progress := None;
    }

    /** `run_with_semaphore`: nothing happens for a slot that starts after a stop request. */
    method RunSlot(gameIndex: nat, outcome: Outcome) returns (progress: Option<nat>)
      modifies this, result
      ensures result == old(result)
      ensures State() == Step(old(State()), SlotStarts(gameIndex, outcome))
      ensures progress == if !old(stopRequested) && outcome.Finished? then Some(completedCount) else None
    {
      if stopRequested {
        return None;
      }
      progress := RecordGame(gameIndex, outcome);
    }

    /**
     * `run` with its slots and stop requests in the order they happen: a
     * fresh result for the batch, counters from zero, and a stop requested
     * before the run still in force. `progress` holds the counts passed to
     * the progress callback, in the order the callback receives them.
     */
    method Run(batchId: string, events: seq<Event>) returns (r: BatchResult, progress: seq<nat>)
      modifies this
      ensures fresh(r) && r == result && r.batchId == batchId && r.totalGames == config.numGames
      ensures State() == Replay(RunState(old(stopRequested), NoTallies), events)
      ensures progress == Progress(RunState(old(stopRequested), NoTallies), events)
    {
      r := new BatchResult(config.numGames, batchId);
      result := r;
      completedCount := 0;
      progress := [];
      for i := 0 to |events|
        invariant result == r && fresh(r) && r.batchId == batchId && r.totalGames == config.numGames
        invariant Replay(State(), events[i..]) == Replay(RunState(old(stopRequested), NoTallies), events)
        invariant progress + Progress(State(), events[i..]) == Progress(RunState(old(stopRequested), NoTallies), events)
      {
        ghost var before := State();
        ghost var reported := progress;
        ReplayFrom(before, events, i);
        var p: Option<nat> := None;
        match events[i]
        case StopRequested =>
          Stop();
        case SlotStarts(gameIndex, outcome) =>
          p := RunSlot(gameIndex, outcome);
        var counts := if p.Some? then [p.value] else [];
        assert counts == if !before.stopRequested && events[i].SlotStarts? && events[i].outcome.Finished?
          then [State().tallies.completedCount] else [];
        ghost var rest := Progress(State(), events[i + 1..]);
        assert Progress(before, events[i..]) == counts + rest;
        AppendAssociates(reported, counts, rest);
        progress := progress + counts;
      }
    }
  }
}
