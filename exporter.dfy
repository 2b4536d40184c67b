/**
 * The training-data exporter: which finished games it selects, how it turns
 * a game's action log into numbered LLM decisions, the game outcome it
 * attaches, and the summary counters it keeps over an export.
 */
module Exporter {
  import opened Options
  import opened Json
  import opened PyDicts
  import opened Records
  import Roles
  import Repository

  // ----- teams -----

  /** The role names `_get_team` counts as evil. */
  const EvilRoleNames: set<string> := {"assassin", "minion", "morgana", "mordred", "oberon"}

  /** `_get_team`: "evil" for the evil role names, "good" for anything else ("unknown" and a missing role included). */
  function ExportTeam(role: Option<string>): (team: string)
    ensures team == "evil" <==> role.Some? && role.value in EvilRoleNames
    ensures team != "evil" ==> team == "good"
  {
    if role.Some? && role.value in EvilRoleNames then "evil" else "good"
  }

  /** For the roles the game deals, the exported team is the role table's team. */
  lemma ExportTeamAgrees(r: Roles.Role)
    ensures ExportTeam(Some(Roles.Name(r))) == Roles.TeamName(Roles.GetTeam(r))
  {}

  /**
   * For a non-empty role the exported team is the team the store's responses
   * show; a missing role is "good" here where the win statistics call it "evil".
   */
  lemma ExportTeamMatchesStore(role: Option<string>)
    ensures TruthyString(role) ==> Repository.TeamForRole(role) == Some(ExportTeam(role))
    ensures ExportTeam(None) == "good" && Repository.StatsTeam(None) == "evil"
    ensures ExportTeam(Some("unknown")) == "good" && Repository.StatsTeam(Some("unknown")) == "evil"
  {}

  // ----- players by seat -----

  /**
   * `{p["seat"]: p for p in players}.get(seat)`: the LAST player with that
   * seat, since a later entry of the comprehension replaces an earlier one.
   */
  function PlayerAt(players: seq<StoredPlayer>, seat: int): (p: Option<StoredPlayer>)
    ensures p.None? <==> forall i :: 0 <= i < |players| ==> players[i].seat != seat
    ensures forall i ::
      (0 <= i < |players| && players[i].seat == seat && forall j :: i < j < |players| ==> players[j].seat != seat) ==>
        p == Some(players[i])
  {
    if players == [] then None
    else
      var last := players[|players| - 1];
      var rest := players[..|players| - 1];
      assert forall i :: 0 <= i < |rest| ==> rest[i] == players[i];
      if last.seat == seat then Some(last) else PlayerAt(rest, seat)
  }

  /** `player_map.get(seat, {}).get("role")`. */
  function RoleAt(players: seq<StoredPlayer>, seat: int): Option<string> {
    match PlayerAt(players, seat)
    case Some(p) => p.role
    case None => None
  }

  // ----- decisions -----

  /** One LLM decision of the trajectory. `reasoning` is `JNull` when the output has no reasoning. */
  datatype Decision = Decision(
    seqNum: nat,
    playerSeat: int,
    playerName: string,
    playerRole: Option<string>,
    playerTeam: string,
    modelName: Option<string>,
    provider: Option<string>,
    roundNum: int,
    voteAttempt: Option<int>,
    actionType: string,
    llmInput: Json,
    llmOutput: Json,
    content: Option<string>,
    vote: Option<bool>,
    team: Option<seq<int>>,
    target: Option<int>,
    reasoning: Json,
    timestamp: string)

  /** An action becomes a decision when its `llm_input` is truthy. */
  predicate Logged(a: Action) {
    Truthy(a.llmInput)
  }

  /** A logged action whose `llm_output` is not a dict: reading its reasoning raises `AttributeError`. */
  predicate Unreadable(a: Action) {
    Logged(a) && !a.llmOutput.JObj?
  }

  /** `[a for a in actions if a.get("llm_input")]`, the reference for which actions become decisions. */
  function LoggedActions(actions: seq<Action>): (r: seq<Action>)
    ensures |r| <= |actions|
    ensures forall k :: 0 <= k < |r| ==> Logged(r[k]) && r[k] in actions
  {
    if actions == [] then []
    else
      var rest := actions[..|actions| - 1];
      var last := actions[|actions| - 1];
      assert forall a :: a in rest ==> a in actions;
      LoggedActions(rest) + (if Logged(last) then [last] else [])
  }

  /**
   * The decision made from a logged action. A seat without a player reads
   * as role "unknown" (hence team "good"), name `Player{seat+1}`, and empty
   * model and provider; otherwise the seat's player supplies them.
   */
  function DecisionOf(a: Action, players: seq<StoredPlayer>, seqNum: nat): (d: Decision)
    requires a.llmOutput.JObj?
    ensures d.seqNum == seqNum && d.playerSeat == a.playerSeat && d.actionType == a.actionType
    ensures d.playerTeam == ExportTeam(d.playerRole)
    ensures PlayerAt(players, a.playerSeat).None? ==>
      && d.playerRole == Some("unknown") && d.playerTeam == "good"
      && d.playerName == DefaultPlayerName(a.playerSeat)
      && d.modelName == Some("") && d.provider == Some("")
    ensures PlayerAt(players, a.playerSeat).Some? ==>
      var p := PlayerAt(players, a.playerSeat).value;
      d.playerName == p.name && d.playerRole == p.role && d.modelName == p.modelName && d.provider == p.provider
  {
    var p := PlayerAt(players, a.playerSeat);
    var role := if p.Some? then p.value.role else Some("unknown");
    Decision(
      seqNum, a.playerSeat,
      if p.Some? then p.value.name else DefaultPlayerName(a.playerSeat),
      role, ExportTeam(role),
      if p.Some? then p.value.modelName else Some(""),
      if p.Some? then p.value.provider else Some(""),
      a.roundNum, a.voteAttempt, a.actionType, a.llmInput, a.llmOutput,
      a.content, a.vote, a.proposedTeam, a.targetSeat,
      Get(a.llmOutput.fields, "reasoning_content").GetOr(JNull),
      a.timestamp.GetOr(""))
  }

  /** The decision loop of `_build_trajectory`, over a prefix of the log. */
  function Decisions(actions: seq<Action>, players: seq<StoredPlayer>): (r: Result<seq<Decision>, string>)
    ensures r.Err? ==> r.error == "AttributeError"
  {
    if actions == [] then Ok([])
    else
      match Decisions(actions[..|actions| - 1], players)
      case Err(e) => Err(e)
      case Ok(ds) =>
        var a := actions[|actions| - 1];
        if !Logged(a) then Ok(ds)
        else if !a.llmOutput.JObj? then Err("AttributeError")
        else Ok(ds + [DecisionOf(a, players, |ds|)])
  }

  /**
   * The decisions are exactly the logged actions, in log order, numbered
   * 0, 1, 2, ...; the export fails exactly when a logged action's output is
   * not a dict.
   */
  lemma {:induction false} DecisionsFollowLog(actions: seq<Action>, players: seq<StoredPlayer>)
    ensures Decisions(actions, players).Ok? <==> forall i :: 0 <= i < |actions| ==> !Unreadable(actions[i])
    ensures Decisions(actions, players).Ok? ==>
      var ds := Decisions(actions, players).value;
      && |ds| == |LoggedActions(actions)|
      && forall k :: 0 <= k < |ds| ==>
        && LoggedActions(actions)[k].llmOutput.JObj?
        && ds[k] == DecisionOf(LoggedActions(actions)[k], players, k)
        && ds[k].seqNum == k
  {
    if actions != [] {
      var rest := actions[..|actions| - 1];
      var a := actions[|actions| - 1];
      assert forall i :: 0 <= i < |rest| ==> rest[i] == actions[i];
      DecisionsFollowLog(rest, players);
      if Decisions(rest, players).Ok? && Logged(a) && a.llmOutput.JObj? {
        var ds := Decisions(rest, players).value;
        var logged := LoggedActions(actions);
        assert logged == LoggedActions(rest) + [a];
        var ds' := ds + [DecisionOf(a, players, |ds|)];
        forall k | 0 <= k < |ds'|
          ensures logged[k].llmOutput.JObj? && ds'[k] == DecisionOf(logged[k], players, k)
        {
          if k < |ds| {
            assert logged[k] == LoggedActions(rest)[k];
          }
        }
      }
    }
  }

  /** `_build_trajectory`'s loop: skip unlogged actions, number the rest with the `seq_num` counter. */
  method BuildDecisions(actions: seq<Action>, players: seq<StoredPlayer>) returns (r: Result<seq<Decision>, string>)
    ensures r == Decisions(actions, players)
  {
    var decisions: seq<Decision> := [];
    var seqNum: nat := 0;
    for i := 0 to |actions|
      invariant Decisions(actions[..i], players) == Ok(decisions)
      invariant seqNum == |decisions|
    {
      var a := actions[i];
      assert actions[..i + 1][..i] == actions[..i];
      if Logged(a) {
        if !a.llmOutput.JObj? {
          DecisionsFollowLog(actions[..i + 1], players);
          DecisionsFollowLog(actions, players);
          assert actions[..i + 1][i] == actions[i];
          return Err("AttributeError");
        }
        decisions := decisions + [DecisionOf(a, players, seqNum)];
        seqNum := seqNum + 1;
      }
    }
    assert actions[..|actions|] == actions;
    return Ok(decisions);
  }

  // ----- the assassination outcome -----

  /**
   * `merlin_assassinated`: the winner is "evil" and the first assassination
   * action targets a seat whose player's role is "merlin".
   */
  predicate MerlinAssassinated(winner: Option<string>, actions: seq<Action>, players: seq<StoredPlayer>) {
    && winner == Some("evil")
    && match FirstAssassinationTarget(actions)
       case Some(t) => RoleAt(players, t) == Some("merlin")
       case None => false
  }

  /** The scan for the first assassination action, stopping at it. */
  method FindMerlinAssassinated(winner: Option<string>, actions: seq<Action>, players: seq<StoredPlayer>)
    returns (assassinated: bool)
    ensures assassinated == MerlinAssassinated(winner, actions, players)
  {
    assassinated := false;
    if winner == Some("evil") {
      for i := 0 to |actions|
        invariant forall j :: 0 <= j < i ==> actions[j].actionType != "assassination"
      {
        if actions[i].actionType == "assassination" {
          var target := actions[i].targetSeat;
          if target.Some? && RoleAt(players, target.value) == Some("merlin") {
            assassinated := true;
          }
          return;
        }
      }
    }
  }

  // ----- trajectories -----

  /** A finished game with its action log and its stored timestamps, rendered by `isoformat()`. */
  datatype GameLog = GameLog(game: StoredGame, actions: seq<Action>, createdAt: Option<string>, finishedAt: Option<string>)

  datatype Trajectory = Trajectory(
    gameId: string,
    batchId: Option<string>,
    playerCount: int,
    players: seq<StoredPlayer>,
    winner: Option<string>,
    goodWon: bool,
    evilWon: bool,
    merlinAssassinated: bool,
    decisions: seq<Decision>,
    questResults: seq<Repository.QuestRecord>,
    voteHistory: seq<Repository.VoteRecord>,
    totalRounds: nat,
    totalDecisions: nat,
    createdAt: string,
    finishedAt: string)

  /** `game.get("batch_id")`. */
  function BatchIdOf(game: StoredGame): Option<string> {
    match game.batchId
    case Present(b) => Some(b)
    case Absent => None
  }

  /**
   * `total_rounds` as written: `len(game.get("quest_results", []))`. A game
   * document has no "quest_results" key (its rounds are stored under
   * "rounds", which is why `StoredGame` has no such field), so the default
   * `[]` always applies and the value is 0.
   */
  const TotalRoundsAsWritten: nat := 0

  /** The number of quests the trajectory reports, which `total_rounds` is meant to be. */
  function TotalRounds(questResults: seq<Repository.QuestRecord>): nat {
    |questResults|
  }

  /** `_build_trajectory`, with `total_rounds` as written. */
  function TrajectoryOf(log: GameLog): Result<Trajectory, string> {
    match Decisions(log.actions, log.game.players)
    case Err(e) => Err(e)
    case Ok(ds) =>
      var game := log.game;
      var response := Repository.GameToResponse(game, log.actions, true);
      Ok(Trajectory(
        game.id, BatchIdOf(game), game.playerCount, game.players, game.winner,
        game.winner == Some("good"), game.winner == Some("evil"),
        MerlinAssassinated(game.winner, log.actions, game.players),
        ds, response.questResults, response.voteHistory,
        TotalRoundsAsWritten, |ds|,
        log.createdAt.GetOr(""), log.finishedAt.GetOr("")))
  }

  /**
   * What a trajectory records: it fails exactly when a logged action's output
   * is unreadable; otherwise the winner decides `good_won` and `evil_won`
   * (never both), Merlin can only have been assassinated in an evil win, one
   * decision is numbered per logged action, and the round total is 0 however
   * many quests are reported.
   */
  lemma TrajectoryOutcome(log: GameLog)
    ensures TrajectoryOf(log).Err? <==> exists i :: 0 <= i < |log.actions| && Unreadable(log.actions[i])
    ensures TrajectoryOf(log).Ok? ==>
      var t := TrajectoryOf(log).value;
      && (t.goodWon <==> log.game.winner == Some("good"))
      && (t.evilWon <==> log.game.winner == Some("evil"))
      && !(t.goodWon && t.evilWon)
      && (t.merlinAssassinated ==> t.evilWon)
      && t.totalDecisions == |t.decisions| == |LoggedActions(log.actions)|
      && (forall k :: 0 <= k < |t.decisions| ==> t.decisions[k].seqNum == k)
      && t.totalRounds == 0
  {
    DecisionsFollowLog(log.actions, log.game.players);
  }

  /** `_build_trajectory`: the decision loop, then the assassination scan. */
  method BuildTrajectory(log: GameLog) returns (r: Result<Trajectory, string>)
    ensures r == TrajectoryOf(log)
  {
    var decisions := BuildDecisions(log.actions, log.game.players);
    if decisions.Err? {
      return Err(decisions.error);
    }
    var game := log.game;
    var response := Repository.GameToResponse(game, log.actions, true);
    var assassinated := FindMerlinAssassinated(game.winner, log.actions, game.players);
    var ds := decisions.value;
    return Ok(Trajectory(
      game.id, BatchIdOf(game), game.playerCount, game.players, game.winner,
      game.winner == Some("good"), game.winner == Some("evil"), assassinated,
      ds, response.questResults, response.voteHistory,
      TotalRoundsAsWritten, |ds|,
      log.createdAt.GetOr(""), log.finishedAt.GetOr("")));
  }

  /** The trajectory with `total_rounds` counting the quests it carries, as intended. */
  function CorrectedTrajectoryOf(log: GameLog): Result<Trajectory, string> {
    match TrajectoryOf(log)
    case Err(e) => Err(e)
    case Ok(t) => Ok(t.(totalRounds := TotalRounds(t.questResults)))
  }

  /**
   * A finished game with one stored round: its trajectory reports one quest,
   * yet the as-written `total_rounds` is 0; the corrected count is 1.
   */
  lemma TotalRoundsAsWrittenMissesQuests()
    ensures var game := StoredGame("g", "finished", "game_over", 5, Some("good"), [],
        [StoredRound(1, MemberList([0, 1]), Some(true), 0)], Present("batch"), Absent, Absent);
      var t := TrajectoryOf(GameLog(game, [], None, None));
      && t.Ok? && |t.value.questResults| == 1
      && t.value.totalRounds == 0
      && CorrectedTrajectoryOf(GameLog(game, [], None, None)).value.totalRounds == 1
  {
    var game := StoredGame("g", "finished", "game_over", 5, Some("good"), [],
        [StoredRound(1, MemberList([0, 1]), Some(true), 0)], Present("batch"), Absent, Absent);
    var response := Repository.GameToResponse(game, [], true);
    assert |response.questResults| == 1;
  }

  /**
   * The corrected trajectory differs from the as-written one only in its
   * round total, which counts the quests reported: one per stored round
   * when there are stored rounds.
   */
  lemma TrajectoryCountsStoredRounds(log: GameLog)
    requires TrajectoryOf(log).Ok?
    ensures CorrectedTrajectoryOf(log).Ok?
    ensures var t := CorrectedTrajectoryOf(log).value;
      && t == TrajectoryOf(log).value.(totalRounds := |t.questResults|)
      && (log.game.rounds != [] ==> t.totalRounds == |log.game.rounds|)
  {}

  // ----- selecting games -----

  /** The filters `_get_games` accepts. */
  datatype Filter = Filter(batchId: Option<string>, tag: Option<string>, gameIds: Option<seq<string>>, includeWeb: bool)

  /**
   * The query of `_get_games`: always a finished game; a batch game unless
   * web games are included; and, for each truthy filter, a match on it.
   */
  predicate Selected(game: StoredGame, f: Filter) {
    && game.status == "finished"
    && (f.includeWeb || game.source == Present("batch"))
    && (TruthyString(f.batchId) ==> game.batchId == Present(f.batchId.value))
    && (TruthyString(f.tag) ==> game.batchTag == Present(f.tag.value))
    && (f.gameIds.Some? && f.gameIds.value != [] ==> game.id in f.gameIds.value)
  }

  /** The filters combine conjunctively: a game passes all of them iff it passes each alone. */
  lemma SelectedConjunctive(game: StoredGame, f: Filter)
    ensures Selected(game, f) <==>
      && Selected(game, Filter(None, None, None, f.includeWeb))
      && Selected(game, Filter(f.batchId, None, None, true))
      && Selected(game, Filter(None, f.tag, None, true))
      && Selected(game, Filter(None, None, f.gameIds, true))
  {}

  /** `_get_games`: the selected logs, kept in the given (creation-time) order. */
  function GetGames(logs: seq<GameLog>, f: Filter): (r: seq<GameLog>)
    ensures |r| <= |logs|
    ensures forall k :: 0 <= k < |r| ==> r[k] in logs && Selected(r[k].game, f)
    ensures forall i :: 0 <= i < |logs| && Selected(logs[i].game, f) ==> logs[i] in r
  {
    if logs == [] then []
    else
      var rest := logs[..|logs| - 1];
      var last := logs[|logs| - 1];
      assert forall i :: 0 <= i < |rest| ==> rest[i] == logs[i];
      GetGames(rest, f) + (if Selected(last.game, f) then [last] else [])
  }

  // ----- export statistics -----

  /** The value of the `ExportStats` counters. */
  datatype Stats = Stats(totalGames: nat, totalDecisions: nat, goodWins: nat, evilWins: nat, decisionsByType: Dict<string, nat>)

  /** The action types of the decisions, in order. */
  function TypesOf(ds: seq<Decision>): (types: seq<string>)
    ensures |types| == |ds| && forall i :: 0 <= i < |ds| ==> types[i] == ds[i].actionType
  {
    seq(|ds|, i requires 0 <= i < |ds| => ds[i].actionType)
  }

  /** `decisions_by_type[d.action_type] = decisions_by_type.get(d.action_type, 0) + 1` for each decision. */
  function CountTypes(byType: Dict<string, nat>, ds: seq<Decision>): Dict<string, nat> {
    CountKeys(byType, TypesOf(ds))
  }

  /** What one exported trajectory adds to the counters: every game that good did not win is an evil win. */
  function Tally(s: Stats, t: Trajectory): Stats {
    Stats(
      s.totalGames + 1,
      s.totalDecisions + |t.decisions|,
      if t.goodWon then s.goodWins + 1 else s.goodWins,
      if t.goodWon then s.evilWins else s.evilWins + 1,
      CountTypes(s.decisionsByType, t.decisions))
  }

  /** The counters after exporting `ts` in order. */
  function StatsOf(ts: seq<Trajectory>): Stats {
    if ts == [] then Stats(0, 0, 0, 0, [])
    else Tally(StatsOf(ts[..|ts| - 1]), ts[|ts| - 1])
  }

  /** The trajectories of a sequence of logs; the first one that fails stops the export. */
  function Trajectories(logs: seq<GameLog>): Result<seq<Trajectory>, string> {
    if logs == [] then Ok([])
    else
      match Trajectories(logs[..|logs| - 1])
      case Err(e) => Err(e)
      case Ok(ts) =>
        match TrajectoryOf(logs[|logs| - 1])
        case Err(e) => Err(e)
        case Ok(t) => Ok(ts + [t])
  }

  /** The number of trajectories good won. */
  function GoodWins(ts: seq<Trajectory>): nat {
    if ts == [] then 0 else GoodWins(ts[..|ts| - 1]) + (if ts[|ts| - 1].goodWon then 1 else 0)
  }

  /** The decisions over all trajectories. */
  function DecisionTotal(ts: seq<Trajectory>): nat {
    if ts == [] then 0 else DecisionTotal(ts[..|ts| - 1]) + |ts[|ts| - 1].decisions|
  }

  /** The number of decisions of type `t`. */
  function TypeCount(ds: seq<Decision>, t: string): nat {
    Occurrences(TypesOf(ds), t)
  }

  /**
   * Over an export: one game counted per trajectory, good and evil wins
   * adding up to the games, the decision total summing the trajectories'
   * decisions, and the per-type counts summing to that total.
   */
  lemma {:induction false} StatsBalanced(ts: seq<Trajectory>)
    ensures StatsOf(ts).totalGames == |ts|
    ensures StatsOf(ts).goodWins == GoodWins(ts)
    ensures StatsOf(ts).goodWins + StatsOf(ts).evilWins == StatsOf(ts).totalGames
    ensures StatsOf(ts).totalDecisions == DecisionTotal(ts)
    ensures SumValues(StatsOf(ts).decisionsByType) == StatsOf(ts).totalDecisions
  {
    if ts != [] {
      var rest := ts[..|ts| - 1];
      StatsBalanced(rest);
      CountKeysSum(StatsOf(rest).decisionsByType, TypesOf(ts[|ts| - 1].decisions));
    }
  }

  /** The per-type count of a type is the number of decisions of that type. */
  lemma {:induction false} StatsCountTypes(ts: seq<Trajectory>, t: string)
    ensures CountOf(StatsOf(ts).decisionsByType, t) == TypeCountAll(ts, t)
  {
    if ts != [] {
      var rest := ts[..|ts| - 1];
      StatsCountTypes(rest, t);
      CountKeysGet(StatsOf(rest).decisionsByType, TypesOf(ts[|ts| - 1].decisions), t);
    }
  }

  /** The decisions of type `t` over all trajectories. */
  function TypeCountAll(ts: seq<Trajectory>, t: string): nat {
    if ts == [] then 0 else TypeCountAll(ts[..|ts| - 1], t) + TypeCount(ts[|ts| - 1].decisions, t)
  }

  /** The mutable `ExportStats` record. */
  class ExportStats {
    var totalGames: nat
    var totalDecisions: nat
    var goodWins: nat
    var evilWins: nat
    var decisionsByType: Dict<string, nat>

    function Value(): Stats
      reads this
    {
      Stats(totalGames, totalDecisions, goodWins, evilWins, decisionsByType)
    }

    constructor()
      ensures Value() == StatsOf([])
    {
      totalGames := 0;
      totalDecisions := 0;
      goodWins := 0;
      evilWins := 0;
      decisionsByType := [];
    }

    /** The counter updates for one exported trajectory. */
    method Record(t: Trajectory)
      modifies this
      ensures Value() == Tally(old(Value()), t)
    {
      totalGames := totalGames + 1;
      totalDecisions := totalDecisions + |t.decisions|;
      if t.goodWon {
        goodWins := goodWins + 1;
      } else {
        evilWins := evilWins + 1;
      }
      decisionsByType := CountDecisionTypes(decisionsByType, t.decisions);
    }
  }

  /** The `decisions_by_type` loop over one trajectory's decisions. */
  method CountDecisionTypes(byType: Dict<string, nat>, ds: seq<Decision>) returns (counts: Dict<string, nat>)
    ensures counts == CountTypes(byType, ds)
  {
    counts := byType;
    var types := TypesOf(ds);
    for i := 0 to |types|
      invariant counts == CountKeys(byType, types[..i])
    {
      assert types[..i + 1][..i] == types[..i];
      counts := Increment(counts, types[i]);
    }
    assert types[..|types|] == types;
  }

  /**
   * `export_trajectories` without the file writing: select the games, build
   * each trajectory in order and count it; a failing trajectory ends the
   * export with its error.
   */
  method ExportTrajectories(logs: seq<GameLog>, f: Filter) returns (r: Result<ExportStats, string>)
    ensures r.Err? <==> Trajectories(GetGames(logs, f)).Err?
    ensures r.Ok? ==> fresh(r.value) && r.value.Value() == StatsOf(Trajectories(GetGames(logs, f)).value)
  {
    var games := GetGames(logs, f);
    r := ExportGames(games);
  }

  /** The export loop of `export_trajectories` over the selected games. */
  method ExportGames(games: seq<GameLog>) returns (r: Result<ExportStats, string>)
    ensures r.Err? <==> Trajectories(games).Err?
    ensures r.Ok? ==> fresh(r.value) && r.value.Value() == StatsOf(Trajectories(games).value)
  {
    var stats := new ExportStats();
    ghost var ts: seq<Trajectory> := [];
    for i := 0 to |games|
      invariant Trajectories(games[..i]) == Ok(ts)
      invariant stats.Value() == StatsOf(ts)
    {
      var t := BuildTrajectory(games[i]);
      if t.Err? {
        assert games[..i + 1][..i] == games[..i];
        TrajectoriesStopAtFailure(games, i + 1);
        return Err(t.error);
      }
      stats.Record(t.value);
      ExportStep(games, i, ts, t.value);
      ts := ts + [t.value];
    }
    assert games[..|games|] == games;
    return Ok(stats);
  }

  /** One more successful trajectory extends the trajectories and their counters. */
  lemma ExportStep(logs: seq<GameLog>, i: nat, ts: seq<Trajectory>, t: Trajectory)
    requires i < |logs|
    requires Trajectories(logs[..i]) == Ok(ts) && TrajectoryOf(logs[i]) == Ok(t)
    ensures Trajectories(logs[..i + 1]) == Ok(ts + [t])
    ensures StatsOf(ts + [t]) == Tally(StatsOf(ts), t)
  {
    assert Trajectories(logs[..i + 1]) == Ok(ts + [t]) by {
      assert logs[..i + 1][..i] == logs[..i];
    }
    assert StatsOf(ts + [t]) == Tally(StatsOf(ts), t) by {
      assert (ts + [t])[..|ts|] == ts;
    }
  }

  /** Once a prefix of the logs fails, so do all the logs. */
  lemma {:induction false} TrajectoriesStopAtFailure(logs: seq<GameLog>, i: nat)
    requires i <= |logs|
    requires Trajectories(logs[..i]).Err?
    ensures Trajectories(logs).Err?
    decreases |logs| - i
  {
    if i < |logs| {
      assert Trajectories(logs[..i + 1]).Err? by {
        assert logs[..i + 1][..i] == logs[..i];
      }
      TrajectoriesStopAtFailure(logs, i + 1);
    } else {
      assert logs[..i] == logs;
    }
  }
}
