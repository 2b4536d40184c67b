/**
 * The game state: seats and roles, the round/leader/attempt counters, the
 * histories, and the two read-only projections the rest of the system uses
 * (what a seat may see of the other seats, and the response dictionary).
 *
 * `GameState` is a class because the engine updates its fields in place;
 * `Game` is the value of all those fields at one moment, and the queries
 * that only read the state are functions of that value.
 */
module State {
  import opened Options
  import opened Roles
  import opened Rules
  import opened PyDicts

  datatype Phase =
    | RoleAssignment | NightPhase | TeamSelection | Discussion | TeamVote
    | QuestExecution | AssassinationDiscussion | Assassination | GameOver

  datatype Status = Waiting | InProgress | Finished

  datatype Player = Player(
    seat: int,
    name: string,
    role: Option<Role>,
    isHuman: bool,
    modelName: Option<string>,
    provider: Option<string>)

  /** The `team` property: no team until a role is assigned. */
  function TeamOf(p: Player): (t: Option<Team>)
    ensures t.None? <==> p.role.None?
    ensures t.Some? ==> t.value == GetTeam(p.role.value)
  {
    match p.role
    case None => None
    case Some(r) => Some(GetTeam(r))
  }

  datatype QuestResult = QuestResult(
    round: int,
    teamSize: int,
    success: Option<bool>,
    failVotes: int,
    teamMembers: seq<int>,
    questVotes: Dict<int, bool>)   // seat -> success

  datatype VoteResult = VoteResult(
    round: int,
    attempt: int,
    votes: Dict<int, bool>,        // seat -> approve
    approved: bool,
    proposedTeam: seq<int>,
    leader: int)

  datatype DiscussionMessage = DiscussionMessage(
    seat: int,
    playerName: string,
    content: string,
    round: int,
    attempt: int,
    timestamp: string)

  /** The value of every field of a `GameState`. */
  datatype Game = Game(
    id: string,
    status: Status,
    phase: Phase,
    playerCount: int,
    players: seq<Player>,
    currentRound: int,
    currentLeader: int,
    voteAttempt: int,
    questResults: seq<QuestResult>,
    voteHistory: seq<VoteResult>,
    discussionHistory: seq<DiscussionMessage>,
    proposedTeam: seq<int>,
    currentVotes: Dict<int, bool>,
    currentQuestVotes: Dict<int, bool>,
    winner: Option<Team>,
    assassinatedPlayer: Option<int>,
    createdAt: string,
    finishedAt: Option<string>,
    currentDiscussionSeat: int,
    currentSpeakerSeat: Option<int>,
    discussionSpeakersCount: int,
    discussionComplete: bool,
    assassinationDiscussionHistory: seq<DiscussionMessage>,
    assassinationDiscussionSpeakers: seq<int>,
    assassinationDiscussionComplete: bool,
    waitingForHuman: bool,
    humanActionType: Option<string>)

  /** A fresh `GameState(player_count=n)`: every other field at its default. */
  function NewState(id: string, n: int, createdAt: string): (g: Game)
    ensures g.status == Waiting && g.phase == RoleAssignment && g.playerCount == n
    ensures g.players == [] && g.questResults == [] && g.voteHistory == []
    ensures g.currentRound == 1 && g.currentLeader == 0 && g.voteAttempt == 1
  {
    Game(id, Waiting, RoleAssignment, n, [], 1, 0, 1, [], [], [], [], [], [], None, None,
      createdAt, None, 0, None, 0, false, [], [], false, false, None)
  }

  // ----- derived counters -----

  /** Number of quest results whose `success` is exactly `b`; undecided results count for neither side. */
  function CountOutcome(results: seq<QuestResult>, b: bool): (k: nat)
    ensures k <= |results|
  {
    if results == [] then 0
    else (if results[0].success == Some(b) then 1 else 0) + CountOutcome(results[1..], b)
  }

  /** `good_wins`: quests with `success is True`. */
  function GoodWins(g: Game): nat { CountOutcome(g.questResults, true) }

  /** `evil_wins`: quests with `success is False`. */
  function EvilWins(g: Game): nat { CountOutcome(g.questResults, false) }

  ghost predicate AllDecided(results: seq<QuestResult>) {
    forall i :: 0 <= i < |results| ==> results[i].success.Some?
  }

  /** Appending a result adds one to the side it names, and nothing to the other. */
  lemma {:induction false} CountOutcomeAppend(results: seq<QuestResult>, q: QuestResult, b: bool)
    ensures CountOutcome(results + [q], b) == CountOutcome(results, b) + (if q.success == Some(b) then 1 else 0)
  {
    if results != [] {
      assert (results + [q])[1..] == results[1..] + [q];
      CountOutcomeAppend(results[1..], q, b);
    }
  }

  /** Appending a decided result keeps every result decided. */
  lemma AllDecidedAppend(results: seq<QuestResult>, q: QuestResult)
    requires AllDecided(results) && q.success.Some?
    ensures AllDecided(results + [q])
  {
    forall i | 0 <= i < |results + [q]| ensures (results + [q])[i].success.Some? {
      if i < |results| { assert (results + [q])[i] == results[i]; }
    }
  }

  /**
   * Good and evil quest wins never exceed the number of results; they add up
   * to it exactly when every result is decided, and an undecided result
   * counts for neither side.
   */
  lemma {:induction false} WinsPartition(results: seq<QuestResult>)
    ensures CountOutcome(results, true) + CountOutcome(results, false) <= |results|
    ensures AllDecided(results) <==> CountOutcome(results, true) + CountOutcome(results, false) == |results|
  {
    if results != [] {
      var rest := results[1..];
      WinsPartition(rest);
      if results[0].success.None? {
        assert !AllDecided(results) by { assert results[0].success.None?; }
      } else if AllDecided(rest) {
        if results[0].success.value {
          assert results[0].success == Some(true);
        } else {
          assert results[0].success == Some(false);
        }
        assert AllDecided(results) by {
          forall i | 0 <= i < |results| ensures results[i].success.Some? {
            if i > 0 { assert results[i] == rest[i - 1]; }
          }
        }
      } else {
        var i :| 0 <= i < |rest| && rest[i].success.None?;
        assert results[i + 1].success.None?;
      }
    }
  }

  // ----- seat lookups -----

  predicate HasSeat(players: seq<Player>, seat: int) {
    exists i :: 0 <= i < |players| && players[i].seat == seat
  }

  /** Position of the first player sitting at `seat`. */
  function SeatIndex(players: seq<Player>, seat: int): (r: Option<nat>)
    ensures r.None? <==> !HasSeat(players, seat)
    ensures r.Some? ==> r.value < |players| && players[r.value].seat == seat
    ensures r.Some? ==> forall j :: 0 <= j < r.value ==> players[j].seat != seat
  {
    if players == [] then None
    else if players[0].seat == seat then Some(0)
    else match SeatIndex(players[1..], seat)
      case None =>
        assert forall i :: 1 <= i < |players| ==> players[i] == players[1..][i - 1];
        None
      case Some(k) => Some(k + 1)
  }

  /** `get_player`: the first player whose seat matches. */
  function GetPlayer(players: seq<Player>, seat: int): (r: Option<Player>)
    ensures r.None? <==> !HasSeat(players, seat)
    ensures r.Some? ==> r.value in players && r.value.seat == seat
  {
    match SeatIndex(players, seat)
    case None => None
    case Some(i) => Some(players[i])
  }

  /** `get_leader`: the player at POSITION `current_leader` of the list, not the one at that seat. */
  function GetLeader(g: Game): (p: Player)
    requires 0 <= g.currentLeader < |g.players|
    ensures p in g.players
  {
    g.players[g.currentLeader]
  }

  ghost predicate SeatOrdered(players: seq<Player>) {
    forall i :: 0 <= i < |players| ==> players[i].seat == i
  }

  /**
   * Indexing by position and looking up by seat agree when player `i` sits
   * at seat `i`, as the batch runner builds them; a create-game request may
   * list its seats in any order, and then they can differ.
   */
  lemma LeaderBySeat(g: Game)
    requires 0 <= g.currentLeader < |g.players| && SeatOrdered(g.players)
    ensures GetPlayer(g.players, g.currentLeader) == Some(GetLeader(g))
  {
    assert g.players[g.currentLeader].seat == g.currentLeader;
  }

  // ----- visibility -----

  predicate IsEvilPlayer(p: Player) {
    p.role.Some? && IsEvil(p.role.value)
  }

  /** Some player sitting at `s` has an evil role. */
  predicate EvilAt(players: seq<Player>, s: int) {
    exists i :: 0 <= i < |players| && players[i].seat == s && IsEvilPlayer(players[i])
  }

  lemma EvilAtCons(players: seq<Player>, s: int)
    requires players != []
    ensures EvilAt(players, s) <==> (players[0].seat == s && IsEvilPlayer(players[0])) || EvilAt(players[1..], s)
  {
    if EvilAt(players, s) && !(players[0].seat == s && IsEvilPlayer(players[0])) {
      var i :| 0 <= i < |players| && players[i].seat == s && IsEvilPlayer(players[i]);
      assert players[1..][i - 1] == players[i];
    }
    if EvilAt(players[1..], s) {
      var i :| 0 <= i < |players[1..]| && players[1..][i].seat == s && IsEvilPlayer(players[1..][i]);
      assert players[i + 1] == players[1..][i];
    }
  }

  /**
   * Seats, in player order, of the evil players not sitting at `except`
   * (`get_evil_seats` when nothing is excepted).
   */
  function EvilSeatsExcept(players: seq<Player>, except: Option<int>): (seats: seq<int>)
    ensures |seats| <= |players|
    ensures forall s :: s in seats <==> Some(s) != except && EvilAt(players, s)
  {
    if players == [] then []
    else
      var rest := EvilSeatsExcept(players[1..], except);
      assert forall s {:trigger EvilAt(players, s)} :: EvilAt(players, s) <==>
        (players[0].seat == s && IsEvilPlayer(players[0])) || EvilAt(players[1..], s) by {
        forall s ensures EvilAt(players, s) <==> (players[0].seat == s && IsEvilPlayer(players[0])) || EvilAt(players[1..], s) {
          EvilAtCons(players, s);
        }
      }
      if IsEvilPlayer(players[0]) && Some(players[0].seat) != except then [players[0].seat] + rest else rest
  }

  function EvilSeats(players: seq<Player>): seq<int> { EvilSeatsExcept(players, None) }

  /** `get_visible_evil_players`: Merlin sees every evil seat, an evil role every other evil seat. */
  function VisibleEvil(g: Game, forSeat: int): seq<int> {
    match GetPlayer(g.players, forSeat)
    case None => []
    case Some(viewer) =>
      match viewer.role
      case None => []
      case Some(r) =>
        (if CanSeeEvil(r) then EvilSeats(g.players) else [])
        + (if KnowsTeammates(r) then EvilSeatsExcept(g.players, Some(forSeat)) else [])
  }

  /** Who sees what: nobody without a role, Merlin all evil seats, evil players their teammates. */
  lemma VisibleEvilCases(g: Game, forSeat: int)
    ensures GetPlayer(g.players, forSeat).None? ==> VisibleEvil(g, forSeat) == []
    ensures GetPlayer(g.players, forSeat).Some? ==>
      var r := GetPlayer(g.players, forSeat).value.role;
      && (r == None || r == Some(LoyalServant) ==> VisibleEvil(g, forSeat) == [])
      && (r == Some(Merlin) ==> VisibleEvil(g, forSeat) == EvilSeats(g.players))
      && (r.Some? && IsEvil(r.value) ==> VisibleEvil(g, forSeat) == EvilSeatsExcept(g.players, Some(forSeat)))
  {}

  /**
   * A visible seat is an evil seat: Merlin sees exactly the evil seats, an
   * evil player exactly the other evil seats, and a loyal servant nothing.
   */
  lemma VisibleEvilSound(g: Game, forSeat: int, s: int)
    ensures s in VisibleEvil(g, forSeat) <==>
      && GetPlayer(g.players, forSeat).Some?
      && GetPlayer(g.players, forSeat).value.role.Some?
      && (var r := GetPlayer(g.players, forSeat).value.role.value;
          r == Merlin || (IsEvil(r) && s != forSeat))
      && EvilAt(g.players, s)
  {}

  // ----- role assignment -----

  /** `zip(players, roles)` assigning each role to the player at the same position. */
  function WithRoles(players: seq<Player>, roles: seq<Role>): (r: seq<Player>)
    ensures |r| == |players|
  {
    seq(|players|, i requires 0 <= i < |players| =>
      if i < |roles| then players[i].(role := Some(roles[i])) else players[i])
  }

  /** Roles of the players that have one, in player order. */
  function AssignedRoles(players: seq<Player>): seq<Role> {
    if players == [] then []
    else (if players[0].role.Some? then [players[0].role.value] else []) + AssignedRoles(players[1..])
  }

  /**
   * After assigning a shuffled copy of the rule table's roles to exactly
   * `player_count` players, every player has a role and the roles are a
   * permutation of the table's list.
   */
  lemma {:induction false} AssignRolesPermutation(players: seq<Player>, shuffled: seq<Role>, rules: GameRules)
    requires |players| == |RolesOf(rules)|
    requires multiset(shuffled) == multiset(RolesOf(rules))
    ensures forall i :: 0 <= i < |players| ==> WithRoles(players, shuffled)[i].role.Some?
    ensures multiset(AssignedRoles(WithRoles(players, shuffled))) == multiset(RolesOf(rules))
  {
    assert |shuffled| == |RolesOf(rules)| by {
      assert |multiset(shuffled)| == |shuffled|;
    }
    AssignedRolesZip(players, shuffled);
  }

  lemma {:induction false} AssignedRolesZip(players: seq<Player>, roles: seq<Role>)
    requires |players| == |roles|
    ensures AssignedRoles(WithRoles(players, roles)) == roles
  {
    if players != [] {
      assert WithRoles(players, roles)[1..] == WithRoles(players[1..], roles[1..]);
      AssignedRolesZip(players[1..], roles[1..]);
    }
  }

  // ----- the response dictionary (`to_dict`) -----

  datatype PlayerView = PlayerView(
    seat: int,
    name: string,
    modelName: Option<string>,
    isHuman: bool,
    isLeader: bool,
    isOnQuest: bool,
    role: Option<Role>,
    team: Option<Team>)

  datatype QuestView = QuestView(
    round: int, teamSize: int, success: Option<bool>, failVotes: int,
    teamMembers: seq<int>, questVotes: Dict<int, bool>)

  datatype VoteView = VoteView(round: int, attempt: int, votes: Dict<int, bool>, approved: bool)

  datatype MessageView = MessageView(seat: int, playerName: string, content: string, round: int, attempt: int, timestamp: string)

  datatype AssassinationMessageView = AssassinationMessageView(seat: int, playerName: string, content: string, timestamp: string)

  datatype GameView = GameView(
    id: string,
    status: Status,
    phase: Phase,
    playerCount: int,
    players: seq<PlayerView>,
    currentRound: int,
    currentLeader: int,
    voteAttempt: int,
    questResults: seq<QuestView>,
    voteHistory: seq<VoteView>,
    discussionHistory: seq<MessageView>,
    assassinationDiscussionHistory: seq<AssassinationMessageView>,
    proposedTeam: seq<int>,
    winner: Option<Team>,
    assassinatedPlayer: Option<int>,
    waitingForHuman: bool,
    humanActionType: Option<string>)

  /** Seat of the first human player. */
  function FirstHumanSeat(players: seq<Player>): (r: Option<int>)
    ensures r.None? <==> forall i :: 0 <= i < |players| ==> !players[i].isHuman
    ensures r.Some? ==> exists i :: 0 <= i < |players| && players[i].isHuman && players[i].seat == r.value
  {
    if players == [] then None
    else if players[0].isHuman then Some(players[0].seat)
    else
      var r := FirstHumanSeat(players[1..]);
      assert forall i :: 1 <= i < |players| ==> players[i] == players[1..][i - 1];
      r
  }

  /** The viewer: `for_seat` when given, else the first human seat. */
  function ViewerSeat(g: Game, forSeat: Option<int>): Option<int> {
    if forSeat.Some? then forSeat else FirstHumanSeat(g.players)
  }

  /** Revealing everything: on request, or once the game is finished. */
  predicate RevealsAll(g: Game, revealAll: bool) {
    revealAll || g.status == Finished
  }

  predicate ViewerKnowsTeammates(g: Game, viewer: int) {
    var vp := GetPlayer(g.players, viewer);
    vp.Some? && vp.value.role.Some? && KnowsTeammates(vp.value.role.value)
  }

  /** What one seat shows: its public fields, and its role and team when the viewer may see them. */
  function ViewPlayer(g: Game, viewer: Option<int>, revealAll: bool, p: Player): PlayerView {
    var v := PlayerView(p.seat, p.name, p.modelName, p.isHuman, p.seat == g.currentLeader, p.seat in g.proposedTeam, None, None);
    if RevealsAll(g, revealAll) then v.(role := p.role, team := TeamOf(p))
    else if viewer.None? then v
    else if p.seat == viewer.value then v.(role := p.role, team := TeamOf(p))
    else if p.seat in VisibleEvil(g, viewer.value) then
      v.(role := if ViewerKnowsTeammates(g, viewer.value) then p.role else None, team := Some(Evil))
    else v
  }

  function ViewQuest(g: Game, revealAll: bool, q: QuestResult): QuestView {
    QuestView(q.round, q.teamSize, q.success, q.failVotes, q.teamMembers,
      if RevealsAll(g, revealAll) then q.questVotes else [])
  }

  /** `to_dict(for_seat, reveal_all)`. */
  function ToDict(g: Game, forSeat: Option<int>, revealAll: bool): (v: GameView)
    ensures |v.players| == |g.players| && |v.questResults| == |g.questResults|
  {
    var viewer := ViewerSeat(g, forSeat);
    GameView(
      g.id, g.status, g.phase, g.playerCount,
      seq(|g.players|, i requires 0 <= i < |g.players| => ViewPlayer(g, viewer, revealAll, g.players[i])),
      g.currentRound, g.currentLeader, g.voteAttempt,
      seq(|g.questResults|, i requires 0 <= i < |g.questResults| => ViewQuest(g, revealAll, g.questResults[i])),
      seq(|g.voteHistory|, i requires 0 <= i < |g.voteHistory| =>
        var r := g.voteHistory[i]; VoteView(r.round, r.attempt, r.votes, r.approved)),
      seq(|g.discussionHistory|, i requires 0 <= i < |g.discussionHistory| =>
        var d := g.discussionHistory[i]; MessageView(d.seat, d.playerName, d.content, d.round, d.attempt, d.timestamp)),
      seq(|g.assassinationDiscussionHistory|, i requires 0 <= i < |g.assassinationDiscussionHistory| =>
        var d := g.assassinationDiscussionHistory[i]; AssassinationMessageView(d.seat, d.playerName, d.content, d.timestamp)),
      g.proposedTeam, g.winner, g.assassinatedPlayer, g.waitingForHuman, g.humanActionType)
  }

  /** Revealed, or finished: every seat shows its role and team. */
  lemma ToDictRevealed(g: Game, forSeat: Option<int>, revealAll: bool, i: int)
    requires RevealsAll(g, revealAll) && 0 <= i < |g.players|
    ensures ToDict(g, forSeat, revealAll).players[i].role == g.players[i].role
    ensures ToDict(g, forSeat, revealAll).players[i].team == TeamOf(g.players[i])
  {}

  /**
   * Otherwise: the viewer's own seat shows role and team; a seat the viewer
   * sees as evil shows team evil, and its role only to an evil viewer; every
   * other seat, and every seat when there is no viewer, shows neither.
   */
  lemma ToDictHidden(g: Game, forSeat: Option<int>, revealAll: bool, i: int)
    requires !RevealsAll(g, revealAll) && 0 <= i < |g.players|
    ensures var pv := ToDict(g, forSeat, revealAll).players[i];
      var p := g.players[i];
      var viewer := ViewerSeat(g, forSeat);
      && (viewer.None? ==> pv.role.None? && pv.team.None?)
      && (viewer.Some? && p.seat == viewer.value ==> pv.role == p.role && pv.team == TeamOf(p))
      && (viewer.Some? && p.seat != viewer.value && p.seat in VisibleEvil(g, viewer.value) ==>
            pv.team == Some(Evil) && pv.role == (if ViewerKnowsTeammates(g, viewer.value) then p.role else None))
      && (viewer.Some? && p.seat != viewer.value && p.seat !in VisibleEvil(g, viewer.value) ==>
            pv.role.None? && pv.team.None?)
  {}

  /** The viewer is `for_seat` when given, else the first human seat; with neither, nothing is revealed. */
  lemma ViewerChoice(g: Game, forSeat: Option<int>)
    ensures forSeat.Some? ==> ViewerSeat(g, forSeat) == forSeat
    ensures forSeat.None? && (forall i :: 0 <= i < |g.players| ==> !g.players[i].isHuman) ==>
      ViewerSeat(g, forSeat).None?
    ensures forSeat.None? && (exists i :: 0 <= i < |g.players| && g.players[i].isHuman) ==>
      ViewerSeat(g, forSeat).Some?
  {}

  ghost predicate DistinctSeats(players: seq<Player>) {
    forall i, j :: 0 <= i < j < |players| ==> players[i].seat != players[j].seat
  }

  /**
   * The projection never misinforms: with distinct seats, any role or team
   * it shows is that player's true role or team.
   */
  lemma {:induction false} ToDictTruthful(g: Game, forSeat: Option<int>, revealAll: bool, i: int)
    requires DistinctSeats(g.players) && 0 <= i < |g.players|
    ensures var pv := ToDict(g, forSeat, revealAll).players[i];
      && (pv.role.Some? ==> pv.role == g.players[i].role)
      && (pv.team.Some? ==> pv.team == TeamOf(g.players[i]))
  {
    var p := g.players[i];
    var viewer := ViewerSeat(g, forSeat);
    if !RevealsAll(g, revealAll) && viewer.Some? && p.seat != viewer.value && p.seat in VisibleEvil(g, viewer.value) {
      VisibleEvilSound(g, viewer.value, p.seat);
      var j :| 0 <= j < |g.players| && g.players[j].seat == p.seat && IsEvilPlayer(g.players[j]);
      assert j == i;
    }
  }

  /**
   * Roles stay hidden from good viewers: unless everything is revealed, a
   * viewer without an evil role sees no other seat's role, and a loyal
   * servant (or a seat with no role) sees nothing about any other seat.
   */
  lemma ToDictGoodViewerSeesNoRoles(g: Game, forSeat: Option<int>, revealAll: bool, i: int)
    requires !RevealsAll(g, revealAll) && 0 <= i < |g.players|
    requires var viewer := ViewerSeat(g, forSeat);
      viewer.Some? && g.players[i].seat != viewer.value && !ViewerKnowsTeammates(g, viewer.value)
    ensures ToDict(g, forSeat, revealAll).players[i].role.None?
    ensures var vp := GetPlayer(g.players, ViewerSeat(g, forSeat).value);
      vp.None? || vp.value.role == None || vp.value.role == Some(LoyalServant) ==>
        ToDict(g, forSeat, revealAll).players[i].team.None?
  {}

  /** Individual quest votes are shown only when everything is revealed; the fail count always is. */
  lemma ToDictQuestVotes(g: Game, forSeat: Option<int>, revealAll: bool, i: int)
    requires 0 <= i < |g.questResults|
    ensures ToDict(g, forSeat, revealAll).questResults[i].failVotes == g.questResults[i].failVotes
    ensures ToDict(g, forSeat, revealAll).questResults[i].questVotes ==
      if RevealsAll(g, revealAll) then g.questResults[i].questVotes else []
  {}

  // ----- the mutable state -----

  class GameState {
    var id: string
    var status: Status
    var phase: Phase
    var playerCount: int
    var players: seq<Player>
    var currentRound: int
    var currentLeader: int
    var voteAttempt: int
    var questResults: seq<QuestResult>
    var voteHistory: seq<VoteResult>
    var discussionHistory: seq<DiscussionMessage>
    var proposedTeam: seq<int>
    var currentVotes: Dict<int, bool>
    var currentQuestVotes: Dict<int, bool>
    var winner: Option<Team>
    var assassinatedPlayer: Option<int>
    var createdAt: string
    var finishedAt: Option<string>
    var currentDiscussionSeat: int
    var currentSpeakerSeat: Option<int>
    var discussionSpeakersCount: int
    var discussionComplete: bool
    var assassinationDiscussionHistory: seq<DiscussionMessage>
    var assassinationDiscussionSpeakers: seq<int>
    var assassinationDiscussionComplete: bool
    var waitingForHuman: bool
    var humanActionType: Option<string>

    /** The current value of every field. */
    function Value(): Game
      reads this
    {
      Game(id, status, phase, playerCount, players, currentRound, currentLeader, voteAttempt,
        questResults, voteHistory, discussionHistory, proposedTeam, currentVotes, currentQuestVotes,
        winner, assassinatedPlayer, createdAt, finishedAt, currentDiscussionSeat, currentSpeakerSeat,
        discussionSpeakersCount, discussionComplete, assassinationDiscussionHistory,
        assassinationDiscussionSpeakers, assassinationDiscussionComplete, waitingForHuman, humanActionType)
    }

    /** `GameState(player_count=n)`; the id and creation time are supplied by the caller. */
    constructor (id: string, n: int, createdAt: string)
      ensures Value() == NewState(id, n, createdAt)
    {
      this.id, status, phase, playerCount, players := id, Waiting, RoleAssignment, n, [];
      currentRound, currentLeader, voteAttempt := 1, 0, 1;
      questResults, voteHistory, discussionHistory := [], [], [];
      proposedTeam, currentVotes, currentQuestVotes := [], [], [];
      winner, assassinatedPlayer, this.createdAt, finishedAt := None, None, createdAt, None;
      currentDiscussionSeat, currentSpeakerSeat, discussionSpeakersCount, discussionComplete := 0, None, 0, false;
      assassinationDiscussionHistory, assassinationDiscussionSpeakers, assassinationDiscussionComplete := [], [], false;
      waitingForHuman, humanActionType := false, None;
    }

    /** `next_leader`: the leader moves one seat on, wrapping at `player_count`. */
    method NextLeader()
      requires playerCount > 0
      modifies this
      ensures currentLeader == (old(currentLeader) + 1) % old(playerCount)
      ensures 0 <= currentLeader < playerCount
      ensures Value() == old(Value()).(currentLeader := currentLeader)
    {
      currentLeader := (currentLeader + 1) % playerCount;
    }

    /**
     * `assign_roles`, with the shuffle supplied by the caller: `shuffled` is
     * any permutation of the rule table's roles, dealt out in player order.
     */
    method AssignRoles(shuffled: seq<Role>)
      requires GetRules(playerCount).Ok?
      requires multiset(shuffled) == multiset(RolesOf(GetRules(playerCount).value))
      modifies this
      ensures Value() == old(Value()).(players := WithRoles(old(players), shuffled))
    {
      var dealt := players;
      var i := 0;
      while i < |dealt| && i < |shuffled|
        invariant 0 <= i <= |dealt| == |players| && i <= |shuffled|
        invariant forall k :: 0 <= k < |dealt| ==>
          dealt[k] == if k < i then players[k].(role := Some(shuffled[k])) else players[k]
      {
        dealt := dealt[i := dealt[i].(role := Some(shuffled[i]))];
        i := i + 1;
      }
      assert dealt == WithRoles(players, shuffled);
      players := dealt;
    }
  }
}
