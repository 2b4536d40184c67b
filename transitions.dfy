/**
 * What each `GameEngine` operation does to the game state, as a function
 * from the state's value before to its value after (and the operation's
 * return value). Module `Engine` performs the same steps in place on a
 * `GameState` and is proved to agree with these functions; the properties
 * of the game's phases are proved here, about the functions.
 */
module Transitions {
  import opened Options
  import opened Roles
  import opened Rules
  import opened PyDicts
  import opened State

  /**
   * The state every operation keeps: a supported player count with one
   * player per seat, a leader and a discussion seat among the seats, a
   * round between 1 and 5 that has not run ahead of the recorded quests,
   * decided quest results, and a vote attempt between 1 and 5.
   */
  ghost predicate ValidGame(g: Game) {
    && 5 <= g.playerCount <= 10
    && |g.players| == g.playerCount
    && 0 <= g.currentLeader < g.playerCount
    && 0 <= g.currentDiscussionSeat < g.playerCount
    && 1 <= g.currentRound <= 5
    && g.currentRound <= |g.questResults| + 1
    && AllDecided(g.questResults)
    && 1 <= g.voteAttempt <= 5
  }

  // ----- creation -----

  /** One entry of `player_configs`; an absent `is_human` reads as false. */
  datatype PlayerConfig = PlayerConfig(seat: int, name: string, isHuman: bool, model: Option<string>, provider: Option<string>)

  function PlayerOf(c: PlayerConfig): Player {
    Player(c.seat, c.name, None, c.isHuman, c.model, c.provider)
  }

  /** `create_game`: a fresh state holding one role-less player per configuration, in order. */
  function CreateGame(n: int, configs: seq<PlayerConfig>, id: string, createdAt: string): (g: Game)
    ensures |g.players| == |configs|
    ensures forall i :: 0 <= i < |configs| ==>
      g.players[i].seat == configs[i].seat && g.players[i].role.None? && g.players[i].isHuman == configs[i].isHuman
    ensures 5 <= n <= 10 && |configs| == n ==> ValidGame(g)
  {
    NewState(id, n, createdAt).(players := seq(|configs|, i requires 0 <= i < |configs| => PlayerOf(configs[i])))
  }

  // ----- waiting for a human -----

  predicate IsHumanSeat(players: seq<Player>, seat: int) {
    var p := GetPlayer(players, seat);
    p.Some? && p.value.isHuman
  }

  /** Some human player has not voted on the team. */
  predicate HumanYetToVote(g: Game) {
    exists i :: 0 <= i < |g.players| && g.players[i].isHuman && !Contains(g.currentVotes, g.players[i].seat)
  }

  /** Some human member of the proposed team has not played a quest card. */
  predicate HumanYetToQuest(g: Game) {
    exists i :: 0 <= i < |g.proposedTeam| && IsHumanSeat(g.players, g.proposedTeam[i])
      && !Contains(g.currentQuestVotes, g.proposedTeam[i])
  }

  /** Position of the first element of `xs` that is not in `ys`. */
  function FirstNotIn(xs: seq<int>, ys: seq<int>): (r: Option<nat>)
    ensures r.None? <==> forall j :: 0 <= j < |xs| ==> xs[j] in ys
    ensures r.Some? ==> r.value < |xs| && xs[r.value] !in ys
    ensures r.Some? ==> forall j :: 0 <= j < r.value ==> xs[j] in ys
  {
    if xs == [] then None
    else if xs[0] !in ys then Some(0)
    else match FirstNotIn(xs[1..], ys)
      case None => assert forall j :: 1 <= j < |xs| ==> xs[j] == xs[1..][j - 1]; None
      case Some(k) => Some(k + 1)
  }

  /** The first evil seat, in player order, that has not yet spoken before the assassination. */
  function NextEvilSpeaker(g: Game): (r: Option<int>)
    ensures r.Some? ==> r.value in EvilSeats(g.players) && r.value !in g.assassinationDiscussionSpeakers
    ensures r.None? <==> forall s :: s in EvilSeats(g.players) ==> s in g.assassinationDiscussionSpeakers
  {
    var seats := EvilSeats(g.players);
    var first := FirstNotIn(seats, g.assassinationDiscussionSpeakers);
    if first.None? then None
    else
      var i := first.value;
      assert i < |seats| && seats[i] !in g.assassinationDiscussionSpeakers;
      assert !(forall s :: s in EvilSeats(g.players) ==> s in g.assassinationDiscussionSpeakers) by {
        var w := seats[i];
        assert w in EvilSeats(g.players);
        assert w !in g.assassinationDiscussionSpeakers;
      }
      Some(seats[i])
  }

  /** Position of the first player holding the Assassin role. */
  function FirstAssassin(players: seq<Player>): (r: Option<nat>)
    ensures r.None? <==> forall j :: 0 <= j < |players| ==> players[j].role != Some(Assassin)
    ensures r.Some? ==> r.value < |players| && players[r.value].role == Some(Assassin)
    ensures r.Some? ==> forall j :: 0 <= j < r.value ==> players[j].role != Some(Assassin)
  {
    if players == [] then None
    else if players[0].role == Some(Assassin) then Some(0)
    else match FirstAssassin(players[1..])
      case None => assert forall j :: 1 <= j < |players| ==> players[j] == players[1..][j - 1]; None
      case Some(k) => Some(k + 1)
  }

  /** `get_assassin_seat`. */
  function AssassinSeat(players: seq<Player>): Option<int> {
    match FirstAssassin(players)
    case None => None
    case Some(i) => Some(players[i].seat)
  }

  /**
   * `_check_human_action`: the kind of action the game now waits for from a
   * human, by phase. `waiting_for_human` is set exactly when a kind is.
   */
  function HumanAction(g: Game): Option<string>
    requires 0 <= g.currentLeader < |g.players|
  {
    match g.phase
    case TeamSelection =>
      if GetLeader(g).isHuman then Some("team_selection") else None
    case Discussion =>
      if g.discussionSpeakersCount < g.playerCount && IsHumanSeat(g.players, g.currentDiscussionSeat) then
        Some(if g.currentDiscussionSeat == g.currentLeader then "leader_discussion" else "discussion")
      else None
    case TeamVote =>
      if HumanYetToVote(g) then Some("vote") else None
    case QuestExecution =>
      if HumanYetToQuest(g) then Some("quest") else None
    case AssassinationDiscussion =>
      var next := NextEvilSpeaker(g);
      if next.Some? && IsHumanSeat(g.players, next.value) then Some("assassination_discussion") else None
    case Assassination =>
      var a := FirstAssassin(g.players);
      if a.Some? && g.players[a.value].isHuman then Some("assassinate") else None
    case _ => None
  }

  function WithHumanCheck(g: Game): (r: Game)
    requires 0 <= g.currentLeader < |g.players|
  {
    var a := HumanAction(g);
    g.(waitingForHuman := a.Some?, humanActionType := a)
  }

  /** The check sets only the two waiting fields, and `waiting_for_human` exactly when a kind of action is pending. */
  lemma HumanCheckSetsOnlyWaiting(g: Game)
    requires 0 <= g.currentLeader < |g.players|
    ensures var r := WithHumanCheck(g);
      && r == g.(waitingForHuman := r.waitingForHuman, humanActionType := r.humanActionType)
      && (r.waitingForHuman <==> r.humanActionType.Some?)
      && r.humanActionType == HumanAction(g)
  {}

  /** While the table discusses the team, the game waits exactly for a human whose turn it is to speak. */
  lemma WaitsForHumanSpeaker(g: Game)
    requires 0 <= g.currentLeader < |g.players| && g.phase == Discussion
    ensures WithHumanCheck(g).waitingForHuman <==>
      g.discussionSpeakersCount < g.playerCount && IsHumanSeat(g.players, g.currentDiscussionSeat)
    ensures WithHumanCheck(g).humanActionType == Some("leader_discussion") ==> g.currentDiscussionSeat == g.currentLeader
  {}

  /**
   * Before the assassination, only the FIRST evil seat yet to speak is
   * consulted: the game waits for a human there, and not for a human evil
   * player further on while an AI evil player has yet to speak.
   */
  lemma WaitsOnlyForFirstEvilSpeaker(g: Game)
    requires 0 <= g.currentLeader < |g.players| && g.phase == AssassinationDiscussion
    ensures WithHumanCheck(g).waitingForHuman <==>
      NextEvilSpeaker(g).Some? && IsHumanSeat(g.players, NextEvilSpeaker(g).value)
  {}

  // ----- end of game -----

  /** `_evil_wins` / `_good_wins`: the winner is set and the game is over. */
  function FinishWith(g: Game, team: Team, now: string): (r: Game)
    ensures r.winner == Some(team) && r.status == Finished && r.phase == GameOver && r.finishedAt == Some(now)
  {
    g.(winner := Some(team), status := Finished, phase := GameOver, finishedAt := Some(now))
  }

  // ----- start and discussion -----

  /** `start_game`, with the shuffle supplied: roles dealt in player order, then night falls. */
  function StartGame(g: Game, shuffled: seq<Role>): (r: Game)
    requires ValidGame(g)
    requires multiset(shuffled) == multiset(RolesOf(GetRules(g.playerCount).value))
    ensures ValidGame(r)
    ensures r.status == InProgress && r.phase == NightPhase
  {
    g.(status := InProgress, phase := NightPhase, players := WithRoles(g.players, shuffled))
  }

  /** After the start every player holds a role, and the roles are a permutation of the rule table's. */
  lemma StartGameDealsRoles(g: Game, shuffled: seq<Role>)
    requires ValidGame(g)
    requires multiset(shuffled) == multiset(RolesOf(GetRules(g.playerCount).value))
    ensures forall i :: 0 <= i < |g.players| ==> StartGame(g, shuffled).players[i].role.Some?
    ensures multiset(AssignedRoles(StartGame(g, shuffled).players)) == multiset(RolesOf(GetRules(g.playerCount).value))
    ensures forall i :: 0 <= i < |g.players| ==> StartGame(g, shuffled).players[i].seat == g.players[i].seat
  {
    var rules := GetRules(g.playerCount).value;
    ConfigTeams(g.playerCount);
    assert StartGame(g, shuffled).players == WithRoles(g.players, shuffled);
    AssignRolesPermutation(g.players, shuffled, rules);
  }

  /** The discussion restarts at `seat` with nobody having spoken. */
  function RestartDiscussion(g: Game, seat: int): Game {
    g.(currentDiscussionSeat := seat, discussionSpeakersCount := 0, discussionComplete := false)
  }

  /** `proceed_to_discussion`: discussion restarts at the leader's seat with nobody having spoken. */
  function ProceedToDiscussion(g: Game): (r: Game)
    requires ValidGame(g)
    ensures ValidGame(r)
    ensures r.phase == Discussion && r.currentDiscussionSeat == g.currentLeader
    ensures r.discussionSpeakersCount == 0 && !r.discussionComplete && r.proposedTeam == []
  {
    WithHumanCheck(RestartDiscussion(g.(phase := Discussion), g.currentLeader).(proposedTeam := []))
  }

  /** `proceed_to_team_selection`. */
  function ProceedToTeamSelection(g: Game): (r: Game)
    requires ValidGame(g)
    ensures ValidGame(r) && r.phase == TeamSelection
  {
    WithHumanCheck(g.(phase := TeamSelection))
  }

  /** `add_discussion`: a message from a seated player is appended; one from an unknown seat is dropped. */
  function AddDiscussion(g: Game, seat: int, content: string, now: string): (r: Game)
    ensures !HasSeat(g.players, seat) ==> r == g
    ensures HasSeat(g.players, seat) ==>
      r == g.(discussionHistory := g.discussionHistory + [DiscussionMessage(seat,
        GetPlayer(g.players, seat).value.name, content, g.currentRound, g.voteAttempt, now)])
  {
    match GetPlayer(g.players, seat)
    case None => g
    case Some(p) =>
      g.(discussionHistory := g.discussionHistory + [DiscussionMessage(seat, p.name, content, g.currentRound, g.voteAttempt, now)])
  }

  /**
   * `next_discussion_speaker`: while fewer than `player_count` have spoken,
   * the next seat round the table; then the discussion is complete.
   */
  function NextDiscussionSpeaker(g: Game): (r: (Game, Option<int>))
    requires ValidGame(g)
    ensures ValidGame(r.0)
  {
    if g.discussionSpeakersCount < g.playerCount then (CallSpeaker(g), Some(g.currentDiscussionSeat))
    else (CloseDiscussion(g), None)
  }

  /** The current discussion seat speaks; the next seat round the table is up. */
  function CallSpeaker(g: Game): Game
    requires g.playerCount > 0
  {
    g.(currentDiscussionSeat := (g.currentDiscussionSeat + 1) % g.playerCount,
      discussionSpeakersCount := g.discussionSpeakersCount + 1,
      currentSpeakerSeat := Some(g.currentDiscussionSeat))
  }

  function CloseDiscussion(g: Game): Game {
    g.(discussionComplete := true, currentSpeakerSeat := None)
  }

  /** The speakers returned by `k` successive calls, and the state after them. */
  function Speakers(g: Game, k: nat): (r: (Game, seq<Option<int>>))
    requires ValidGame(g)
    ensures ValidGame(r.0) && |r.1| == k
    decreases k
  {
    if k == 0 then (g, [])
    else
      var (g1, s) := NextDiscussionSpeaker(g);
      var (g2, rest) := Speakers(g1, k - 1);
      (g2, [s] + rest)
  }

  /** `x % n` for `0 <= x < 2n`, without a division. */
  lemma ModOnce(x: int, n: int)
    requires 0 < n && 0 <= x < 2 * n
    ensures x % n == if x < n then x else x - n
  {
    if x >= n {
      assert x == 1 * n + (x - n);
    }
  }

  /** The seat `i` places after `s` round a table of `n`, moving one seat at a time. */
  function RoundTable(s: int, i: nat, n: int): int
    requires n > 0
    decreases i
  {
    if i == 0 then s else RoundTable((s + 1) % n, i - 1, n)
  }

  /** Moving `i <= n` seats one at a time is adding `i` modulo `n`. */
  lemma {:induction false} RoundTableMod(s: int, i: nat, n: int)
    requires 0 <= s < n && i <= n
    decreases i
    ensures RoundTable(s, i, n) == (s + i) % n
  {
    if i == 0 {
      ModOnce(s, n);
    } else {
      ModOnce(s + 1, n);
      RoundTableMod((s + 1) % n, i - 1, n);
      ShiftMod(s, i - 1, n);
    }
  }

  /**
   * After `k` calls that each find a speaker, `k` more players have spoken
   * and the next seat to speak has moved `k` seats round the table.
   */
  lemma {:induction false} DiscussionAdvance(g: Game, k: nat)
    requires ValidGame(g) && 0 <= g.discussionSpeakersCount && g.discussionSpeakersCount + k <= g.playerCount
    decreases k
    ensures Speakers(g, k).0.discussionSpeakersCount == g.discussionSpeakersCount + k
    ensures Speakers(g, k).0.currentDiscussionSeat == RoundTable(g.currentDiscussionSeat, k, g.playerCount)
  {
    if k > 0 {
      var g1 := NextDiscussionSpeaker(g).0;
      DiscussionAdvance(g1, k - 1);
      assert Speakers(g, k).0 == Speakers(g1, k - 1).0;
    }
  }

  /** The `i`-th of `k` calls returns the seat `i` places after the first. */
  lemma {:induction false} SpeakerAt(g: Game, k: nat, i: nat)
    requires ValidGame(g) && 0 <= g.discussionSpeakersCount && g.discussionSpeakersCount + k <= g.playerCount
    requires i < k
    decreases i
    ensures Speakers(g, k).1[i] == Some(RoundTable(g.currentDiscussionSeat, i, g.playerCount))
  {
    var (g1, first) := NextDiscussionSpeaker(g);
    assert Speakers(g, k).1 == [first] + Speakers(g1, k - 1).1;
    if i > 0 {
      SpeakerAt(g1, k - 1, i - 1);
    }
  }

  /**
   * From seat `s`, as long as fewer than `player_count` players have spoken,
   * `k` calls return seats `s, s+1, …` round the table (mod `player_count`),
   * count `k` more speakers and leave seat `s + k` next.
   */
  lemma DiscussionOrder(g: Game, k: nat)
    requires ValidGame(g) && 0 <= g.discussionSpeakersCount && g.discussionSpeakersCount + k <= g.playerCount
    ensures Speakers(g, k).0.discussionSpeakersCount == g.discussionSpeakersCount + k
    ensures Speakers(g, k).0.currentDiscussionSeat == (g.currentDiscussionSeat + k) % g.playerCount
    ensures forall i :: 0 <= i < k ==> Speakers(g, k).1[i] == Some((g.currentDiscussionSeat + i) % g.playerCount)
  {
    DiscussionAdvance(g, k);
    RoundTableMod(g.currentDiscussionSeat, k, g.playerCount);
    forall i | 0 <= i < k ensures Speakers(g, k).1[i] == Some((g.currentDiscussionSeat + i) % g.playerCount) {
      SpeakerAt(g, k, i);
      RoundTableMod(g.currentDiscussionSeat, i, g.playerCount);
    }
  }

  /** Moving one seat on, then `i` more, is moving `i + 1` seats on. */
  lemma ShiftMod(s: int, i: int, n: int)
    requires 0 <= s < n && 0 <= i < n
    ensures ((s + 1) % n + i) % n == (s + 1 + i) % n
  {
    ModOnce(s + 1, n);
    ModOnce(s + 1 + i, n);
    ModOnce((s + 1) % n + i, n);
  }

  /** Once `player_count` players have spoken, the next call ends the discussion. */
  lemma DiscussionEnds(g: Game)
    requires ValidGame(g) && g.discussionSpeakersCount >= g.playerCount
    ensures NextDiscussionSpeaker(g).1.None?
    ensures NextDiscussionSpeaker(g).0.discussionComplete
  {}

  /** Seats `s, s+1, …, s+n-1` round a table of `n`. */
  function TableOrder(s: int, n: int): (seats: seq<int>)
    requires n > 0
    ensures |seats| == n
  {
    seq(n, i requires 0 <= i < n => (s + i) % n)
  }

  /** Going once round the table from any seat calls every seat exactly once. */
  lemma EverySeatSpeaksOnce(s: int, n: int)
    requires 0 <= s < n
    ensures forall i, j :: 0 <= i < j < n ==> TableOrder(s, n)[i] != TableOrder(s, n)[j]
    ensures forall seat :: 0 <= seat < n <==> seat in TableOrder(s, n)
  {
    var order := TableOrder(s, n);
    forall i, j | 0 <= i < j < n ensures order[i] != order[j] {
      ModOnce(s + i, n);
      ModOnce(s + j, n);
    }
    forall seat | 0 <= seat < n ensures seat in order {
      var i := if seat >= s then seat - s else seat - s + n;
      ModOnce(s + i, n);
      assert order[i] == seat;
    }
    forall k | 0 <= k < n ensures 0 <= order[k] < n {
      ModOnce(s + k, n);
    }
  }

  // ----- team selection and vote -----

  /** `get_quest_team_size`: the team size of the current quest. */
  function QuestTeamSize(g: Game): (k: int)
    requires ValidGame(g)
    ensures 1 <= k <= g.playerCount
    ensures Rules.GetQuestTeamSize(g.playerCount, g.currentRound) == Ok(k)
  {
    ConfigWellFormed(g.playerCount);
    QuestNumbering(g.playerCount, g.currentRound);
    GetRules(g.playerCount).value.questTeamSizes[g.currentRound - 1]
  }

  /**
   * `select_team`: a team of the current quest's size made only of seated
   * players becomes the proposal and the vote opens. Neither the phase nor
   * repeated seats are checked.
   */
  function SelectTeam(g: Game, team: seq<int>): (r: (Game, bool))
    requires ValidGame(g)
    ensures ValidGame(r.0)
  {
    if |team| != QuestTeamSize(g) then (g, false)
    else if !(forall i :: 0 <= i < |team| ==> HasSeat(g.players, team[i])) then (g, false)
    else (ProposeTeam(g, team), true)
  }

  /** The team becomes the proposal and the vote opens with no votes cast. */
  function ProposeTeam(g: Game, team: seq<int>): Game
    requires 0 <= g.currentLeader < |g.players|
  {
    WithHumanCheck(g.(proposedTeam := team, phase := TeamVote, currentVotes := []))
  }

  /** A team is accepted exactly when it has the quest's size and every seat is taken; a rejected one changes nothing. */
  lemma SelectTeamOutcome(g: Game, team: seq<int>)
    requires ValidGame(g)
    ensures SelectTeam(g, team).1 <==>
      |team| == QuestTeamSize(g) && forall i :: 0 <= i < |team| ==> HasSeat(g.players, team[i])
    ensures !SelectTeam(g, team).1 ==> SelectTeam(g, team).0 == g
    ensures SelectTeam(g, team).1 ==>
      var r := SelectTeam(g, team).0;
      r.proposedTeam == team && r.phase == TeamVote && r.currentVotes == [] && r.players == g.players
  {}

  /** `proceed_to_vote`. */
  function ProceedToVote(g: Game): (r: Game)
    requires ValidGame(g)
    ensures ValidGame(r) && r.phase == TeamVote && r.currentVotes == []
  {
    WithHumanCheck(g.(phase := TeamVote, currentVotes := []))
  }

  /** `cast_vote`: any seat may vote, and a later vote replaces an earlier one. */
  function CastVote(g: Game, seat: int, approve: bool): (r: Game)
    requires ValidGame(g)
    ensures ValidGame(r)
    ensures Get(r.currentVotes, seat) == Some(approve)
    ensures forall s :: s != seat ==> Get(r.currentVotes, s) == Get(g.currentVotes, s)
  {
    GetSetSame(g.currentVotes, seat, approve);
    forall s | s != seat ensures Get(Set(g.currentVotes, seat, approve), s) == Get(g.currentVotes, s) {
      GetSetOther(g.currentVotes, seat, approve, s);
    }
    g.(currentVotes := Set(g.currentVotes, seat, approve))
  }

  /** `all_votes_cast`. */
  function AllVotesCast(g: Game): bool {
    |g.currentVotes| == g.playerCount
  }

  /** Number of entries of `bs` equal to `b`. */
  function CountValue(bs: seq<bool>, b: bool): (k: nat)
    ensures k <= |bs|
  {
    if bs == [] then 0 else (if bs[0] == b then 1 else 0) + CountValue(bs[1..], b)
  }

  /** Approvals and rejections split the recorded votes. */
  lemma {:induction false} CountValueSplit(bs: seq<bool>)
    ensures CountValue(bs, true) + CountValue(bs, false) == |bs|
  {
    if bs != [] { CountValueSplit(bs[1..]); }
  }

  function Approvals(votes: Dict<int, bool>): nat { CountValue(Values(votes), true) }

  /**
   * `resolve_vote`: the team is approved by a strict majority of
   * `player_count`. The vote is recorded; an approved team goes on the quest,
   * a fifth rejection hands the game to evil, and any other rejection passes
   * the lead on and reopens the discussion.
   */
  function ResolveVote(g: Game, now: string): (r: (Game, bool))
    requires ValidGame(g)
    ensures ValidGame(r.0)
  {
    var approved := Approvals(g.currentVotes) > g.playerCount / 2;
    var g1 := g.(voteHistory := g.voteHistory + [VoteResult(g.currentRound, g.voteAttempt,
      g.currentVotes, approved, g.proposedTeam, g.currentLeader)]);
    (ConcludeVote(g1, approved, now), approved)
  }

  /** The second half of `resolve_vote`, once the vote is recorded. */
  function ConcludeVote(g: Game, approved: bool, now: string): (r: Game)
    requires ValidGame(g)
    ensures ValidGame(r)
  {
    if approved then
      OpenQuest(g)
    else if g.voteAttempt >= 5 then
      FinishWith(g, Evil, now)
    else
      PassLead(g.(voteAttempt := g.voteAttempt + 1))
  }

  /** The approved team goes on the quest, with no cards played yet. */
  function OpenQuest(g: Game): Game
    requires 0 <= g.currentLeader < |g.players|
  {
    WithHumanCheck(g.(phase := QuestExecution, currentQuestVotes := []))
  }

  /**
   * What `resolve_vote` and `resolve_quest` do when the game goes on: the
   * next seat leads, the proposal is cleared and the discussion reopens at
   * the new leader.
   */
  function PassLead(g: Game): (r: Game)
    requires 0 < g.playerCount == |g.players|
    ensures r.currentLeader == r.currentDiscussionSeat == (g.currentLeader + 1) % g.playerCount
    ensures r.phase == Discussion && r.proposedTeam == [] && r.discussionSpeakersCount == 0 && !r.discussionComplete
    ensures r.players == g.players && r.playerCount == g.playerCount && r.questResults == g.questResults
    ensures r.currentRound == g.currentRound && r.voteAttempt == g.voteAttempt && r.winner == g.winner
  {
    var leader := (g.currentLeader + 1) % g.playerCount;
    WithHumanCheck(RestartDiscussion(g.(currentLeader := leader, proposedTeam := []), leader).(phase := Discussion))
  }

  /** Strict majority: approved iff approvals exceed half the players, so a tie is a rejection. */
  lemma ResolveVoteMajority(g: Game, now: string)
    requires ValidGame(g)
    ensures ResolveVote(g, now).1 <==> 2 * Approvals(g.currentVotes) > g.playerCount
    ensures 2 * Approvals(g.currentVotes) == g.playerCount ==> !ResolveVote(g, now).1
  {}

  /** Exactly one vote result is appended, holding the votes, the team and the leader of this attempt. */
  lemma ResolveVoteRecords(g: Game, now: string)
    requires ValidGame(g)
    ensures ResolveVote(g, now).0.voteHistory == g.voteHistory + [VoteResult(g.currentRound, g.voteAttempt,
      g.currentVotes, ResolveVote(g, now).1, g.proposedTeam, g.currentLeader)]
    ensures ResolveVote(g, now).0.questResults == g.questResults
  {}

  /** What follows the vote: the quest, the end of the game, or a new attempt under the next leader. */
  lemma ResolveVoteOutcome(g: Game, now: string)
    requires ValidGame(g)
    ensures var (r, approved) := ResolveVote(g, now);
      && (approved ==> r.phase == QuestExecution && r.currentQuestVotes == [] && r.winner == g.winner)
      && (!approved && g.voteAttempt >= 5 ==>
            r.winner == Some(Evil) && r.status == Finished && r.phase == GameOver)
      && (!approved && g.voteAttempt < 5 ==>
            && r.voteAttempt == g.voteAttempt + 1
            && r.currentLeader == (g.currentLeader + 1) % g.playerCount
            && r.proposedTeam == []
            && r.currentDiscussionSeat == r.currentLeader
            && r.discussionSpeakersCount == 0 && !r.discussionComplete
            && r.phase == Discussion && r.winner == g.winner)
  {}

  // ----- quest -----

  /** `cast_quest_vote`: any seat may play a card, and a later card replaces an earlier one. */
  function CastQuestVote(g: Game, seat: int, success: bool): (r: Game)
    requires ValidGame(g)
    ensures ValidGame(r)
    ensures Get(r.currentQuestVotes, seat) == Some(success)
    ensures forall s :: s != seat ==> Get(r.currentQuestVotes, s) == Get(g.currentQuestVotes, s)
  {
    GetSetSame(g.currentQuestVotes, seat, success);
    forall s | s != seat ensures Get(Set(g.currentQuestVotes, seat, success), s) == Get(g.currentQuestVotes, s) {
      GetSetOther(g.currentQuestVotes, seat, success, s);
    }
    g.(currentQuestVotes := Set(g.currentQuestVotes, seat, success))
  }

  /** `all_quest_votes_cast`. */
  function AllQuestVotesCast(g: Game): bool {
    |g.currentQuestVotes| == |g.proposedTeam|
  }

  function FailVotes(votes: Dict<int, bool>): nat { CountValue(Values(votes), false) }

  /** Fail cards needed to fail the current quest. */
  function FailsRequired(g: Game): (k: int)
    requires ValidGame(g)
    ensures k == if g.currentRound == 4 && g.playerCount >= 7 then 2 else 1
  {
    if RequiresTwoFails(g.playerCount, g.currentRound).value then 2 else 1
  }

  /**
   * `resolve_quest`: the quest succeeds when fewer fail cards were played
   * than it needs. The result is recorded; three successes lead to the
   * evil team's discussion before the assassination, three failures hand
   * the game to evil, and otherwise the next round begins.
   */
  function ResolveQuest(g: Game, now: string): (r: (Game, bool))
    requires ValidGame(g)
    ensures ValidGame(r.0)
  {
    var fails := FailVotes(g.currentQuestVotes);
    var success := fails < FailsRequired(g);
    var q := QuestResult(g.currentRound, |g.proposedTeam|, Some(success), fails, g.proposedTeam, g.currentQuestVotes);
    var g1 := g.(questResults := g.questResults + [q]);
    AllDecidedAppend(g.questResults, q);
    (ConcludeQuest(g1, now), success)
  }

  /** The second half of `resolve_quest`, once the result of the current round is recorded. */
  function ConcludeQuest(g: Game, now: string): (r: Game)
    requires ValidGame(g) && g.currentRound <= |g.questResults|
    ensures ValidGame(r) && r.questResults == g.questResults
  {
    if GoodWins(g) >= 3 then
      WithHumanCheck(g.(phase := AssassinationDiscussion, assassinationDiscussionHistory := [],
        assassinationDiscussionSpeakers := [], assassinationDiscussionComplete := false))
    else if EvilWins(g) >= 3 then
      FinishWith(g, Evil, now)
    else
      WinsPartition(g.questResults);
      PassLead(g.(currentRound := g.currentRound + 1, voteAttempt := 1))
  }

  /** The three ways a recorded quest result can end the round. */
  lemma ConcludeQuestOutcome(g: Game, now: string)
    requires ValidGame(g) && g.currentRound <= |g.questResults|
    ensures var r := ConcludeQuest(g, now);
      GoodWins(g) >= 3 ==>
      && r.phase == AssassinationDiscussion && r.winner == g.winner
      && r.assassinationDiscussionHistory == [] && r.assassinationDiscussionSpeakers == []
      && !r.assassinationDiscussionComplete
    ensures var r := ConcludeQuest(g, now);
      GoodWins(g) < 3 && EvilWins(g) >= 3 ==>
      r.winner == Some(Evil) && r.status == Finished && r.phase == GameOver
    ensures var r := ConcludeQuest(g, now);
      GoodWins(g) < 3 && EvilWins(g) < 3 ==>
      && r.currentRound == g.currentRound + 1 && r.voteAttempt == 1
      && r.currentLeader == (g.currentLeader + 1) % g.playerCount
      && r.phase == Discussion && r.currentDiscussionSeat == r.currentLeader
      && r.proposedTeam == [] && r.discussionSpeakersCount == 0
  {}

  /**
   * The quest fails with one fail card, or with two on the fourth quest of a
   * game of seven or more; exactly one result is appended, recording the
   * team, the cards and the count of fail cards.
   */
  lemma ResolveQuestResult(g: Game, now: string)
    requires ValidGame(g)
    ensures ResolveQuest(g, now).1 <==>
      FailVotes(g.currentQuestVotes) < (if g.currentRound == 4 && g.playerCount >= 7 then 2 else 1)
    ensures ResolveQuest(g, now).0.questResults == g.questResults + [QuestResult(g.currentRound,
      |g.proposedTeam|, Some(ResolveQuest(g, now).1), FailVotes(g.currentQuestVotes), g.proposedTeam, g.currentQuestVotes)]
    ensures FailVotes(g.currentQuestVotes) <= |g.currentQuestVotes|
  {}

  /**
   * After the quest: three successes are checked first and open the evil
   * discussion before the assassination, with no winner yet; otherwise
   * three failures make evil win; otherwise the next round starts at
   * attempt 1 under the next leader.
   */
  lemma ResolveQuestOutcome(g: Game, now: string)
    requires ValidGame(g)
    ensures var (r, _) := ResolveQuest(g, now);
      && (GoodWins(r) >= 3 ==>
            && r.phase == AssassinationDiscussion && r.winner == g.winner
            && r.assassinationDiscussionHistory == [] && r.assassinationDiscussionSpeakers == []
            && !r.assassinationDiscussionComplete)
      && (GoodWins(r) < 3 && EvilWins(r) >= 3 ==>
            r.winner == Some(Evil) && r.status == Finished && r.phase == GameOver)
      && (GoodWins(r) < 3 && EvilWins(r) < 3 ==>
            && r.currentRound == g.currentRound + 1 && r.voteAttempt == 1
            && r.currentLeader == (g.currentLeader + 1) % g.playerCount
            && r.phase == Discussion && r.currentDiscussionSeat == r.currentLeader
            && r.proposedTeam == [] && r.discussionSpeakersCount == 0)
  {
    var fails := FailVotes(g.currentQuestVotes);
    var success := fails < FailsRequired(g);
    var q := QuestResult(g.currentRound, |g.proposedTeam|, Some(success), fails, g.proposedTeam, g.currentQuestVotes);
    var g1 := g.(questResults := g.questResults + [q]);
    AllDecidedAppend(g.questResults, q);
    var r := ResolveQuest(g, now).0;
    assert r == ConcludeQuest(g1, now);
    ConcludeQuestOutcome(g1, now);
    assert r.questResults == g1.questResults;
  }

  /** Each quest adds one to exactly one side's tally. */
  lemma ResolveQuestTally(g: Game, now: string)
    requires ValidGame(g)
    ensures var (r, success) := ResolveQuest(g, now);
      && GoodWins(r) == GoodWins(g) + (if success then 1 else 0)
      && EvilWins(r) == EvilWins(g) + (if success then 0 else 1)
  {
    var fails := FailVotes(g.currentQuestVotes);
    var success := fails < FailsRequired(g);
    var q := QuestResult(g.currentRound, |g.proposedTeam|, Some(success), fails, g.proposedTeam, g.currentQuestVotes);
    CountOutcomeAppend(g.questResults, q, true);
    CountOutcomeAppend(g.questResults, q, false);
  }

  // ----- assassination -----

  /** `add_assassination_discussion`: the message is kept and the speaker recorded once. */
  function AddAssassinationDiscussion(g: Game, seat: int, content: string, now: string): (r: Game)
    ensures !HasSeat(g.players, seat) ==> r == g
    ensures HasSeat(g.players, seat) ==>
      && |r.assassinationDiscussionHistory| == |g.assassinationDiscussionHistory| + 1
      && seat in r.assassinationDiscussionSpeakers
      && (forall s :: s in r.assassinationDiscussionSpeakers <==> s in g.assassinationDiscussionSpeakers || s == seat)
  {
    match GetPlayer(g.players, seat)
    case None => g
    case Some(p) =>
      g.(assassinationDiscussionHistory := g.assassinationDiscussionHistory +
           [DiscussionMessage(seat, p.name, content, g.currentRound, 1, now)],
         assassinationDiscussionSpeakers :=
           if seat in g.assassinationDiscussionSpeakers then g.assassinationDiscussionSpeakers
           else g.assassinationDiscussionSpeakers + [seat])
  }

  ghost predicate NoRepeats(xs: seq<int>) {
    forall i, j :: 0 <= i < j < |xs| ==> xs[i] != xs[j]
  }

  /** A seat is never listed twice among those who have spoken before the assassination. */
  lemma SpeakersListedOnce(g: Game, seat: int, content: string, now: string)
    requires NoRepeats(g.assassinationDiscussionSpeakers)
    ensures NoRepeats(AddAssassinationDiscussion(g, seat, content, now).assassinationDiscussionSpeakers)
  {}

  /**
   * `next_assassination_discussion_speaker`: the first evil seat yet to
   * speak; once every evil seat has spoken, the discussion is complete.
   */
  function NextAssassinationDiscussionSpeaker(g: Game): (r: (Game, Option<int>))
    ensures r.1.Some? ==> r.0 == g && r.1.value in EvilSeats(g.players) && r.1.value !in g.assassinationDiscussionSpeakers
    ensures r.1.None? ==> r.0 == g.(assassinationDiscussionComplete := true)
    ensures r.1.None? <==> forall s :: s in EvilSeats(g.players) ==> s in g.assassinationDiscussionSpeakers
  {
    match NextEvilSpeaker(g)
    case Some(s) => (g, Some(s))
    case None => (g.(assassinationDiscussionComplete := true), None)
  }

  /** `proceed_to_assassination`. */
  function ProceedToAssassination(g: Game): (r: Game)
    requires ValidGame(g)
    ensures ValidGame(r) && r.phase == Assassination
  {
    WithHumanCheck(g.(phase := Assassination))
  }

  /**
   * `assassinate`: naming Merlin wins the game for evil (and returns true);
   * naming anyone else wins it for good; an empty seat changes nothing.
   */
  function Assassinate(g: Game, target: int, now: string): (r: (Game, bool))
    ensures r.1 ==> HasSeat(g.players, target)
    ensures ValidGame(g) ==> ValidGame(r.0)
  {
    match GetPlayer(g.players, target)
    case None => (g, false)
    case Some(p) =>
      var g1 := g.(assassinatedPlayer := Some(target));
      if p.role == Some(Merlin) then (FinishWith(g1, Evil, now), true)
      else (FinishWith(g1, Good, now), false)
  }

  lemma AssassinateOutcome(g: Game, target: int, now: string)
    ensures !HasSeat(g.players, target) ==> Assassinate(g, target, now) == (g, false)
    ensures HasSeat(g.players, target) ==>
      var (r, hit) := Assassinate(g, target, now);
      && (hit <==> GetPlayer(g.players, target).value.role == Some(Merlin))
      && r.winner == Some(if hit then Evil else Good)
      && r.status == Finished && r.phase == GameOver && r.assassinatedPlayer == Some(target)
  {}
}
