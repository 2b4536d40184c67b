/**
 * `GameRepository`'s reconstruction of a game from its stored document and
 * its ordered action log: the response returned to clients
 * (`_game_to_response`), the state rebuilt to resume a game
 * (`get_game_for_restore`) and the win statistics. The loops that fill
 * local dictionaries are methods proved equal to a fold over the log.
 */
module Repository {
  import opened Options
  import opened Json
  import opened PyDicts
  import opened Sorting
  import opened Records
  import Roles
  import State
  import Transitions
  import Rules

  // ----- teams -----

  /** `_get_team_for_role`: no team for a missing or empty role, "evil" for the evil role names, else "good". */
  function TeamForRole(role: Option<string>): Option<string> {
    if !TruthyString(role) then None
    else if role.value in ["assassin", "morgana", "mordred", "oberon", "minion"] then Some("evil")
    else Some("good")
  }

  /** The three outcomes of `_get_team_for_role`. */
  lemma TeamForRoleCases(role: Option<string>)
    ensures TeamForRole(role).None? <==> role.None? || role.value == ""
    ensures TeamForRole(role) == Some("evil") <==>
      role.Some? && role.value in {"assassin", "morgana", "mordred", "oberon", "minion"}
    ensures TeamForRole(role) == Some("good") <==>
      role.Some? && role.value != "" && role.value !in {"assassin", "morgana", "mordred", "oberon", "minion"}
  {}

  /** For the four roles the game deals, the stored team agrees with the role table. */
  lemma TeamForRoleAgrees(r: Roles.Role)
    ensures TeamForRole(Some(Roles.Name(r))) == Some(Roles.TeamName(Roles.GetTeam(r)))
  {}

  // ----- votes grouped by a key -----

  /** Seat -> vote, per group. */
  type Groups<K(==)> = Dict<K, Dict<int, bool>>
  type VoteGroups = Groups<(int, int)>

  /** The group of a team vote: its round and its attempt (`or 1`); other actions have none. */
  function TeamVoteKey(a: Action): Option<(int, int)> {
    if a.actionType == "team_vote" then Some((a.roundNum, AttemptOr1(a))) else None
  }

  /** The group of a quest vote: its round; other actions have none. */
  function QuestVoteKey(a: Action): Option<int> {
    if a.actionType == "quest_vote" then Some(a.roundNum) else None
  }

  /**
   * One vote action folded into its group: the group is opened on first
   * sight, and a recorded vote is set for the seat, replacing any earlier
   * vote of that seat in the group.
   */
  function AddVote<K(==)>(groups: Groups<K>, key: K, a: Action): Groups<K> {
    var votes := Get(groups, key).GetOr([]);
    Set(groups, key, if a.vote.Some? then Set(votes, a.playerSeat, a.vote.value) else votes)
  }

  /** The groups after the whole log (`votes_by_round`, `quest_votes_by_round`). */
  function GroupsOf<K(==)>(actions: seq<Action>, keyOf: Action -> Option<K>): Groups<K>
    decreases |actions|
  {
    if actions == [] then []
    else
      var groups := GroupsOf(actions[..|actions| - 1], keyOf);
      var a := actions[|actions| - 1];
      match keyOf(a)
      case None => groups
      case Some(key) => AddVote(groups, key, a)
  }

  /** The grouping loops of `_game_to_response`. */
  method GroupVotes<K(==)>(actions: seq<Action>, keyOf: Action -> Option<K>) returns (groups: Groups<K>)
    ensures groups == GroupsOf(actions, keyOf)
  {
    groups := [];
    for i := 0 to |actions|
      invariant groups == GroupsOf(actions[..i], keyOf)
    {
      var action := actions[i];
      assert actions[..i + 1][..i] == actions[..i];
      var key := keyOf(action);
      if key.Some? {
        var votes: Dict<int, bool> := [];
        if Contains(groups, key.value) {
          votes := Get(groups, key.value).value;
        }
        if action.vote.Some? {
          votes := Set(votes, action.playerSeat, action.vote.value);
        }
        groups := Set(groups, key.value, votes);
      }
    }
    assert actions[..|actions|] == actions;
  }

  /** Reference definition: the vote of the LAST action in group `key` that recorded a vote for `seat`. */
  function LastVote<K(==)>(actions: seq<Action>, keyOf: Action -> Option<K>, key: K, seat: int): Option<bool>
    decreases |actions|
  {
    if actions == [] then None
    else
      var a := actions[|actions| - 1];
      if keyOf(a) == Some(key) && a.playerSeat == seat && a.vote.Some? then a.vote
      else LastVote(actions[..|actions| - 1], keyOf, key, seat)
  }

  /** A group holds, for each seat, the last vote the log records for it: later votes overwrite earlier ones. */
  lemma {:induction false} GroupHoldsLastVote<K>(actions: seq<Action>, keyOf: Action -> Option<K>, key: K, seat: int)
    ensures Get(Get(GroupsOf(actions, keyOf), key).GetOr([]), seat) == LastVote(actions, keyOf, key, seat)
    decreases |actions|
  {
    if actions != [] {
      var prefix := actions[..|actions| - 1];
      var a := actions[|actions| - 1];
      var groups := GroupsOf(prefix, keyOf);
      GroupHoldsLastVote(prefix, keyOf, key, seat);
      if keyOf(a).Some? {
        var k := keyOf(a).value;
        var votes := Get(groups, k).GetOr([]);
        var votes' := if a.vote.Some? then Set(votes, a.playerSeat, a.vote.value) else votes;
        if k == key {
          GetSetSame(groups, k, votes');
          if a.vote.Some? {
            if a.playerSeat == seat {
              GetSetSame(votes, seat, a.vote.value);
            } else {
              GetSetOther(votes, a.playerSeat, a.vote.value, seat);
            }
          }
        } else {
          GetSetOther(groups, k, votes', key);
        }
      }
    }
  }

  /** Some action of the log falls in group `key`. */
  predicate Opens<K(==)>(actions: seq<Action>, keyOf: Action -> Option<K>, key: K) {
    exists i :: 0 <= i < |actions| && keyOf(actions[i]) == Some(key)
  }

  lemma OpensStep<K>(actions: seq<Action>, keyOf: Action -> Option<K>, key: K)
    requires actions != []
    ensures Opens(actions, keyOf, key) <==>
      Opens(actions[..|actions| - 1], keyOf, key) || keyOf(actions[|actions| - 1]) == Some(key)
  {
    var prefix := actions[..|actions| - 1];
    if Opens(actions, keyOf, key) {
      var i :| 0 <= i < |actions| && keyOf(actions[i]) == Some(key);
      if i < |prefix| {
        assert keyOf(prefix[i]) == Some(key);
      }
    }
    if Opens(prefix, keyOf, key) {
      var i :| 0 <= i < |prefix| && keyOf(prefix[i]) == Some(key);
      assert keyOf(actions[i]) == Some(key);
    }
  }

  /** A group exists exactly for the keys of the log's vote actions, recorded votes or not. */
  lemma {:induction false} GroupOpened<K>(actions: seq<Action>, keyOf: Action -> Option<K>, key: K)
    ensures Contains(GroupsOf(actions, keyOf), key) <==> Opens(actions, keyOf, key)
    decreases |actions|
  {
    if actions != [] {
      var prefix := actions[..|actions| - 1];
      var a := actions[|actions| - 1];
      GroupOpened(prefix, keyOf, key);
      OpensStep(actions, keyOf, key);
      if keyOf(a).Some? {
        AddVoteKeys(GroupsOf(prefix, keyOf), keyOf(a).value, a, key);
      }
    }
  }

  /** Folding a vote into group `k` adds `k` to the groups and no other key. */
  lemma AddVoteKeys<K>(groups: Groups<K>, k: K, a: Action, key: K)
    ensures Contains(AddVote(groups, k, a), key) <==> Contains(groups, key) || key == k
  {}

  // ----- the vote history -----

  /** One entry of the rebuilt `vote_history`. */
  datatype VoteRecord = VoteRecord(round: int, attempt: int, votes: Dict<int, bool>, approved: bool)

  /** A group is approved when approvals exceed half of the votes RECORDED in it. */
  function VoteRecordOf(key: (int, int), votes: Dict<int, bool>): VoteRecord {
    VoteRecord(key.0, key.1, votes, Transitions.Approvals(votes) > |votes| / 2)
  }

  /** One record per group, in the order the groups were opened. */
  function VoteHistory(groups: VoteGroups): seq<VoteRecord> {
    seq(|groups|, i requires 0 <= i < |groups| => VoteRecordOf(groups[i].0, groups[i].1))
  }

  /** The `vote_history` loop. */
  method BuildVoteHistory(groups: VoteGroups) returns (history: seq<VoteRecord>)
    ensures history == VoteHistory(groups)
  {
    history := [];
    for i := 0 to |groups|
      invariant history == VoteHistory(groups[..i])
    {
      var (key, votes) := groups[i];
      var approvals := Transitions.Approvals(votes);
      history := history + [VoteRecord(key.0, key.1, votes, approvals > |votes| / 2)];
    }
    assert groups[..|groups|] == groups;
  }

  /**
   * The approval rule counts the voters recorded in the group, not the
   * players: it is a strict majority of them, and it agrees with the
   * engine's rule exactly when every player's vote was recorded.
   */
  lemma ReplayedApproval(key: (int, int), votes: Dict<int, bool>, playerCount: int)
    ensures VoteRecordOf(key, votes).approved <==> 2 * Transitions.Approvals(votes) > |votes|
    ensures |votes| == playerCount ==>
      (VoteRecordOf(key, votes).approved <==> Transitions.Approvals(votes) > playerCount / 2)
  {}

  /** Two approvals out of three recorded votes approve the replayed team, though five players would reject it. */
  lemma ReplayedApprovalDiffers()
    ensures var votes := [(0, true), (1, true), (2, false)];
      && VoteRecordOf((1, 1), votes).approved
      && !(Transitions.Approvals(votes) > 5 / 2)
  {
    var votes := [(0, true), (1, true), (2, false)];
    assert Values(votes) == [true, true, false];
    assert Transitions.Approvals(votes) == 2;
  }

  // ----- the proposals kept on restore -----

  /** On restore a group also keeps the team proposed by its FIRST vote action (`or []`). */
  datatype Proposal = Proposal(votes: Dict<int, bool>, proposedTeam: seq<int>)

  function AddProposalVote(groups: Dict<(int, int), Proposal>, key: (int, int), a: Action): Dict<(int, int), Proposal> {
    var entry := Get(groups, key).GetOr(Proposal([], a.proposedTeam.GetOr([])));
    var entry' := if a.vote.Some? then entry.(votes := Set(entry.votes, a.playerSeat, a.vote.value)) else entry;
    Set(groups, key, entry')
  }

  /** `votes_by_key` of `get_game_for_restore`. */
  function ProposalsOf(actions: seq<Action>): Dict<(int, int), Proposal>
    decreases |actions|
  {
    if actions == [] then []
    else
      var groups := ProposalsOf(actions[..|actions| - 1]);
      var a := actions[|actions| - 1];
      match TeamVoteKey(a)
      case None => groups
      case Some(key) => AddProposalVote(groups, key, a)
  }

  function VotesOnly(d: Dict<(int, int), Proposal>): VoteGroups {
    if d == [] then [] else [(d[0].0, d[0].1.votes)] + VotesOnly(d[1..])
  }

  lemma {:induction false} VotesOnlyGet(d: Dict<(int, int), Proposal>, k: (int, int))
    ensures Get(VotesOnly(d), k) == if Get(d, k).Some? then Some(Get(d, k).value.votes) else None
  {
    if d != [] && d[0].0 != k {
      VotesOnlyGet(d[1..], k);
    }
  }

  lemma {:induction false} VotesOnlySet(d: Dict<(int, int), Proposal>, k: (int, int), p: Proposal)
    ensures VotesOnly(Set(d, k, p)) == Set(VotesOnly(d), k, p.votes)
  {
    if d != [] && d[0].0 != k {
      VotesOnlySet(d[1..], k, p);
    }
  }

  /** Restore groups the votes exactly as the response does. */
  lemma {:induction false} ProposalVotesAgree(actions: seq<Action>)
    ensures VotesOnly(ProposalsOf(actions)) == GroupsOf(actions, TeamVoteKey)
    decreases |actions|
  {
    if actions != [] {
      var prefix := actions[..|actions| - 1];
      var a := actions[|actions| - 1];
      ProposalVotesAgree(prefix);
      if TeamVoteKey(a).Some? {
        var key := TeamVoteKey(a).value;
        var groups := ProposalsOf(prefix);
        var entry := Get(groups, key).GetOr(Proposal([], a.proposedTeam.GetOr([])));
        var entry' := if a.vote.Some? then entry.(votes := Set(entry.votes, a.playerSeat, a.vote.value)) else entry;
        VotesOnlyGet(groups, key);
        VotesOnlySet(groups, key, entry');
      }
    }
  }

  /** The first team vote of group `key`. */
  function FirstOfGroup(actions: seq<Action>, key: (int, int)): Option<Action>
    decreases |actions|
  {
    if actions == [] then None
    else
      var first := FirstOfGroup(actions[..|actions| - 1], key);
      if first.Some? then first
      else if TeamVoteKey(actions[|actions| - 1]) == Some(key) then Some(actions[|actions| - 1])
      else None
  }

  /** A restored group's proposed team is the one its first vote action carried, `[]` when that was missing. */
  lemma {:induction false} ProposalIsFirst(actions: seq<Action>, key: (int, int))
    ensures Get(ProposalsOf(actions), key).Some? <==> FirstOfGroup(actions, key).Some?
    ensures Get(ProposalsOf(actions), key).Some? ==>
      Get(ProposalsOf(actions), key).value.proposedTeam == FirstOfGroup(actions, key).value.proposedTeam.GetOr([])
    decreases |actions|
  {
    if actions != [] {
      var prefix := actions[..|actions| - 1];
      var a := actions[|actions| - 1];
      ProposalIsFirst(prefix, key);
      if TeamVoteKey(a).Some? {
        var k := TeamVoteKey(a).value;
        var groups := ProposalsOf(prefix);
        var entry := Get(groups, k).GetOr(Proposal([], a.proposedTeam.GetOr([])));
        var entry' := if a.vote.Some? then entry.(votes := Set(entry.votes, a.playerSeat, a.vote.value)) else entry;
        if k == key {
          GetSetSame(groups, k, entry');
        } else {
          GetSetOther(groups, k, entry', key);
        }
      }
    }
  }

  // ----- quest results -----

  /** `r.get("team_members")` when it is a list, else `[]`. */
  function MemberSeats(m: Members): seq<int> {
    if m.MemberList? then m.seats else []
  }

  /** `len(team_members) if team_members else r.get("team_members") or 0`. */
  function StoredTeamSize(m: Members): (size: Json)
    ensures MemberSeats(m) != [] ==> size == JInt(|MemberSeats(m)|)
    ensures m.MemberValue? ==> size == if Truthy(m.value) then m.value else JInt(0)
    ensures m == MemberList([]) ==> size == JInt(0)
  {
    match m
    case MemberList(seats) => JInt(|seats|)
    case MemberValue(v) => if Truthy(v) then v else JInt(0)
  }

  /** One entry of the response's `quest_results`. */
  datatype QuestRecord = QuestRecord(
    round: int,
    teamSize: Json,
    success: Option<bool>,
    failVotes: int,
    teamMembers: seq<int>,
    questVotes: Dict<int, bool>)

  function RoundNumber(r: StoredRound): int { r.roundNum }

  /** A stored round as the response shows it: its quest votes only when revealing. */
  function StoredQuestRecord(r: StoredRound, questGroups: Groups<int>, revealed: bool): QuestRecord {
    var votes := if revealed then Get(questGroups, r.roundNum).GetOr([]) else [];
    QuestRecord(r.roundNum, StoredTeamSize(r.teamMembers), r.success, r.failVotes, MemberSeats(r.teamMembers), votes)
  }

  /**
   * For the fallback: the rounds of approved groups mapped to a team, in
   * group order, so a later approved group of the same round wins.
   * `teamOf` is how each source finds a group's team.
   */
  function ApprovedTeams(groups: VoteGroups, teamOf: ((int, int)) -> Option<seq<int>>): Dict<int, seq<int>>
    decreases |groups|
  {
    if groups == [] then []
    else
      var teams := ApprovedTeams(groups[..|groups| - 1], teamOf);
      var (key, votes) := groups[|groups| - 1];
      if VoteRecordOf(key, votes).approved && teamOf(key).Some? then Set(teams, key.0, teamOf(key).value)
      else teams
  }

  /** A round gets a team only from an approved group of that round. */
  lemma {:induction false} ApprovedTeamsSound(groups: VoteGroups, teamOf: ((int, int)) -> Option<seq<int>>, round: int)
    requires Get(ApprovedTeams(groups, teamOf), round).Some?
    ensures exists i ::
      && 0 <= i < |groups| && groups[i].0.0 == round && VoteRecordOf(groups[i].0, groups[i].1).approved
      && teamOf(groups[i].0) == Get(ApprovedTeams(groups, teamOf), round)
    decreases |groups|
  {
    var prefix := groups[..|groups| - 1];
    var teams := ApprovedTeams(prefix, teamOf);
    var (key, votes) := groups[|groups| - 1];
    if VoteRecordOf(key, votes).approved && teamOf(key).Some? && key.0 == round {
      GetSetSame(teams, key.0, teamOf(key).value);
      assert groups[|groups| - 1].0 == key;
    } else {
      if VoteRecordOf(key, votes).approved && teamOf(key).Some? {
        GetSetOther(teams, key.0, teamOf(key).value, round);
      }
      ApprovedTeamsSound(prefix, teamOf, round);
      var i :| 0 <= i < |prefix| && prefix[i].0.0 == round && VoteRecordOf(prefix[i].0, prefix[i].1).approved
        && teamOf(prefix[i].0) == Get(teams, round);
      assert groups[i] == prefix[i];
    }
  }

  /** The response's search: the first team vote of the group whose `proposed_team` is non-empty. */
  function FirstProposedTeam(actions: seq<Action>, key: (int, int)): (team: Option<seq<int>>)
    ensures team.Some? ==> team.value != []
  {
    if actions == [] then None
    else if TeamVoteKey(actions[0]) == Some(key) && actions[0].proposedTeam.Some? && actions[0].proposedTeam.value != [] then
      actions[0].proposedTeam
    else FirstProposedTeam(actions[1..], key)
  }

  /**
   * A quest rebuilt from its votes alone: it succeeds iff nobody failed it,
   * its team is the approved team of its round or else its voters, and its
   * size is the number of votes.
   */
  function FallbackResult(round: int, votes: Dict<int, bool>, teams: Dict<int, seq<int>>): State.QuestResult {
    var fails := Transitions.FailVotes(votes);
    State.QuestResult(round, |votes|, Some(fails == 0), fails, Get(teams, round).GetOr(Keys(votes)), votes)
  }

  function Identity(k: int): int { k }

  /** The fallback loop, over the quest-vote rounds in increasing order. */
  function FallbackResults(questGroups: Groups<int>, teams: Dict<int, seq<int>>): (results: seq<State.QuestResult>)
    ensures |results| == |questGroups|
  {
    var rounds := SortBy(Keys(questGroups), Identity);
    seq(|rounds|, i requires 0 <= i < |rounds| => FallbackResult(rounds[i], Get(questGroups, rounds[i]).GetOr([]), teams))
  }

  /** The fallback decides success by "no fail vote", whatever the round and the number of players. */
  lemma FallbackIgnoresTwoFails(questGroups: Groups<int>, teams: Dict<int, seq<int>>, i: int)
    requires 0 <= i < |FallbackResults(questGroups, teams)|
    ensures var q := FallbackResults(questGroups, teams)[i];
      q.success == Some(q.failVotes == 0) && q.failVotes == Transitions.FailVotes(q.questVotes)
  {}

  /** With seven players the fourth quest needs two fails, but a single fail fails it in the fallback. */
  lemma FallbackDiffersFromEngine()
    ensures Rules.RequiresTwoFails(7, 4) == Ok(true)
    ensures var q := FallbackResult(4, [(0, true), (1, true), (2, false), (3, true)], []);
      q.failVotes == 1 && q.success == Some(false)
  {
    var votes := [(0, true), (1, true), (2, false), (3, true)];
    assert Values(votes) == [true, true, false, true];
  }

  function ShownQuest(q: State.QuestResult, revealed: bool): QuestRecord {
    var votes := if revealed then q.questVotes else [];
    QuestRecord(q.round, JInt(q.teamSize), q.success, q.failVotes, q.teamMembers, votes)
  }

  /** The stored rounds by round number, as the response shows them. */
  function StoredQuests(rounds: seq<StoredRound>, questGroups: Groups<int>, revealed: bool): (quests: seq<QuestRecord>)
    ensures |quests| == |rounds|
  {
    var sorted := SortBy(rounds, RoundNumber);
    seq(|sorted|, i requires 0 <= i < |sorted| => StoredQuestRecord(sorted[i], questGroups, revealed))
  }

  /** Stored rounds come out in round order, each with the round's own fail count; their votes only when revealing. */
  lemma StoredQuestsShown(rounds: seq<StoredRound>, questGroups: Groups<int>, revealed: bool, i: int)
    requires 0 <= i < |rounds|
    ensures SortedBy(StoredQuests(rounds, questGroups, revealed), (q: QuestRecord) => q.round)
    ensures exists j ::
      && 0 <= j < |rounds|
      && StoredQuests(rounds, questGroups, revealed)[i].round == rounds[j].roundNum
      && StoredQuests(rounds, questGroups, revealed)[i].failVotes == rounds[j].failVotes
    ensures !revealed ==> StoredQuests(rounds, questGroups, revealed)[i].questVotes == []
  {
    var sorted := SortBy(rounds, RoundNumber);
    assert sorted[i] in multiset(rounds);
    var j :| 0 <= j < |rounds| && rounds[j] == sorted[i];
  }

  /** The fallback's quests, as the response shows them. */
  function FallbackQuests(actions: seq<Action>, questGroups: Groups<int>, revealed: bool): (quests: seq<QuestRecord>)
    ensures |quests| == |questGroups|
    ensures !revealed ==> forall i :: 0 <= i < |quests| ==> quests[i].questVotes == []
  {
    var teams := ApprovedTeams(GroupsOf(actions, TeamVoteKey), key => FirstProposedTeam(actions, key));
    var results := FallbackResults(questGroups, teams);
    seq(|results|, i requires 0 <= i < |results| => ShownQuest(results[i], revealed))
  }

  /** The response's `quest_results`: the stored rounds, else the fallback when quest votes were logged, else none. */
  function ResponseQuests(game: StoredGame, actions: seq<Action>, revealed: bool): (quests: seq<QuestRecord>)
    ensures |quests| == if game.rounds != [] then |game.rounds| else |GroupsOf(actions, QuestVoteKey)|
  {
    var questGroups := GroupsOf(actions, QuestVoteKey);
    if game.rounds != [] then StoredQuests(game.rounds, questGroups, revealed)
    else if questGroups != [] then FallbackQuests(actions, questGroups, revealed)
    else []
  }

  // ----- players -----

  /** The seat of the first human, in stored order. */
  function StoredFirstHuman(players: seq<StoredPlayer>): (seat: Option<int>)
    ensures seat.None? <==> forall i :: 0 <= i < |players| ==> !players[i].isHuman
    ensures seat.Some? ==> exists i :: 0 <= i < |players| && players[i].isHuman && players[i].seat == seat.value
  {
    if players == [] then None
    else if players[0].isHuman then Some(players[0].seat)
    else
      assert forall i :: 1 <= i < |players| ==> players[i] == players[1..][i - 1];
      StoredFirstHuman(players[1..])
  }

  /** One entry of the response's `players`. */
  datatype PlayerRecord = PlayerRecord(
    seat: int,
    name: string,
    isHuman: bool,
    modelName: Option<string>,
    isLeader: bool,
    isOnQuest: bool,
    role: Option<string>,
    team: Option<string>)

  /** Role and team are shown when revealing and for the human's own seat, and hidden otherwise. */
  function PlayerRecordOf(p: StoredPlayer, revealed: bool, humanSeat: Option<int>): PlayerRecord {
    var shown := revealed || humanSeat == Some(p.seat);
    var role := if shown then p.role else None;
    var team := if shown then TeamForRole(p.role) else None;
    PlayerRecord(p.seat, p.name, p.isHuman, p.modelName, false, false, role, team)
  }

  function Seat(p: StoredPlayer): int { p.seat }

  /** The response's `players`, by seat. */
  function PlayerRecords(players: seq<StoredPlayer>, revealed: bool): (records: seq<PlayerRecord>)
    ensures |records| == |players|
  {
    var sorted := SortBy(players, Seat);
    var human := StoredFirstHuman(players);
    seq(|sorted|, i requires 0 <= i < |sorted| => PlayerRecordOf(sorted[i], revealed, human))
  }

  /**
   * `r` shows stored player `p`: same seat and name, not leading nor on a
   * quest, with the stored role and its team when revealing or for the
   * human's seat, and with neither otherwise.
   */
  predicate Shows(r: PlayerRecord, p: StoredPlayer, revealed: bool, humanSeat: Option<int>) {
    && r.seat == p.seat && r.name == p.name && !r.isLeader && !r.isOnQuest
    && (revealed || humanSeat == Some(p.seat) ==> r.role == p.role && r.team == TeamForRole(p.role))
    && (!revealed && humanSeat != Some(p.seat) ==> r.role.None? && r.team.None?)
  }

  /** Every record shows one stored player, the human being the first human in stored order. */
  lemma PlayerRecordsVisibility(players: seq<StoredPlayer>, revealed: bool, i: int)
    requires 0 <= i < |players|
    ensures exists j :: 0 <= j < |players| && Shows(PlayerRecords(players, revealed)[i], players[j], revealed, StoredFirstHuman(players))
  {
    var sorted := SortBy(players, Seat);
    assert sorted[i] in multiset(players);
    var j :| 0 <= j < |players| && players[j] == sorted[i];
    assert Shows(PlayerRecords(players, revealed)[i], players[j], revealed, StoredFirstHuman(players));
  }

  /** Players come out in seat order. */
  lemma PlayerRecordsBySeat(players: seq<StoredPlayer>, revealed: bool)
    ensures SortedBy(PlayerRecords(players, revealed), (r: PlayerRecord) => r.seat)
  {
    var sorted := SortBy(players, Seat);
    assert SortedBy(sorted, Seat);
  }

  // ----- discussions -----

  datatype DiscussionEntry = DiscussionEntry(
    seat: int, playerName: string, content: string, round: int, attempt: int, timestamp: Option<string>)

  datatype AssassinationEntry = AssassinationEntry(seat: int, playerName: string, content: string, timestamp: Option<string>)

  /** A discussion action as the response shows it: the speaker's name, the content `or ""`, the attempt `or 1`. */
  function DiscussionEntryOf(a: Action, players: seq<StoredPlayer>): DiscussionEntry {
    DiscussionEntry(a.playerSeat, NameAt(players, a.playerSeat), a.content.GetOr(""), a.roundNum, AttemptOr1(a), a.timestamp)
  }

  /** `discussion_history`: one entry per discussion action, in log order. */
  function DiscussionEntries(actions: seq<Action>, players: seq<StoredPlayer>): (entries: seq<DiscussionEntry>)
    ensures |entries| == |OfType(actions, "discussion")|
  {
    var said := OfType(actions, "discussion");
    seq(|said|, k requires 0 <= k < |said| => DiscussionEntryOf(said[k], players))
  }

  function AssassinationEntryOf(a: Action, players: seq<StoredPlayer>): AssassinationEntry {
    AssassinationEntry(a.playerSeat, NameAt(players, a.playerSeat), a.content.GetOr(""), a.timestamp)
  }

  /** `assassination_discussion_history`: one entry per assassination-discussion action, in log order. */
  function AssassinationEntries(actions: seq<Action>, players: seq<StoredPlayer>): (entries: seq<AssassinationEntry>)
    ensures |entries| == |OfType(actions, "assassination_discussion")|
  {
    var said := OfType(actions, "assassination_discussion");
    seq(|said|, k requires 0 <= k < |said| => AssassinationEntryOf(said[k], players))
  }

  /** Every logged discussion message appears in the history, with its speaker's name and content. */
  lemma DiscussionLogged(actions: seq<Action>, players: seq<StoredPlayer>, i: int)
    requires 0 <= i < |actions| && actions[i].actionType == "discussion"
    ensures exists k ::
      && 0 <= k < |DiscussionEntries(actions, players)|
      && DiscussionEntries(actions, players)[k] == DiscussionEntryOf(actions[i], players)
  {
    var said := OfType(actions, "discussion");
    var k :| 0 <= k < |said| && said[k] == actions[i];
    assert DiscussionEntries(actions, players)[k] == DiscussionEntryOf(actions[i], players);
  }

  /** Every logged assassination-discussion message appears in its history. */
  lemma AssassinationLogged(actions: seq<Action>, players: seq<StoredPlayer>, i: int)
    requires 0 <= i < |actions| && actions[i].actionType == "assassination_discussion"
    ensures exists k ::
      && 0 <= k < |AssassinationEntries(actions, players)|
      && AssassinationEntries(actions, players)[k] == AssassinationEntryOf(actions[i], players)
  {
    var said := OfType(actions, "assassination_discussion");
    var k :| 0 <= k < |said| && said[k] == actions[i];
    assert AssassinationEntries(actions, players)[k] == AssassinationEntryOf(actions[i], players);
  }

  // ----- the response -----

  /** `current_round` of the response: the next quest while in progress, the last one once finished, 1 with no quests. */
  function ResponseRound(quests: nat, finished: bool): (round: int)
    ensures round >= 1
    ensures quests == 0 ==> round == 1
    ensures quests > 0 ==> round == if finished then quests else quests + 1
  {
    if finished then (if quests > 0 then quests else 1)
    else (if quests > 0 then quests + 1 else 1)
  }

  datatype GameResponse = GameResponse(
    id: string,
    status: string,
    phase: string,
    playerCount: int,
    players: seq<PlayerRecord>,
    currentRound: int,
    currentLeader: int,
    voteAttempt: int,
    discussionHistory: seq<DiscussionEntry>,
    voteHistory: seq<VoteRecord>,
    questResults: seq<QuestRecord>,
    assassinationDiscussionHistory: seq<AssassinationEntry>,
    proposedTeam: seq<int>,
    winner: Option<string>,
    assassinatedPlayer: Option<int>,
    waitingForHuman: bool,
    humanActionType: Option<string>)

  /** `should_reveal`: on request, or once the game is finished. */
  predicate ShouldReveal(game: StoredGame, revealAll: bool) {
    revealAll || game.status == "finished"
  }

  /** `_game_to_response`. */
  function GameToResponse(game: StoredGame, actions: seq<Action>, revealAll: bool): GameResponse {
    var revealed := ShouldReveal(game, revealAll);
    var quests := ResponseQuests(game, actions, revealed);
    GameResponse(game.id, game.status, game.phase, game.playerCount,
      PlayerRecords(game.players, revealed),
      ResponseRound(|quests|, game.status == "finished"),
      0, 1,
      DiscussionEntries(actions, game.players),
      VoteHistory(GroupsOf(actions, TeamVoteKey)),
      quests,
      AssassinationEntries(actions, game.players),
      [], game.winner, FirstAssassinationTarget(actions), false, None)
  }

  /**
   * What the response reveals: quest votes and hidden roles only when
   * revealing; the live-game fields at fixed values; the assassinated seat
   * from the first assassination; and one vote record per voted group.
   */
  lemma ResponseShows(game: StoredGame, actions: seq<Action>, revealAll: bool)
    ensures var r := GameToResponse(game, actions, revealAll);
      && (!ShouldReveal(game, revealAll) ==> forall i :: 0 <= i < |r.questResults| ==> r.questResults[i].questVotes == [])
      && r.currentLeader == 0 && r.voteAttempt == 1 && r.proposedTeam == [] && !r.waitingForHuman
      && r.assassinatedPlayer == FirstAssassinationTarget(actions)
      && |r.voteHistory| == |GroupsOf(actions, TeamVoteKey)|
      && |r.players| == |game.players|
      && r.currentRound >= 1
  {
    var revealed := ShouldReveal(game, revealAll);
    var quests := ResponseQuests(game, actions, revealed);
    if !revealed && game.rounds != [] {
      forall i | 0 <= i < |quests| ensures quests[i].questVotes == [] {
        StoredQuestsShown(game.rounds, GroupsOf(actions, QuestVoteKey), revealed, i);
      }
    }
  }

  // ----- restoring a game -----

  function PhaseName(p: State.Phase): string {
    match p
    case RoleAssignment => "role_assignment"
    case NightPhase => "night_phase"
    case TeamSelection => "team_selection"
    case Discussion => "discussion"
    case TeamVote => "team_vote"
    case QuestExecution => "quest_execution"
    case AssassinationDiscussion => "assassination_discussion"
    case Assassination => "assassination"
    case GameOver => "game_over"
  }

  /** `GamePhase(s)`, or None where it raises `ValueError`. */
  function PhaseFromName(s: string): (p: Option<State.Phase>)
    ensures p.Some? ==> PhaseName(p.value) == s
  {
    if s == "role_assignment" then Some(State.RoleAssignment)
    else if s == "night_phase" then Some(State.NightPhase)
    else if s == "team_selection" then Some(State.TeamSelection)
    else if s == "discussion" then Some(State.Discussion)
    else if s == "team_vote" then Some(State.TeamVote)
    else if s == "quest_execution" then Some(State.QuestExecution)
    else if s == "assassination_discussion" then Some(State.AssassinationDiscussion)
    else if s == "assassination" then Some(State.Assassination)
    else if s == "game_over" then Some(State.GameOver)
    else None
  }

  lemma PhaseNameRoundTrip(p: State.Phase)
    ensures PhaseFromName(PhaseName(p)) == Some(p)
  {}

  function StatusName(st: State.Status): string {
    match st
    case Waiting => "waiting"
    case InProgress => "in_progress"
    case Finished => "finished"
  }

  /** `GameStatus(s)`, or None where it raises `ValueError`. */
  function StatusFromName(s: string): (st: Option<State.Status>)
    ensures st.Some? ==> StatusName(st.value) == s
  {
    if s == "waiting" then Some(State.Waiting)
    else if s == "in_progress" then Some(State.InProgress)
    else if s == "finished" then Some(State.Finished)
    else None
  }

  lemma StatusNameRoundTrip(st: State.Status)
    ensures StatusFromName(StatusName(st)) == Some(st)
  {}

  /** `Team(s)`, or None where it raises `ValueError`. */
  function TeamFromName(s: string): (t: Option<Roles.Team>)
    ensures t.Some? ==> Roles.TeamName(t.value) == s
    ensures s == "good" ==> t == Some(Roles.Good)
    ensures s == "evil" ==> t == Some(Roles.Evil)
  {
    if s == "good" then Some(Roles.Good) else if s == "evil" then Some(Roles.Evil) else None
  }

  /** A stored player as a `Player`: a role name the game does not know is dropped. */
  function RestorePlayer(p: StoredPlayer): State.Player {
    var role := if TruthyString(p.role) then Roles.FromName(p.role.value) else None;
    State.Player(p.seat, p.name, role, p.isHuman, p.modelName, p.provider)
  }

  /** Stored roles that name a game role come back as that role; every other role comes back unassigned. */
  lemma RestorePlayerRole(p: StoredPlayer)
    ensures forall r: Roles.Role :: p.role == Some(Roles.Name(r)) ==> RestorePlayer(p).role == Some(r)
    ensures RestorePlayer(p).role.Some? ==> p.role == Some(Roles.Name(RestorePlayer(p).role.value))
    ensures RestorePlayer(p).seat == p.seat && RestorePlayer(p).name == p.name
  {
    forall r: Roles.Role | p.role == Some(Roles.Name(r)) ensures RestorePlayer(p).role == Some(r) {
      Roles.NameRoundTrip(r);
    }
  }

  /** Python's `a % b`, whose result takes the sign of `b`. */
  function PyMod(a: int, b: int): (r: int)
    requires b != 0
    ensures b > 0 ==> 0 <= r < b && r == a % b
    ensures b < 0 ==> b < r <= 0
  {
    if b > 0 then a % b
    else if a % (-b) == 0 then 0
    else a % (-b) + b
  }

  /** The restored `vote_history`: the replayed approval rule, the first proposed team, leader 0. */
  function RestoreVoteHistory(proposals: Dict<(int, int), Proposal>): (history: seq<State.VoteResult>)
    ensures |history| == |proposals|
  {
    seq(|proposals|, i requires 0 <= i < |proposals| =>
      var (key, p) := proposals[i];
      State.VoteResult(key.0, key.1, p.votes, VoteRecordOf(key, p.votes).approved, p.proposedTeam, 0))
  }

  function RestoreDiscussion(actions: seq<Action>, players: seq<StoredPlayer>): (history: seq<State.DiscussionMessage>)
    ensures |history| == |OfType(actions, "discussion")|
  {
    var said := OfType(actions, "discussion");
    seq(|said|, k requires 0 <= k < |said| =>
      var e := DiscussionEntryOf(said[k], players);
      State.DiscussionMessage(e.seat, e.playerName, e.content, e.round, e.attempt, e.timestamp.GetOr("")))
  }

  /** A stored round as a `QuestResult`: its team size is the length of its member list, its quest votes always kept. */
  function RestoreStoredRound(r: StoredRound, questGroups: Groups<int>): State.QuestResult {
    var members := MemberSeats(r.teamMembers);
    State.QuestResult(r.roundNum, |members|, r.success, r.failVotes, members, Get(questGroups, r.roundNum).GetOr([]))
  }

  /** The team restore credits to a group: its first proposed team, when not empty. */
  function ProposedTeamOf(proposals: Dict<(int, int), Proposal>, key: (int, int)): Option<seq<int>> {
    var team := Get(proposals, key).GetOr(Proposal([], [])).proposedTeam;
    if team != [] then Some(team) else None
  }

  /** The restored `quest_results`: the stored rounds by round number, else the fallback, else none. */
  function RestoreQuests(game: StoredGame, actions: seq<Action>): (quests: seq<State.QuestResult>)
    ensures |quests| == if game.rounds != [] then |game.rounds| else |GroupsOf(actions, QuestVoteKey)|
  {
    var questGroups := GroupsOf(actions, QuestVoteKey);
    if game.rounds != [] then
      var sorted := SortBy(game.rounds, RoundNumber);
      seq(|sorted|, i requires 0 <= i < |sorted| => RestoreStoredRound(sorted[i], questGroups))
    else if questGroups != [] then
      var proposals := ProposalsOf(actions);
      FallbackResults(questGroups, ApprovedTeams(VotesOnly(proposals), key => ProposedTeamOf(proposals, key)))
    else []
  }

  /** Number of vote results of round `round`. */
  function VotesInRound(history: seq<State.VoteResult>, round: int): (k: nat)
    ensures k <= |history|
  {
    if history == [] then 0
    else (if history[0].round == round then 1 else 0) + VotesInRound(history[1..], round)
  }

  /**
   * `get_game_for_restore` once the documents are fetched; `now` stands for
   * the clock read when no creation time was stored. A player count of 0
   * raises `ZeroDivisionError`.
   */
  function RestoreGame(game: StoredGame, actions: seq<Action>, createdAt: Option<string>, finishedAt: Option<string>,
    now: string): (r: Result<State.Game, string>)
  {
    if game.playerCount == 0 then Err("ZeroDivisionError")
    else
      var history := RestoreVoteHistory(ProposalsOf(actions));
      var quests := RestoreQuests(game, actions);
      var round := if quests != [] then |quests| + 1 else 1;
      var winner := if TruthyString(game.winner) then TeamFromName(game.winner.value) else None;
      var created := if TruthyString(createdAt) then createdAt.value else now;
      Ok(State.NewState(game.id, game.playerCount, created).(
        status := StatusFromName(game.status).GetOr(State.Waiting),
        phase := PhaseFromName(game.phase).GetOr(State.RoleAssignment),
        players := seq(|game.players|, i requires 0 <= i < |game.players| =>
          RestorePlayer(SortBy(game.players, Seat)[i])),
        currentRound := round,
        currentLeader := PyMod(|history|, game.playerCount),
        voteAttempt := VotesInRound(history, round) + 1,
        questResults := quests,
        voteHistory := history,
        discussionHistory := RestoreDiscussion(actions, game.players),
        winner := winner,
        finishedAt := finishedAt))
  }

  /**
   * The counters a restored game resumes from: round = quests + 1; leader =
   * number of vote groups mod the player count (a heuristic: one rotation
   * per vote); attempt = 1 + the votes of the current round.
   */
  lemma RestoreCounters(game: StoredGame, actions: seq<Action>, createdAt: Option<string>, finishedAt: Option<string>,
    now: string)
    ensures game.playerCount == 0 <==> RestoreGame(game, actions, createdAt, finishedAt, now).Err?
    ensures RestoreGame(game, actions, createdAt, finishedAt, now).Ok? ==>
      var g := RestoreGame(game, actions, createdAt, finishedAt, now).value;
      && g.currentRound == |g.questResults| + 1
      && g.currentLeader == PyMod(|GroupsOf(actions, TeamVoteKey)|, game.playerCount)
      && (game.playerCount > 0 ==> 0 <= g.currentLeader < game.playerCount)
      && g.voteAttempt == 1 + VotesInRound(g.voteHistory, g.currentRound)
      && |g.players| == |game.players|
      && g.proposedTeam == [] && g.currentVotes == [] && g.currentQuestVotes == []
  {
    ProposalVotesAgree(actions);
    assert |VotesOnly(ProposalsOf(actions))| == |ProposalsOf(actions)| by {
      VotesOnlyLength(ProposalsOf(actions));
    }
  }

  lemma {:induction false} VotesOnlyLength(d: Dict<(int, int), Proposal>)
    ensures |VotesOnly(d)| == |d|
  {
    if d != [] {
      VotesOnlyLength(d[1..]);
    }
  }

  /** The restored vote history holds the same votes and the same approvals as the response's. */
  lemma RestoreVotesAgree(actions: seq<Action>, i: int)
    requires 0 <= i < |RestoreVoteHistory(ProposalsOf(actions))|
    ensures |VoteHistory(GroupsOf(actions, TeamVoteKey))| == |RestoreVoteHistory(ProposalsOf(actions))|
    ensures var v := RestoreVoteHistory(ProposalsOf(actions))[i];
      var w := VoteHistory(GroupsOf(actions, TeamVoteKey))[i];
      v.round == w.round && v.attempt == w.attempt && v.votes == w.votes && v.approved == w.approved
  {
    ProposalVotesAgree(actions);
    VotesOnlyLength(ProposalsOf(actions));
    VotesOnlyIndex(ProposalsOf(actions), i);
  }

  lemma {:induction false} VotesOnlyIndex(d: Dict<(int, int), Proposal>, i: int)
    requires 0 <= i < |d|
    ensures |VotesOnly(d)| == |d| && VotesOnly(d)[i] == (d[i].0, d[i].1.votes)
  {
    VotesOnlyLength(d);
    if i > 0 {
      VotesOnlyIndex(d[1..], i - 1);
    }
  }

  // ----- win statistics -----

  /** Games played and games won, per key. */
  datatype WinCount = WinCount(games: nat, wins: nat)

  /** The statistics' team: "good" for merlin and loyal_servant, "evil" for any other role, a missing one included. */
  function StatsTeam(role: Option<string>): string {
    if role == Some("merlin") || role == Some("loyal_servant") then "good" else "evil"
  }

  /** For the four roles the game deals, the statistics' team is the role's team. */
  lemma StatsTeamAgrees(r: Roles.Role)
    ensures StatsTeam(Some(Roles.Name(r))) == Roles.TeamName(Roles.GetTeam(r))
  {}

  /** `get_model_stats` counts non-human players with a model name, under that name. */
  function ModelKey(p: StoredPlayer): Option<string> {
    if TruthyString(p.modelName) && !p.isHuman then p.modelName else None
  }

  /** `get_role_stats` counts every player with a role, under that role. */
  function RoleKey(p: StoredPlayer): Option<string> {
    if TruthyString(p.role) then p.role else None
  }

  /** `get_model_role_stats` counts non-human players with both, under the pair. */
  function ModelRoleKey(p: StoredPlayer): Option<(string, string)> {
    if TruthyString(p.modelName) && TruthyString(p.role) && !p.isHuman then Some((p.modelName.value, p.role.value)) else None
  }

  predicate Won(winner: Option<string>, p: StoredPlayer) { winner == Some(StatsTeam(p.role)) }

  function Tallied(c: WinCount, won: bool): WinCount { WinCount(c.games + 1, if won then c.wins + 1 else c.wins) }

  /** One player counted: a game for its key, and a win when the game's winner is the player's team. */
  function CountPlayer<K(==)>(stats: Dict<K, WinCount>, winner: Option<string>, p: StoredPlayer,
    keyOf: StoredPlayer -> Option<K>): Dict<K, WinCount>
  {
    match keyOf(p)
    case None => stats
    case Some(key) =>
      Set(stats, key, Tallied(Get(stats, key).GetOr(WinCount(0, 0)), Won(winner, p)))
  }

  /** `CountPlayers` takes one more player as `CountPlayer` does. */
  lemma CountPlayersStep<K>(stats: Dict<K, WinCount>, winner: Option<string>, players: seq<StoredPlayer>,
    keyOf: StoredPlayer -> Option<K>)
    requires players != []
    ensures CountPlayers(stats, winner, players, keyOf) ==
      CountPlayer(CountPlayers(stats, winner, players[..|players| - 1], keyOf), winner, players[|players| - 1], keyOf)
  {}

  function CountPlayers<K(==)>(stats: Dict<K, WinCount>, winner: Option<string>, players: seq<StoredPlayer>,
    keyOf: StoredPlayer -> Option<K>): Dict<K, WinCount>
    decreases |players|
  {
    if players == [] then stats
    else CountPlayer(CountPlayers(stats, winner, players[..|players| - 1], keyOf), winner, players[|players| - 1], keyOf)
  }

  /** The statistics over the finished games (the store's query keeps only those). */
  function CountGames<K(==)>(games: seq<StoredGame>, keyOf: StoredPlayer -> Option<K>): Dict<K, WinCount>
    decreases |games|
  {
    if games == [] then []
    else
      var stats := CountGames(games[..|games| - 1], keyOf);
      var game := games[|games| - 1];
      if game.status == "finished" then CountPlayers(stats, game.winner, game.players, keyOf) else stats
  }

  /** The counting loops of `get_model_stats`, `get_role_stats` and `get_model_role_stats`. */
  method WinStats<K(==)>(games: seq<StoredGame>, keyOf: StoredPlayer -> Option<K>) returns (stats: Dict<K, WinCount>)
    ensures stats == CountGames(games, keyOf)
  {
    stats := [];
    for i := 0 to |games|
      invariant stats == CountGames(games[..i], keyOf)
    {
      assert games[..i + 1][..i] == games[..i];
      var game := games[i];
      if game.status == "finished" {
        stats := CountGamePlayers(stats, game.winner, game.players, keyOf);
      }
    }
    assert games[..|games|] == games;
  }

  /** The inner loop: the players of one finished game. */
  method CountGamePlayers<K(==)>(stats0: Dict<K, WinCount>, winner: Option<string>, players: seq<StoredPlayer>,
    keyOf: StoredPlayer -> Option<K>) returns (stats: Dict<K, WinCount>)
    ensures stats == CountPlayers(stats0, winner, players, keyOf)
  {
    stats := stats0;
    for j := 0 to |players|
      invariant stats == CountPlayers(stats0, winner, players[..j], keyOf)
    {
      assert players[..j + 1][..j] == players[..j];
      CountPlayersStep(stats0, winner, players[..j + 1], keyOf);
      stats := CountOne(stats, winner, players[j], keyOf);
    }
    assert players[..|players|] == players;
  }

  /** The loop body: one more game for the player's key, and one more win when its team won. */
  method CountOne<K(==)>(stats0: Dict<K, WinCount>, winner: Option<string>, p: StoredPlayer,
    keyOf: StoredPlayer -> Option<K>) returns (stats: Dict<K, WinCount>)
    ensures stats == CountPlayer(stats0, winner, p, keyOf)
  {
    stats := stats0;
    var key := keyOf(p);
    if key.Some? {
      var c := WinCount(0, 0);
      if Contains(stats, key.value) {
        c := Get(stats, key.value).value;
      }
      ghost var tally := Tallied(Get(stats0, key.value).GetOr(WinCount(0, 0)), Won(winner, p));
      c := c.(games := c.games + 1);
      if Won(winner, p) {
        c := c.(wins := c.wins + 1);
      }
      assert c == tally;
      stats := Set(stats, key.value, c);
    }
  }

  ghost predicate WinsBounded<K>(stats: Dict<K, WinCount>) {
    forall e :: e in stats ==> e.1.wins <= e.1.games
  }

  lemma {:induction false} CountPlayersBounded<K>(stats: Dict<K, WinCount>, winner: Option<string>, players: seq<StoredPlayer>,
    keyOf: StoredPlayer -> Option<K>)
    requires WinsBounded(stats)
    ensures WinsBounded(CountPlayers(stats, winner, players, keyOf))
    decreases |players|
  {
    if players != [] {
      var before := CountPlayers(stats, winner, players[..|players| - 1], keyOf);
      var p := players[|players| - 1];
      CountPlayersStep(stats, winner, players, keyOf);
      CountPlayersBounded(stats, winner, players[..|players| - 1], keyOf);
      if keyOf(p).Some? {
        var key := keyOf(p).value;
        SetEntries(before, key, Tallied(Get(before, key).GetOr(WinCount(0, 0)), Won(winner, p)));
      }
    }
  }

  /** No key has more wins than games. */
  lemma {:induction false} WinsAtMostGames<K>(games: seq<StoredGame>, keyOf: StoredPlayer -> Option<K>)
    ensures forall e :: e in CountGames(games, keyOf) ==> e.1.wins <= e.1.games
    decreases |games|
  {
    if games != [] {
      var game := games[|games| - 1];
      WinsAtMostGames(games[..|games| - 1], keyOf);
      if game.status == "finished" {
        CountPlayersBounded(CountGames(games[..|games| - 1], keyOf), game.winner, game.players, keyOf);
      }
    }
  }

  function TotalGames<K(==)>(stats: Dict<K, WinCount>): nat {
    if stats == [] then 0 else stats[0].1.games + TotalGames(stats[1..])
  }

  lemma {:induction false} TotalGamesSet<K>(d: Dict<K, WinCount>, k: K, v: WinCount)
    ensures TotalGames(Set(d, k, v)) + Get(d, k).GetOr(WinCount(0, 0)).games == TotalGames(d) + v.games
  {
    if d != [] && d[0].0 != k {
      var r := Set(d, k, v);
      assert r[0] == d[0] && r[1..] == Set(d[1..], k, v);
      TotalGamesSet(d[1..], k, v);
    }
  }

  /** Players a statistic counts. */
  function Counted<K>(players: seq<StoredPlayer>, keyOf: StoredPlayer -> Option<K>): nat
    decreases |players|
  {
    if players == [] then 0
    else Counted(players[..|players| - 1], keyOf) + (if keyOf(players[|players| - 1]).Some? then 1 else 0)
  }

  /** Counted players over the finished games. */
  function Entrants<K>(games: seq<StoredGame>, keyOf: StoredPlayer -> Option<K>): nat
    decreases |games|
  {
    if games == [] then 0
    else
      var game := games[|games| - 1];
      Entrants(games[..|games| - 1], keyOf) + (if game.status == "finished" then Counted(game.players, keyOf) else 0)
  }

  lemma {:induction false} CountPlayersTotal<K>(stats: Dict<K, WinCount>, winner: Option<string>, players: seq<StoredPlayer>,
    keyOf: StoredPlayer -> Option<K>)
    ensures TotalGames(CountPlayers(stats, winner, players, keyOf)) == TotalGames(stats) + Counted(players, keyOf)
    decreases |players|
  {
    if players != [] {
      var before := CountPlayers(stats, winner, players[..|players| - 1], keyOf);
      var p := players[|players| - 1];
      CountPlayersStep(stats, winner, players, keyOf);
      CountPlayersTotal(stats, winner, players[..|players| - 1], keyOf);
      if keyOf(p).Some? {
        var key := keyOf(p).value;
        TotalGamesSet(before, key, Tallied(Get(before, key).GetOr(WinCount(0, 0)), Won(winner, p)));
      }
    }
  }

  /** Every counted player of every finished game adds exactly one game to exactly one key. */
  lemma {:induction false} GamesPlayedTotal<K>(games: seq<StoredGame>, keyOf: StoredPlayer -> Option<K>)
    ensures TotalGames(CountGames(games, keyOf)) == Entrants(games, keyOf)
    decreases |games|
  {
    if games != [] {
      var game := games[|games| - 1];
      GamesPlayedTotal(games[..|games| - 1], keyOf);
      if game.status == "finished" {
        CountPlayersTotal(CountGames(games[..|games| - 1], keyOf), game.winner, game.players, keyOf);
      }
    }
  }

  /** The players of `players` whose key is `k`. */
  function PlayedAs<K(==)>(players: seq<StoredPlayer>, keyOf: StoredPlayer -> Option<K>, k: K): nat
    decreases |players|
  {
    if players == [] then 0
    else PlayedAs(players[..|players| - 1], keyOf, k) + (if keyOf(players[|players| - 1]) == Some(k) then 1 else 0)
  }

  /** The players of `players` whose key is `k` and whose team is the winner. */
  function WonAs<K(==)>(winner: Option<string>, players: seq<StoredPlayer>, keyOf: StoredPlayer -> Option<K>, k: K): nat
    decreases |players|
  {
    if players == [] then 0
    else
      var p := players[|players| - 1];
      WonAs(winner, players[..|players| - 1], keyOf, k) + (if keyOf(p) == Some(k) && Won(winner, p) then 1 else 0)
  }

  /** Over the finished games: the players with key `k`, and those of them on the winning team. */
  function TallyAs<K(==)>(games: seq<StoredGame>, keyOf: StoredPlayer -> Option<K>, k: K): WinCount
    decreases |games|
  {
    if games == [] then WinCount(0, 0)
    else
      var before := TallyAs(games[..|games| - 1], keyOf, k);
      var game := games[|games| - 1];
      if game.status == "finished"
      then WinCount(before.games + PlayedAs(game.players, keyOf, k), before.wins + WonAs(game.winner, game.players, keyOf, k))
      else before
  }

  /** One counted player adds to its own key only. */
  lemma CountPlayerGet<K>(stats: Dict<K, WinCount>, winner: Option<string>, p: StoredPlayer,
    keyOf: StoredPlayer -> Option<K>, k: K)
    ensures var c := Get(stats, k).GetOr(WinCount(0, 0));
      Get(CountPlayer(stats, winner, p, keyOf), k).GetOr(WinCount(0, 0)) ==
      if keyOf(p) == Some(k) then Tallied(c, Won(winner, p)) else c
  {
    if keyOf(p).Some? {
      var key := keyOf(p).value;
      var v := Tallied(Get(stats, key).GetOr(WinCount(0, 0)), Won(winner, p));
      if key == k {
        GetSetSame(stats, key, v);
      } else {
        GetSetOther(stats, key, v, k);
      }
    }
  }

  lemma {:induction false} CountPlayersGet<K>(stats: Dict<K, WinCount>, winner: Option<string>, players: seq<StoredPlayer>,
    keyOf: StoredPlayer -> Option<K>, k: K)
    ensures var c := Get(stats, k).GetOr(WinCount(0, 0));
      Get(CountPlayers(stats, winner, players, keyOf), k).GetOr(WinCount(0, 0)) ==
      WinCount(c.games + PlayedAs(players, keyOf, k), c.wins + WonAs(winner, players, keyOf, k))
    decreases |players|
  {
    if players != [] {
      var before := CountPlayers(stats, winner, players[..|players| - 1], keyOf);
      CountPlayersStep(stats, winner, players, keyOf);
      CountPlayersGet(stats, winner, players[..|players| - 1], keyOf, k);
      CountPlayerGet(before, winner, players[|players| - 1], keyOf, k);
    }
  }

  /**
   * Per key, the statistics count every player with that key in a finished
   * game as one game, and as one win when the game's winner is the player's
   * team; a key no such player has is absent.
   */
  lemma {:induction false} StatsPerKey<K>(games: seq<StoredGame>, keyOf: StoredPlayer -> Option<K>, k: K)
    ensures Get(CountGames(games, keyOf), k).GetOr(WinCount(0, 0)) == TallyAs(games, keyOf, k)
    decreases |games|
  {
    if games != [] {
      var game := games[|games| - 1];
      StatsPerKey(games[..|games| - 1], keyOf, k);
      if game.status == "finished" {
        CountPlayersGet(CountGames(games[..|games| - 1], keyOf), game.winner, game.players, keyOf, k);
      }
    }
  }
}
