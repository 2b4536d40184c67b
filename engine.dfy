/**
 * The game engine: every operation updates the fields of its `GameState`
 * in place, step by step, and is proved to leave exactly the state that
 * the matching function of module `Transitions` describes.
 */
module Engine {
  import opened Options
  import opened Roles
  import opened Rules
  import opened PyDicts
  import opened State
  import opened Transitions

  class GameEngine {
    var state: GameState

    ghost predicate Valid()
      reads this, state
    {
      ValidGame(state.Value())
    }

    /**
     * `create_game`: a fresh state with one player per configuration, in the
     * order given. The state is valid when the configurations number exactly
     * `n` and `n` is a supported player count, as the callers ensure.
     */
    constructor CreateGame(n: int, configs: seq<PlayerConfig>, id: string, createdAt: string)
      ensures fresh(state)
      ensures state.Value() == Transitions.CreateGame(n, configs, id, createdAt)
      ensures 5 <= n <= 10 && |configs| == n ==> Valid()
    {
      var s := new GameState(id, n, createdAt);
      var i := 0;
      while i < |configs|
        invariant 0 <= i <= |configs|
        invariant s.Value() == NewState(id, n, createdAt).(players := seq(i, k requires 0 <= k < i => PlayerOf(configs[k])))
        modifies s
      {
        s.players := s.players + [PlayerOf(configs[i])];
        i := i + 1;
      }
      state := s;
    }

    /** `start_game`: roles are dealt from `shuffled`, the caller's shuffle of the rule table's roles. */
    method StartGame(shuffled: seq<Role>)
      requires Valid()
      requires multiset(shuffled) == multiset(RolesOf(GetRules(state.playerCount).value))
      modifies state
      ensures Valid()
      ensures state.Value() == Transitions.StartGame(old(state.Value()), shuffled)
    {
      state.status := InProgress;
      state.phase := RoleAssignment;
      state.AssignRoles(shuffled);
      state.phase := NightPhase;
    }

    /** `_check_human_action`: records whether, and for what, the game now waits on a human. */
    method CheckHumanAction()
      requires 0 <= state.currentLeader < |state.players|
      modifies state
      ensures state.Value() == WithHumanCheck(old(state.Value()))
    {
      var action := PendingHumanAction();
      state.waitingForHuman := action.Some?;
      state.humanActionType := action;
    }

    /** The checks of `_check_human_action`, phase by phase: the action a human must take, if any. */
    method PendingHumanAction() returns (action: Option<string>)
      requires 0 <= state.currentLeader < |state.players|
      ensures action == HumanAction(state.Value())
    {
      action := None;
      if state.phase == TeamSelection {
        var leader := GetLeader(state.Value());
        if leader.isHuman {
          action := Some("team_selection");
        }
      } else if state.phase == Discussion {
        if state.discussionSpeakersCount < state.playerCount {
          var checkSeat := state.currentDiscussionSeat;
          var current := GetPlayer(state.players, checkSeat);
          if current.Some? && current.value.isHuman {
            action := if checkSeat == state.currentLeader then Some("leader_discussion") else Some("discussion");
          }
        }
      } else if state.phase == TeamVote {
        var waiting := HumanVoterPending();
        if waiting {
          action := Some("vote");
        }
      } else if state.phase == QuestExecution {
        var waiting := HumanQuesterPending();
        if waiting {
          action := Some("quest");
        }
      } else if state.phase == AssassinationDiscussion {
        var waiting := HumanEvilSpeakerNext();
        if waiting {
          action := Some("assassination_discussion");
        }
      } else if state.phase == Assassination {
        var waiting := HumanAssassin();
        if waiting {
          action := Some("assassinate");
        }
      }
    }

    /** During the team vote: a human player has not voted yet. */
    method HumanVoterPending() returns (waiting: bool)
      ensures waiting == HumanYetToVote(state.Value())
    {
      var i := 0;
      while i < |state.players|
        invariant 0 <= i <= |state.players|
        invariant forall k :: 0 <= k < i ==> !(state.players[k].isHuman && !Contains(state.currentVotes, state.players[k].seat))
      {
        var p := state.players[i];
        if p.isHuman && !Contains(state.currentVotes, p.seat) {
          return true;
        }
        i := i + 1;
      }
      return false;
    }

    /** During the quest: a human member of the team has not played a card yet. */
    method HumanQuesterPending() returns (waiting: bool)
      ensures waiting == HumanYetToQuest(state.Value())
    {
      var i := 0;
      while i < |state.proposedTeam|
        invariant 0 <= i <= |state.proposedTeam|
        invariant forall k :: 0 <= k < i ==>
          !(IsHumanSeat(state.players, state.proposedTeam[k]) && !Contains(state.currentQuestVotes, state.proposedTeam[k]))
      {
        var seat := state.proposedTeam[i];
        var player := GetPlayer(state.players, seat);
        if player.Some? && player.value.isHuman && !Contains(state.currentQuestVotes, seat) {
          return true;
        }
        i := i + 1;
      }
      return false;
    }

    /** Before the assassination: the first evil seat yet to speak is a human's. */
    method HumanEvilSpeakerNext() returns (waiting: bool)
      ensures waiting <==> NextEvilSpeaker(state.Value()).Some? && IsHumanSeat(state.players, NextEvilSpeaker(state.Value()).value)
    {
      var evilSeats := EvilSeats(state.players);
      var i := 0;
      while i < |evilSeats|
        invariant 0 <= i <= |evilSeats|
        invariant forall k :: 0 <= k < i ==> evilSeats[k] in state.assassinationDiscussionSpeakers
      {
        var seat := evilSeats[i];
        if seat !in state.assassinationDiscussionSpeakers {
          assert FirstNotIn(evilSeats, state.assassinationDiscussionSpeakers) == Some(i);
          var player := GetPlayer(state.players, seat);
          return player.Some? && player.value.isHuman;
        }
        i := i + 1;
      }
      return false;
    }

    /** During the assassination: the first player holding the Assassin role is human. */
    method HumanAssassin() returns (waiting: bool)
      ensures waiting <==> FirstAssassin(state.players).Some? && state.players[FirstAssassin(state.players).value].isHuman
    {
      var i := 0;
      while i < |state.players|
        invariant 0 <= i <= |state.players|
        invariant forall k :: 0 <= k < i ==> state.players[k].role != Some(Assassin)
      {
        if state.players[i].role == Some(Assassin) {
          assert FirstAssassin(state.players) == Some(i);
          return state.players[i].isHuman;
        }
        i := i + 1;
      }
      return false;
    }

    /** `proceed_to_discussion`. */
    method ProceedToDiscussion()
      requires Valid()
      modifies state
      ensures Valid()
      ensures state.Value() == Transitions.ProceedToDiscussion(old(state.Value()))
    {
      state.phase := Discussion;
      RestartDiscussion(state.currentLeader);
      state.proposedTeam := [];
      CheckHumanAction();
    }

    /** The discussion restarts at `seat`: nobody has spoken and it is not complete. */
    method RestartDiscussion(seat: int)
      modifies state
      ensures state.Value() == Transitions.RestartDiscussion(old(state.Value()), seat)
    {
      state.currentDiscussionSeat := seat;
      state.discussionSpeakersCount := 0;
      state.discussionComplete := false;
    }

    /** `proceed_to_team_selection`. */
    method ProceedToTeamSelection()
      requires Valid()
      modifies state
      ensures Valid()
      ensures state.Value() == Transitions.ProceedToTeamSelection(old(state.Value()))
    {
      state.phase := TeamSelection;
      CheckHumanAction();
    }

    /** `select_team`: returns whether the team was accepted. */
    method SelectTeam(team: seq<int>) returns (ok: bool)
      requires Valid()
      modifies state
      ensures Valid()
      ensures (state.Value(), ok) == Transitions.SelectTeam(old(state.Value()), team)
    {
      ConfigWellFormed(state.playerCount);
      var requiredSize := GetRules(state.playerCount).value.questTeamSizes[state.currentRound - 1];
      assert requiredSize == QuestTeamSize(state.Value());
      if |team| != requiredSize {
        return false;
      }
      var allSeated := AllSeated(team);
      if !allSeated {
        return false;
      }
      SetProposal(team);
      CheckHumanAction();
      return true;
    }

    method SetProposal(team: seq<int>)
      modifies state
      ensures state.Value() == old(state.Value()).(proposedTeam := team, phase := TeamVote, currentVotes := [])
    {
      state.proposedTeam := team;
      state.phase := TeamVote;
      state.currentVotes := [];
    }

    /** The seat check of `select_team`: every seat of `team` is among the players' seats. */
    method AllSeated(team: seq<int>) returns (ok: bool)
      ensures ok <==> forall i :: 0 <= i < |team| ==> HasSeat(state.players, team[i])
    {
      var validSeats := set i | 0 <= i < |state.players| :: state.players[i].seat;
      forall i | 0 <= i < |team|
        ensures team[i] in validSeats <==> HasSeat(state.players, team[i])
      {
        if HasSeat(state.players, team[i]) {
          var j :| 0 <= j < |state.players| && state.players[j].seat == team[i];
          assert state.players[j].seat in validSeats;
        }
      }
      ok := forall i :: 0 <= i < |team| ==> team[i] in validSeats;
    }

    /** `add_discussion`. */
    method AddDiscussion(seat: int, content: string, now: string)
      requires Valid()
      modifies state
      ensures Valid()
      ensures state.Value() == Transitions.AddDiscussion(old(state.Value()), seat, content, now)
    {
      var player := GetPlayer(state.players, seat);
      if player.Some? {
        var message := DiscussionMessage(seat, player.value.name, content, state.currentRound, state.voteAttempt, now);
        state.discussionHistory := state.discussionHistory + [message];
      }
    }

    /**
     * `next_discussion_speaker`. The source's `while` returns during its
     * first iteration, so it is the `if` written here.
     */
    method NextDiscussionSpeaker() returns (seat: Option<int>)
      requires Valid()
      modifies state
      ensures Valid()
      ensures (state.Value(), seat) == Transitions.NextDiscussionSpeaker(old(state.Value()))
    {
      if state.discussionSpeakersCount < state.playerCount {
        seat := CallSpeaker();
      } else {
        CloseDiscussion();
        seat := None;
      }
    }

    /** The current discussion seat speaks and is returned; the next seat round the table is up. */
    method CallSpeaker() returns (seat: Option<int>)
      requires state.playerCount > 0
      modifies state
      ensures seat == Some(old(state.currentDiscussionSeat))
      ensures state.Value() == Transitions.CallSpeaker(old(state.Value()))
    {
      var s := state.currentDiscussionSeat;
      state.currentDiscussionSeat := (state.currentDiscussionSeat + 1) % state.playerCount;
      state.discussionSpeakersCount := state.discussionSpeakersCount + 1;
      state.currentSpeakerSeat := Some(s);
      return Some(s);
    }

    /** Everybody has spoken: the discussion is complete and nobody holds the floor. */
    method CloseDiscussion()
      modifies state
      ensures state.Value() == Transitions.CloseDiscussion(old(state.Value()))
    {
      state.discussionComplete := true;
      state.currentSpeakerSeat := None;
    }

    /** `proceed_to_vote`. */
    method ProceedToVote()
      requires Valid()
      modifies state
      ensures Valid()
      ensures state.Value() == Transitions.ProceedToVote(old(state.Value()))
    {
      state.phase := TeamVote;
      state.currentVotes := [];
      CheckHumanAction();
    }

    /** `cast_vote`. */
    method CastVote(seat: int, approve: bool)
      requires Valid()
      modifies state
      ensures Valid()
      ensures state.Value() == Transitions.CastVote(old(state.Value()), seat, approve)
    {
      state.currentVotes := Set(state.currentVotes, seat, approve);
    }

    /** `resolve_vote`: returns whether the team was approved. */
    method ResolveVote(now: string) returns (approved: bool)
      requires Valid()
      modifies state
      ensures Valid()
      ensures (state.Value(), approved) == Transitions.ResolveVote(old(state.Value()), now)
    {
      ghost var g := state.Value();
      var approvals := Approvals(state.currentVotes);
      approved := approvals > state.playerCount / 2;
      var result := VoteResult(state.currentRound, state.voteAttempt, state.currentVotes, approved,
        state.proposedTeam, state.currentLeader);
      state.voteHistory := state.voteHistory + [result];
      assert state.Value() == g.(voteHistory := g.voteHistory + [result]);
      ConcludeVote(approved, now);
    }

    /** The branches of `resolve_vote` that follow the recording of the vote. */
    method ConcludeVote(approved: bool, now: string)
      requires Valid()
      modifies state
      ensures state.Value() == Transitions.ConcludeVote(old(state.Value()), approved, now)
    {
      if approved {
        OpenQuest();
      } else if state.voteAttempt >= 5 {
        Finish(Evil, now);
      } else {
        RetryUnderNextLeader();
      }
    }

    /** A rejected team that was not the fifth: the next attempt, under the next leader. */
    method RetryUnderNextLeader()
      requires 0 < state.playerCount == |state.players|
      modifies state
      ensures state.Value() == PassLead(old(state.Value()).(voteAttempt := old(state.voteAttempt) + 1))
    {
      state.voteAttempt := state.voteAttempt + 1;
      PassLeadToNextSeat();
    }

    /** The approved team goes on the quest. */
    method OpenQuest()
      requires 0 <= state.currentLeader < |state.players|
      modifies state
      ensures state.Value() == Transitions.OpenQuest(old(state.Value()))
    {
      SetQuestPhase();
      CheckHumanAction();
    }

    method SetQuestPhase()
      modifies state
      ensures state.Value() == old(state.Value()).(phase := QuestExecution, currentQuestVotes := [])
    {
      state.phase := QuestExecution;
      state.currentQuestVotes := [];
    }

    /** The steps `resolve_vote` and `resolve_quest` share when the game goes on. */
    method PassLeadToNextSeat()
      requires 0 < state.playerCount == |state.players|
      modifies state
      ensures state.Value() == PassLead(old(state.Value()))
    {
      HandLeadOn();
      CheckHumanAction();
    }

    /** The next seat leads, nobody is proposed and the discussion restarts at the new leader. */
    method HandLeadOn()
      requires state.playerCount > 0
      modifies state
      ensures var leader := (old(state.currentLeader) + 1) % old(state.playerCount);
        state.Value() == Transitions.RestartDiscussion(old(state.Value()).(currentLeader := leader, proposedTeam := []), leader).(phase := Discussion)
    {
      state.NextLeader();
      state.proposedTeam := [];
      RestartDiscussion(state.currentLeader);
      state.phase := Discussion;
    }

    /** `cast_quest_vote`. */
    method CastQuestVote(seat: int, success: bool)
      requires Valid()
      modifies state
      ensures Valid()
      ensures state.Value() == Transitions.CastQuestVote(old(state.Value()), seat, success)
    {
      state.currentQuestVotes := Set(state.currentQuestVotes, seat, success);
    }

    /** `resolve_quest`: returns whether the quest succeeded. */
    method ResolveQuest(now: string) returns (success: bool)
      requires Valid()
      modifies state
      ensures Valid()
      ensures (state.Value(), success) == Transitions.ResolveQuest(old(state.Value()), now)
    {
      ghost var g := state.Value();
      var failVotes := FailVotes(state.currentQuestVotes);
      var failsRequired := if RequiresTwoFails(state.playerCount, state.currentRound).value then 2 else 1;
      assert failsRequired == FailsRequired(g);
      success := failVotes < failsRequired;
      var result := QuestResult(state.currentRound, |state.proposedTeam|, Some(success), failVotes,
        state.proposedTeam, state.currentQuestVotes);
      state.questResults := state.questResults + [result];
      assert state.Value() == g.(questResults := g.questResults + [result]);
      AllDecidedAppend(g.questResults, result);
      ConcludeQuest(now);
    }

    /** The branches of `resolve_quest` that follow the recording of the result. */
    method ConcludeQuest(now: string)
      requires Valid() && state.currentRound <= |state.questResults|
      modifies state
      ensures state.Value() == Transitions.ConcludeQuest(old(state.Value()), now)
    {
      if CountOutcome(state.questResults, true) >= 3 {
        OpenAssassinationDiscussion();
      } else if CountOutcome(state.questResults, false) >= 3 {
        Finish(Evil, now);
      } else {
        StartNextRound();
      }
    }

    /** Three quests succeeded: the evil team discusses before the assassination. */
    method OpenAssassinationDiscussion()
      requires 0 <= state.currentLeader < |state.players|
      modifies state
      ensures state.Value() == WithHumanCheck(old(state.Value()).(phase := AssassinationDiscussion,
        assassinationDiscussionHistory := [], assassinationDiscussionSpeakers := [],
        assassinationDiscussionComplete := false))
    {
      SetAssassinationDiscussion();
      CheckHumanAction();
    }

    method SetAssassinationDiscussion()
      modifies state
      ensures state.Value() == old(state.Value()).(phase := AssassinationDiscussion,
        assassinationDiscussionHistory := [], assassinationDiscussionSpeakers := [],
        assassinationDiscussionComplete := false)
    {
      state.phase := AssassinationDiscussion;
      state.assassinationDiscussionHistory := [];
      state.assassinationDiscussionSpeakers := [];
      state.assassinationDiscussionComplete := false;
    }

    /** Neither side has three quests: the next round starts under the next leader. */
    method StartNextRound()
      requires 0 < state.playerCount == |state.players|
      modifies state
      ensures state.Value() == PassLead(old(state.Value()).(currentRound := old(state.currentRound) + 1, voteAttempt := 1))
    {
      state.currentRound := state.currentRound + 1;
      state.voteAttempt := 1;
      PassLeadToNextSeat();
    }

    /** `add_assassination_discussion`. */
    method AddAssassinationDiscussion(seat: int, content: string, now: string)
      requires Valid()
      modifies state
      ensures Valid()
      ensures state.Value() == Transitions.AddAssassinationDiscussion(old(state.Value()), seat, content, now)
    {
      var player := GetPlayer(state.players, seat);
      if player.Some? {
        var message := DiscussionMessage(seat, player.value.name, content, state.currentRound, 1, now);
        state.assassinationDiscussionHistory := state.assassinationDiscussionHistory + [message];
        if seat !in state.assassinationDiscussionSpeakers {
          state.assassinationDiscussionSpeakers := state.assassinationDiscussionSpeakers + [seat];
        }
      }
    }

    /** `next_assassination_discussion_speaker`. */
    method NextAssassinationDiscussionSpeaker() returns (seat: Option<int>)
      requires Valid()
      modifies state
      ensures Valid()
      ensures (state.Value(), seat) == Transitions.NextAssassinationDiscussionSpeaker(old(state.Value()))
    {
      var evilSeats := EvilSeats(state.players);
      var i := 0;
      while i < |evilSeats|
        invariant 0 <= i <= |evilSeats|
        invariant forall k :: 0 <= k < i ==> evilSeats[k] in state.assassinationDiscussionSpeakers
      {
        if evilSeats[i] !in state.assassinationDiscussionSpeakers {
          assert FirstNotIn(evilSeats, state.assassinationDiscussionSpeakers) == Some(i);
          return Some(evilSeats[i]);
        }
        i := i + 1;
      }
      state.assassinationDiscussionComplete := true;
      return None;
    }

    /** `proceed_to_assassination`. */
    method ProceedToAssassination()
      requires Valid()
      modifies state
      ensures Valid()
      ensures state.Value() == Transitions.ProceedToAssassination(old(state.Value()))
    {
      state.phase := Assassination;
      CheckHumanAction();
    }

    /** `assassinate`: returns whether Merlin was hit. */
    method Assassinate(targetSeat: int, now: string) returns (hit: bool)
      requires Valid()
      modifies state
      ensures Valid()
      ensures (state.Value(), hit) == Transitions.Assassinate(old(state.Value()), targetSeat, now)
    {
      var target := GetPlayer(state.players, targetSeat);
      if target.None? {
        return false;
      }
      state.assassinatedPlayer := Some(targetSeat);
      if target.value.role == Some(Merlin) {
        Finish(Evil, now);
        return true;
      } else {
        Finish(Good, now);
        return false;
      }
    }

    /** `_evil_wins` and `_good_wins`: `winner` wins and the game is over at time `now`. */
    method Finish(winner: Team, now: string)
      modifies state
      ensures state.Value() == FinishWith(old(state.Value()), winner, now)
    {
      state.winner := Some(winner);
      state.status := Finished;
      state.phase := GameOver;
      state.finishedAt := Some(now);
    }

    /** `get_assassin_seat`: the seat of the first player holding the Assassin role. */
    method GetAssassinSeat() returns (seat: Option<int>)
      ensures seat.None? <==> forall i :: 0 <= i < |state.players| ==> state.players[i].role != Some(Assassin)
      ensures seat.Some? ==> exists i :: (0 <= i < |state.players| && state.players[i].role == Some(Assassin)
        && state.players[i].seat == seat.value
        && forall j :: 0 <= j < i ==> state.players[j].role != Some(Assassin))
    {
      var i := 0;
      while i < |state.players|
        invariant 0 <= i <= |state.players|
        invariant forall j :: 0 <= j < i ==> state.players[j].role != Some(Assassin)
      {
        if state.players[i].role == Some(Assassin) {
          return Some(state.players[i].seat);
        }
        i := i + 1;
      }
      return None;
    }

    /** `get_quest_team_size`: the size the rule table gives the current quest. */
    method GetQuestTeamSize() returns (size: int)
      requires Valid()
      ensures Rules.GetQuestTeamSize(state.playerCount, state.currentRound) == Ok(size)
      ensures 1 <= size <= state.playerCount
    {
      ConfigWellFormed(state.playerCount);
      size := GetRules(state.playerCount).value.questTeamSizes[state.currentRound - 1];
    }
  }
}
