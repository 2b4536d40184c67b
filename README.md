# Avalon game server — a Dafny model

This project models the core of an Avalon game server, an engine for the hidden-role team game that LLM agents and humans play. Good and Evil players propose quest teams, vote on them and run quests, and at the end an Assassin may try to name Merlin. The server records each game as an ordered action log. It rebuilds views and statistics from that log, exports LLM decisions as trajectories, and runs batches of games between configured models.

Each module follows one file of the server:

- `Roles`, `Rules` (`server/game/roles.py`, `server/game/rules.py`): the role table and the per-player-count configurations (team split, role list, quest team sizes, two-fail quests).
- `State` (`server/game/state.py`): the game state as a value `Game`, plus the class `GameState`, whose leader rotation and role assignment change it in place. The information-hiding view `ToDict` decides who sees which role, team and quest votes.
- `Transitions` and `Engine` (`server/game/engine.py`): every phase transition as a function on `Game`, and the class `GameEngine`. Each `GameEngine` method updates its state field by field and is proved to leave the state its transition function describes. `_check_human_action` is modelled as `Transitions.WithHumanCheck`.
- `Records`, `Repository` (`server/storage/repository.py`): stored games and actions. From the ordered action list they rebuild the game response, the restored engine state and the model and role statistics.
- `Exporter` (`server/batch/exporter.py`): trajectory extraction, the game filter and the export statistics.
- `Runner` (`server/batch/runner.py`): the class `BatchGameRunner`, covering player-configuration rotation, result aggregation and the stop flag.
- `BatchApi` (`server/api/batch.py`): the class `BatchRegistry`, the registry of running batches and its status transitions.
- `Player` (`server/llm/player.py`): how LLM results are turned into decisions, and the fallbacks.
- `Tools` (`server/llm/tools.py`): the tool registry `GameTools` and the JSON-schema serialiser.
- `RunBatch` (`run_batch.py`), `Config` (`server/config.py`), `GamesApi` (`server/api/games.py`): the `--models` parser, the `available_models` parser and the create-game validator.
- Helper modules:
  - `Options`: the `Option` and `Result` types;
  - `Json`: JSON values and Python truthiness;
  - `PyDicts`: insertion-ordered dictionaries as sequences of pairs;
  - `PyStrings`: Python's `split`, `strip`, `rsplit`, `lower` and `str(int)`;
  - `Sorting`: Python's stable `sorted` by key.

Conventions of the model:

- A Python dict whose iteration order matters is a `seq` of key/value pairs with distinct keys.
- Python's negative list indices and `IndexError`s are explicit.
- An exception the source raises is an `Err` result.
- Randomness (`random.shuffle`, `random.sample`, `random.choice`) is a parameter: a permutation, or a sequence of choices that the model maps into the stated set.
- Clocks, uuids, database reads and the LLM's replies are inputs.

Where the code and its design notes differ, the model follows the code:

- `next_discussion_speaker` loops with a `while` whose body always returns, so it acts as an `if`.
- The quest-result fallback in `_game_to_response` ignores the two-fail rule (`Repository.FallbackDiffersFromEngine`).
- The replayed approval rule counts recorded voters rather than seats (`Repository.ReplayedApprovalDiffers`).
- `get_game`'s own "finished" test repeats the view's rule (`GamesApi.LiveRevealRedundant`).
- `get_leader` indexes players by position, while the view's `is_leader` compares seats. They agree when players are in seat order.

## Model

| member | source | states |
|---|---|---|
| Roles.Info | server/game/roles.py:37-68 | each role's table row is the row of that role; Merlin alone knows evil, the two evil roles know their teammates |
| Roles.FromName | server/game/roles.py:14-22 | a string is read as a role only when it is that role's value |
| Roles.MerlinInfo | server/game/roles.py:39-45 | Merlin is good, sees evil, and has no teammates to know |
| Roles.LoyalServantInfo | server/game/roles.py:46-51 | a loyal servant is good and has neither ability |
| Roles.EvilRolesInfo | server/game/roles.py:52-67 | the assassin and the minion are evil and know their teammates, without seeing evil as Merlin does |
| Roles.IsEvilIffEvilTeam | server/game/roles.py:76-88 | `is_evil` holds exactly when `get_team` is evil |
| Roles.CanSeeEvilOnlyMerlin | server/game/roles.py:91-93 | only Merlin can see evil |
| Roles.KnowsTeammatesIffEvil | server/game/roles.py:96-98 | with these four roles, knowing one's teammates is the same as being evil |
| Roles.NameRoundTrip | server/game/roles.py:14-22 | every role's stored value reads back as that role |
| Rules.Repeat | server/game/rules.py:24-25 | `range(k)` appends `k` items, and none when `k` is not positive |
| Rules.RepeatAll | server/game/rules.py:24-30 | every appended item is the repeated role |
| Rules.RepeatCount | server/game/rules.py:24-30 | the repeated role occurs exactly `k` times, and no other role occurs |
| Rules.RolesOf | server/game/rules.py:17-32 | the role list has one entry per player when both teams are non-empty |
| Rules.RolesOrder | server/game/rules.py:17-32 | Merlin comes first, then the loyal servants, the Assassin at position `good_count`, then the minions |
| Rules.RolesCount | server/game/rules.py:17-32 | the list holds one Merlin, one Assassin, `good_count - 1` servants and `evil_count - 1` minions |
| Rules.RolesMultiset | server/game/rules.py:17-32 | the list is, as a multiset, Merlin, the Assassin, the servants and the minions |
| Rules.GetRules | server/game/rules.py:82-86 | a configuration exists exactly for 5 to 10 players and is the one for that count; otherwise the `ValueError` message |
| Rules.ConfigWellFormed | server/game/rules.py:36-79 | every table entry's teams add up to the player count, with five quest sizes between 1 and n, and two fails needed only on quest 4 with 7 or more players |
| Rules.ConfigTeams | server/game/rules.py:36-79 | both teams are non-empty and together make up the player count |
| Rules.RolesOfConfig | server/game/rules.py:17-79 | each supported count deals exactly n roles, with one Merlin and one Assassin |
| Rules.GetQuestTeamSize | server/game/rules.py:89-92 | quests 1 to 5 of a supported count need a team of 1 to n players; an unsupported count is an error |
| Rules.RequiresTwoFails | server/game/rules.py:95-98 | two fails are required exactly on quest 4 with 7 or more players; an unsupported count is an error |
| Rules.QuestNumbering | server/game/rules.py:89-98 | quest `q` reads entry `q - 1`; quest numbers 0 down to -4 wrap around as Python indices do; beyond that range the lookup fails |
| Records.AttemptOr1 | server/storage/repository.py:498 | a vote action's attempt is its stored attempt when that is set and non-zero, and is never 0 (`or 1`) |
| Records.NameAt | server/storage/repository.py:479-482 | a speaker's name is the name of the first stored player in that seat, "Unknown" when no player sits there |
| Records.OfType | server/storage/repository.py:494 | the actions of one type: every kept action has the type and comes from the log, and every action of that type is kept |
| Records.FirstAssassinationTarget | server/storage/repository.py:612-617 | the assassinated seat is the target of the first assassination action, none when the log holds no assassination |
| Repository.TeamForRoleCases | server/storage/repository.py:644-649 | no team for a missing or empty role, "evil" exactly for the five evil role names, "good" for every other role name |
| Repository.TeamForRoleAgrees | server/storage/repository.py:644-649 | for every dealt role the stored team is the team the role table gives it |
| Repository.GroupVotes | server/storage/repository.py:496-502 | the grouping loop computes the fold of the vote log into per-group seat→vote dictionaries |
| Repository.GroupHoldsLastVote | server/storage/repository.py:496-502 | a group holds, for each seat, the vote of the last action of that group that recorded a vote for the seat |
| Repository.GroupOpened | server/storage/repository.py:499-500 | a group exists exactly for the keys of the log's vote actions, whether or not they recorded a vote |
| Repository.BuildVoteHistory | server/storage/repository.py:504-511 | the vote history has one record per group, in group order, approved when approvals exceed half of the recorded votes |
| Repository.ReplayedApproval | server/storage/repository.py:505-510 | a replayed group is approved iff approvals are a strict majority of its recorded voters, and that is the engine's rule when every player voted |
| Repository.ReplayedApprovalDiffers | server/storage/repository.py:505-510 | two approvals out of three recorded votes approve the replayed team, though with five players the engine would reject it |
| Repository.ProposalVotesAgree | server/storage/repository.py:718-727 | restore groups the team votes exactly as the response does |
| Repository.ProposalIsFirst | server/storage/repository.py:721-725 | a restored group's proposed team is the one carried by the group's first vote action, `[]` when that is missing |
| Repository.StoredTeamSize | server/storage/repository.py:529-533 | a stored round's team size is the length of its member list when that is a non-empty list, else the stored value when truthy, else 0 |
| Repository.ApprovedTeamsSound | server/storage/repository.py:541-549 | in the fallback a round gets a team only from an approved vote group of that round |
| Repository.FirstProposedTeam | server/storage/repository.py:545-549 | the team credited to an approved group comes from the group's first vote action with a non-empty proposed team |
| Repository.FallbackResults | server/storage/repository.py:551-563 | the fallback yields one quest per round that has quest votes |
| Repository.FallbackIgnoresTwoFails | server/storage/repository.py:553-554 | a rebuilt quest succeeds exactly when it has no fail vote, its fail count being the fails among its votes |
| Repository.FallbackDiffersFromEngine | server/storage/repository.py:553-554 | with seven players the fourth quest needs two fails, yet the fallback fails it on a single fail |
| Repository.StoredQuestsShown | server/storage/repository.py:527-537 | stored rounds come out in round order, each with its own round number and fail count, and with no quest votes unless revealing |
| Repository.FallbackQuests | server/storage/repository.py:551-563 | the fallback shows one quest per quest-vote round, with no quest votes unless revealing |
| Repository.ResponseQuests | server/storage/repository.py:524-563 | the quests shown are the stored rounds when any exist, else the fallback's rounds |
| Sorting.SortBy | server/storage/repository.py:574 | `sorted(players, key=...)` gives the same elements, each as often, ordered by key |
| Sorting.SortByStable | server/storage/repository.py:574 | the sort is stable: elements with equal keys, such as two stored players in one seat, keep their stored order |
| Repository.StoredFirstHuman | server/storage/repository.py:565-570 | the human's seat is that of the first human in stored order, none when no player is human |
| Repository.PlayerRecords | server/storage/repository.py:573-595 | one player record per stored player |
| Repository.PlayerRecordsVisibility | server/storage/repository.py:573-595 | every record shows one stored player; role and team appear when revealing or for the human's seat, and neither appears otherwise |
| Repository.PlayerRecordsBySeat | server/storage/repository.py:574 | players come out in seat order |
| Repository.DiscussionEntries | server/storage/repository.py:476-490 | one discussion entry per discussion action |
| Repository.AssassinationEntries | server/storage/repository.py:597-610 | one assassination-discussion entry per assassination-discussion action |
| Repository.DiscussionLogged | server/storage/repository.py:476-490 | every logged discussion message appears in the history with its speaker's name, its content (`or ""`) and its attempt |
| Repository.AssassinationLogged | server/storage/repository.py:597-610 | every logged assassination-discussion message appears in its history |
| Repository.ResponseRound | server/storage/repository.py:619-622 | the response's round is the next quest while playing, the last quest once finished, and 1 with no quests |
| Repository.ResponseShows | server/storage/repository.py:462-642 | the response hides quest votes unless revealing, fixes leader 0, attempt 1, no proposed team and no human wait, shows the first assassination's target and one vote record per group |
| Repository.PhaseFromName | server/storage/repository.py:803-806 | a phase name is read back only as the phase of that name; any other name raises and falls back |
| Repository.PhaseNameRoundTrip | server/storage/repository.py:803-806 | every phase's stored name is read back as that phase |
| Repository.StatusFromName | server/storage/repository.py:808-811 | a status name is read back only as the status of that name |
| Repository.StatusNameRoundTrip | server/storage/repository.py:808-811 | every status's stored name is read back as that status |
| Repository.TeamFromName | server/storage/repository.py:814-819 | "good" and "evil" are read back as the two teams and no other string is |
| Repository.RestorePlayerRole | server/storage/repository.py:680-697 | a stored role naming a game role comes back as that role, any other role as unassigned, with seat and name kept |
| Repository.PyMod | server/storage/repository.py:796 | Python's `%`: the remainder lies between 0 and the divisor, on the divisor's side |
| Repository.RestoreVoteHistory | server/storage/repository.py:729-739 | one restored vote result per vote group |
| Repository.RestoreDiscussion | server/storage/repository.py:698-712 | one restored discussion message per discussion action |
| Repository.RestoreQuests | server/storage/repository.py:741-787 | the restored quests are the stored rounds when any exist, else the fallback's rounds |
| Repository.VotesInRound | server/storage/repository.py:799-800 | the count of vote results of a round never exceeds the history's length |
| Repository.RestoreCounters | server/storage/repository.py:789-836 | restore fails exactly for a zero player count; otherwise round = quests + 1, leader = groups mod player count, attempt = 1 + votes of the round, and nothing is pending |
| Repository.RestoreVotesAgree | server/storage/repository.py:729-739 | the restored vote history carries the same rounds, attempts, votes and approvals as the response's |
| Repository.StatsTeamAgrees | server/storage/repository.py:271 | for every dealt role the statistics' team is the role's own team |
| Repository.WinStats | server/storage/repository.py:254-345 | the statistics loops compute the fold of the finished games' players into per-key games and wins |
| Repository.CountGamePlayers | server/storage/repository.py:262-273 | the inner loop folds one finished game's players into the counts |
| Repository.CountOne | server/storage/repository.py:263-273 | one player adds a game to its key, and a win when its game's winner is its team |
| Repository.WinsAtMostGames | server/storage/repository.py:254-345 | no key has more wins than games |
| Repository.GamesPlayedTotal | server/storage/repository.py:254-345 | the games counted over all keys are exactly the counted players of the finished games |
| Repository.CountPlayerGet | server/storage/repository.py:263-273 | one counted player adds a game, and a win when its team won, to its own key and to no other |
| Repository.StatsPerKey | server/storage/repository.py:254-345 | per key, the games are the players with that key in the finished games and the wins are those of them whose team is the game's winner; a key no player has reads as zero |
| State.TeamOf | server/game/state.py:44-49 | a player has a team exactly when it has a role, and it is that role's team |
| State.NewState | server/game/state.py:85-125 | a new game waits in role assignment with no players, no results and no votes, at round 1, leader 0, attempt 1 |
| State.CountOutcome | server/game/state.py:131-137 | the quests won by a side never outnumber the quest results |
| State.CountOutcomeAppend | server/game/state.py:131-137 | a new quest result adds one win to the side it names and none to the other |
| State.AllDecidedAppend | server/game/state.py:131-137 | appending a decided result keeps every result decided |
| State.WinsPartition | server/game/state.py:131-137 | good and evil wins add up to at most the results, and to exactly the results iff every result is decided |
| State.SeatIndex | server/game/state.py:139-143 | the lookup finds the first player in the seat, and finds none exactly when nobody sits there |
| State.GetPlayer | server/game/state.py:139-143 | `get_player` returns a player of the game sitting in the seat, or none exactly when the seat is empty |
| State.GetLeader | server/game/state.py:145-146 | the leader is a player of the game |
| State.LeaderBySeat | server/game/state.py:145-146 | with players in seat order, the leader by position is the player in the leader's seat |
| State.EvilSeatsExcept | server/game/state.py:152-172 | the listed seats are exactly the seats of evil players other than the excepted one |
| State.VisibleEvilCases | server/game/state.py:152-172 | a missing or roleless player and a loyal servant see nobody, Merlin sees every evil seat, an evil player every other evil seat |
| State.VisibleEvilSound | server/game/state.py:152-172 | a seat is visible iff an evil player sits there and the viewer is Merlin, or is evil and is not that seat |
| State.WithRoles | server/game/state.py:179-180 | dealing roles keeps the number of players |
| State.AssignRolesPermutation | server/game/state.py:174-180 | after the deal every player has a role and the roles dealt are a permutation of the rule table's |
| State.FirstHumanSeat | server/game/state.py:189-194 | the human's seat is that of the first human player, none when no player is human |
| State.ToDict | server/game/state.py:182-281 | the view has one entry per player and one per quest result |
| State.ToDictRevealed | server/game/state.py:211-214 | when revealing or once finished every seat shows its role and its team |
| State.ToDictHidden | server/game/state.py:215-235 | otherwise the viewer sees its own role and team, a visible evil seat as evil (its role only for an evil viewer), and nothing of any other seat |
| State.ViewerChoice | server/game/state.py:196-197 | the viewer is the requested seat when one is given, else the first human, else nobody |
| State.ToDictTruthful | server/game/state.py:199-237 | with distinct seats, every role or team the view shows is the player's true role or team |
| State.ToDictGoodViewerSeesNoRoles | server/game/state.py:215-235 | unless revealing, a viewer without an evil role sees no other seat's role, and a loyal servant sees no other seat's team either |
| State.ToDictQuestVotes | server/game/state.py:248-258 | a quest's fail count is always shown, its individual votes only when revealing or finished |
| State.GameState.constructor | server/game/state.py:85-125 | a new game state holds the defaults of a fresh game |
| State.GameState.NextLeader | server/game/state.py:148-150 | the leader moves one on, wrapping at the player count, and nothing else changes |
| State.GameState.AssignRoles | server/game/state.py:174-180 | the shuffled roles are dealt to the players in order and nothing else changes |
| Transitions.CreateGame | server/game/engine.py:16-31 | a new game holds one player without a role per configuration, in order, with the configured seat and humanity; with 5 to 10 of them it is a well-formed game |
| Transitions.FirstNotIn | server/game/engine.py:343-352 | the search stops at the first seat not yet in the list, and finds none exactly when every seat is in it |
| Transitions.NextEvilSpeaker | server/game/engine.py:343-352 | the next evil speaker is an evil seat that has not spoken; there is none exactly when every evil seat has spoken |
| Transitions.FirstAssassin | server/game/engine.py:354-358 | the assassin found is the first player holding the Assassin role, none when nobody holds it |
| Transitions.HumanCheckSetsOnlyWaiting | server/game/engine.py:303-358 | the human check sets only the two waiting fields, and waits exactly when some kind of human action is pending |
| Transitions.WaitsForHumanSpeaker | server/game/engine.py:314-325 | during the discussion the game waits exactly when speakers remain and the next seat is human; a leader's turn is "leader_discussion" |
| Transitions.WaitsOnlyForFirstEvilSpeaker | server/game/engine.py:343-352 | before the assassination the game waits exactly when the first evil seat yet to speak is human |
| Transitions.FinishWith | server/game/engine.py:287-301 | a finishing team is the winner, the game is finished and over, and the finishing time is recorded |
| Transitions.StartGame | server/game/engine.py:33-42 | a started game is in progress at night and stays well formed |
| Transitions.StartGameDealsRoles | server/game/engine.py:33-42 | after the start every player holds a role, the roles are a permutation of the rule table's, and seats are kept |
| Transitions.ProceedToDiscussion | server/game/engine.py:44-57 | the discussion restarts at the leader's seat with nobody having spoken and no proposed team |
| Transitions.ProceedToTeamSelection | server/game/engine.py:59-65 | the phase becomes team selection |
| Transitions.AddDiscussion | server/game/engine.py:93-104 | a message from a seated player is appended with the speaker's name, the round and the attempt; one from an empty seat is dropped |
| Transitions.NextDiscussionSpeaker | server/game/engine.py:106-125 | the next speaker step keeps the game well formed |
| Transitions.Speakers | server/game/engine.py:106-125 | repeated calls return one result per call |
| Transitions.DiscussionAdvance | server/game/engine.py:114-121 | each call that finds a speaker counts one more speaker and moves the next seat on by one |
| Transitions.SpeakerAt | server/game/engine.py:114-121 | the i-th call returns the seat i places after the first |
| Transitions.DiscussionOrder | server/game/engine.py:106-125 | while fewer than the player count have spoken, calls return seats s, s+1, … modulo the player count |
| Transitions.DiscussionEnds | server/game/engine.py:123-125 | once every player has spoken the next call returns none and marks the discussion complete |
| Transitions.TableOrder | server/game/engine.py:106-125 | once round the table lists as many seats as players |
| Transitions.EverySeatSpeaksOnce | server/game/engine.py:106-125 | going once round the table from any seat calls every seat exactly once |
| Transitions.QuestTeamSize | server/game/engine.py:367-369 | the current quest's team size is the rule table's for the round, between 1 and the player count |
| Transitions.SelectTeam | server/game/engine.py:67-91 | selecting a team keeps the game well formed |
| Transitions.SelectTeamOutcome | server/game/engine.py:67-91 | a team is accepted exactly when it has the quest's size and every member is seated; acceptance opens the vote on it, rejection changes nothing |
| Transitions.ProceedToVote | server/game/engine.py:127-131 | the vote opens with no votes cast |
| Transitions.CastVote | server/game/engine.py:133-135 | the seat's vote is recorded, replacing its earlier vote, and no other seat's vote changes |
| Transitions.CountValueSplit | server/game/engine.py:141-143 | approvals and rejections together are all the votes cast |
| Transitions.ResolveVote | server/game/engine.py:141-178 | resolving the vote keeps the game well formed |
| Transitions.ConcludeVote | server/game/engine.py:159-178 | what follows a recorded vote keeps the game well formed |
| Transitions.PassLead | server/game/engine.py:169-178 | the next seat leads and opens the discussion, the proposal is cleared, and players, results, round, attempt and winner are kept |
| Transitions.ResolveVoteMajority | server/game/engine.py:143-144 | a team is approved iff approvals exceed half the player count, so a tie rejects it |
| Transitions.ResolveVoteRecords | server/game/engine.py:146-155 | exactly one vote result is appended, holding the votes, the team and the leader of this attempt |
| Transitions.ResolveVoteOutcome | server/game/engine.py:157-178 | approval starts the quest; a fifth rejection makes evil win; any other rejection moves to the next attempt under the next leader |
| Transitions.CastQuestVote | server/game/engine.py:180-182 | the seat's quest card is recorded, replacing its earlier card, and no other seat's card changes |
| Transitions.FailsRequired | server/game/engine.py:192-193 | the fourth quest of a game of seven or more needs two fail cards, every other quest one |
| Transitions.ResolveQuest | server/game/engine.py:188-231 | resolving the quest keeps the game well formed |
| Transitions.ConcludeQuest | server/game/engine.py:206-231 | what follows a recorded quest keeps the game well formed and the results unchanged |
| Transitions.ConcludeQuestOutcome | server/game/engine.py:206-231 | three successes open the evil discussion, else three failures make evil win, else the next round starts under the next leader |
| Transitions.ResolveQuestResult | server/game/engine.py:188-204 | the quest succeeds iff fewer fail cards were played than it needs, and exactly one result recording team, cards and fail count is appended |
| Transitions.ResolveQuestOutcome | server/game/engine.py:188-231 | after the quest: three successes open the assassination discussion with no winner, else three failures make evil win, else round + 1 at attempt 1 under the next leader |
| Transitions.ResolveQuestTally | server/game/engine.py:188-231 | each quest adds one to exactly one side's tally |
| Transitions.AddAssassinationDiscussion | server/game/engine.py:233-247 | a seated player's message is appended and the speaker is listed; an empty seat changes nothing |
| Transitions.SpeakersListedOnce | server/game/engine.py:233-247 | no seat is listed twice among those who spoke before the assassination |
| Transitions.NextAssassinationDiscussionSpeaker | server/game/engine.py:254-263 | the next speaker is an evil seat that has not spoken; none exactly when all have, which completes the discussion |
| Transitions.ProceedToAssassination | server/game/engine.py:265-268 | the phase becomes the assassination |
| Transitions.Assassinate | server/game/engine.py:270-285 | a hit needs a seated target |
| Transitions.AssassinateOutcome | server/game/engine.py:270-285 | an empty seat changes nothing; otherwise naming Merlin wins for evil and naming anyone else wins for good, and the game ends with the target recorded |
| Engine.GameEngine.CreateGame | server/game/engine.py:16-31 | the appending loop leaves the state `Transitions.CreateGame` describes, well formed for a supported count of configurations |
| Engine.GameEngine.StartGame | server/game/engine.py:33-42 | the state becomes `Transitions.StartGame` of the old state |
| Engine.GameEngine.CheckHumanAction | server/game/engine.py:303-358 | only the waiting fields change, set to the pending human action of the current phase |
| Engine.GameEngine.PendingHumanAction | server/game/engine.py:307-358 | the phase-by-phase checks return the action a human must take, and change nothing |
| Engine.GameEngine.HumanVoterPending | server/game/engine.py:327-332 | the voter loop reports whether some human player has not voted |
| Engine.GameEngine.HumanQuesterPending | server/game/engine.py:334-340 | the team loop reports whether some seated human team member has not played a card |
| Engine.GameEngine.HumanEvilSpeakerNext | server/game/engine.py:342-352 | the loop reports whether the first evil seat yet to speak is a human's |
| Engine.GameEngine.HumanAssassin | server/game/engine.py:354-358 | the search reports whether the first Assassin is human |
| Engine.GameEngine.ProceedToDiscussion | server/game/engine.py:44-57 | the state becomes `Transitions.ProceedToDiscussion` of the old state |
| Engine.GameEngine.ProceedToTeamSelection | server/game/engine.py:59-65 | the state becomes `Transitions.ProceedToTeamSelection` of the old state |
| Engine.GameEngine.SelectTeam | server/game/engine.py:67-91 | result and new state are those of `Transitions.SelectTeam` |
| Engine.GameEngine.AllSeated | server/game/engine.py:80-83 | the seat check accepts exactly the teams whose every seat is taken by a player |
| Engine.GameEngine.AddDiscussion | server/game/engine.py:93-104 | the state becomes `Transitions.AddDiscussion` of the old state |
| Engine.GameEngine.NextDiscussionSpeaker | server/game/engine.py:106-125 | the returned seat and the new state are those of `Transitions.NextDiscussionSpeaker` |
| Engine.GameEngine.ProceedToVote | server/game/engine.py:127-131 | the state becomes `Transitions.ProceedToVote` of the old state |
| Engine.GameEngine.CastVote | server/game/engine.py:133-135 | the state becomes `Transitions.CastVote` of the old state |
| Engine.GameEngine.ResolveVote | server/game/engine.py:141-178 | the approval and the new state are those of `Transitions.ResolveVote` |
| Engine.GameEngine.CastQuestVote | server/game/engine.py:180-182 | the state becomes `Transitions.CastQuestVote` of the old state |
| Engine.GameEngine.ResolveQuest | server/game/engine.py:188-231 | the success and the new state are those of `Transitions.ResolveQuest` |
| Engine.GameEngine.AddAssassinationDiscussion | server/game/engine.py:233-247 | the state becomes `Transitions.AddAssassinationDiscussion` of the old state |
| Engine.GameEngine.NextAssassinationDiscussionSpeaker | server/game/engine.py:254-263 | the returned seat and the new state are those of `Transitions.NextAssassinationDiscussionSpeaker` |
| Engine.GameEngine.ProceedToAssassination | server/game/engine.py:265-268 | the state becomes `Transitions.ProceedToAssassination` of the old state |
| Engine.GameEngine.Assassinate | server/game/engine.py:270-285 | the hit and the new state are those of `Transitions.Assassinate` |
| Engine.GameEngine.Finish | server/game/engine.py:287-301 | the state becomes `Transitions.FinishWith` of the old state |
| Engine.GameEngine.GetAssassinSeat | server/game/engine.py:360-365 | the seat returned is that of the first player holding the Assassin role, none when nobody holds it |
| Engine.GameEngine.GetQuestTeamSize | server/game/engine.py:367-369 | the size is the rule table's for the current round |
| Exporter.ExportTeam | server/batch/exporter.py:294-297 | the exported team is "evil" exactly for the five evil role names and "good" for anything else |
| Exporter.ExportTeamAgrees | server/batch/exporter.py:294-297 | for every dealt role the exported team is the role table's team |
| Exporter.ExportTeamMatchesStore | server/batch/exporter.py:230-232 | for a non-empty role the exported team is the one the store's responses show, while a missing or unknown role is "good" here and "evil" in the win statistics |
| Exporter.PlayerAt | server/batch/exporter.py:216 | the seat lookup finds the LAST player in that seat, and none exactly when the seat is empty |
| Exporter.LoggedActions | server/batch/exporter.py:224-227 | the logged actions are actions of the log that carry an LLM input |
| Exporter.DecisionOf | server/batch/exporter.py:229-256 | a decision carries its number, seat and type, the team of its role, and the seat's player's name, role, model and provider, or "unknown", `Player{seat+1}` and empty strings for an empty seat |
| Exporter.Decisions | server/batch/exporter.py:224-257 | building the decisions can only fail with an attribute error |
| Exporter.DecisionsFollowLog | server/batch/exporter.py:224-257 | the decisions are the logged actions in log order numbered 0, 1, 2, …, and building them fails exactly when a logged action's output is not a dict |
| Exporter.BuildDecisions | server/batch/exporter.py:224-257 | the skip-and-number loop computes the decisions |
| Exporter.FindMerlinAssassinated | server/batch/exporter.py:263-272 | the scan reports Merlin assassinated exactly when evil won and the first assassination targets a seat whose player is Merlin |
| Exporter.TrajectoryOutcome | server/batch/exporter.py:204-292 | a trajectory fails exactly on an unreadable logged output; otherwise good and evil wins follow the winner and never both hold, an assassinated Merlin means an evil win, decisions are numbered per logged action, and the round total is 0 however many quests are reported, as `total_rounds` reads a key the game document never has |
| Exporter.BuildTrajectory | server/batch/exporter.py:204-292 | the trajectory built is the one `TrajectoryOf` describes, `total_rounds` included |
| Exporter.TotalRoundsAsWrittenMissesQuests | server/batch/exporter.py:286 | as written, a finished game with one stored round reports one quest but zero total rounds; the corrected count is one |
| Exporter.TrajectoryCountsStoredRounds | server/batch/exporter.py:284-286 | the corrected trajectory differs from the as-written one only in its round total, which is the number of quests reported, one per stored round when rounds are stored |
| Exporter.SelectedConjunctive | server/batch/exporter.py:186-199 | a game passes the query iff it passes each of its filters alone |
| Exporter.GetGames | server/batch/exporter.py:172-202 | the selected games are logs that pass the query, and every log that passes it is selected |
| Exporter.StatsBalanced | server/batch/exporter.py:146-156 | the export counts one game per trajectory, good and evil wins add up to the games, and the decision total and the per-type counts both sum the trajectories' decisions |
| Exporter.StatsCountTypes | server/batch/exporter.py:155-156 | each type's count is the number of decisions of that type over the export |
| Exporter.ExportStats.constructor | server/batch/exporter.py:89-95 | the counters start at zero with no types counted |
| Exporter.ExportStats.Record | server/batch/exporter.py:146-156 | one trajectory updates the counters as `Tally` says |
| Exporter.CountDecisionTypes | server/batch/exporter.py:155-156 | the per-type loop adds one per decision to its type's count |
| Exporter.ExportTrajectories | server/batch/exporter.py:104-170 | the export fails exactly when some selected trajectory fails, and otherwise returns the counters of the selected trajectories |
| Exporter.ExportGames | server/batch/exporter.py:142-156 | the loop over the selected games stops at the first failing trajectory and otherwise leaves the counters `StatsOf` gives for the trajectories |
| Exporter.ExportStep | server/batch/exporter.py:145-156 | one more successful trajectory extends the trajectories and their counters |
| Exporter.TrajectoriesStopAtFailure | server/batch/exporter.py:143-144 | once a trajectory fails, the whole export fails |
| Runner.ModelIndex | server/batch/runner.py:229-234 | the model index, `(game + seat) mod models` when rotating and `seat mod models` otherwise, always names a configured model |
| Runner.PlayerConfigs | server/batch/runner.py:219-246 | without models the configuration fails; otherwise there is one LLM player per seat, seat s named `Player{s+1}` and playing the model the index picks |
| Runner.CreatePlayerConfigs | server/batch/runner.py:219-246 | the seat loop builds the configurations `PlayerConfigs` describes |
| Runner.RotationShifts | server/batch/runner.py:229-231 | with rotation each game hands a seat the model the next seat had in the previous game |
| Runner.FixedLineUp | server/batch/runner.py:232-234 | without rotation every game has the line-up the first game has with rotation |
| Runner.Recorded | server/batch/runner.py:139-174 | a game ending raises the count by one; a finished game adds its id and its winner's win, a failed one adds one error message and changes nothing else |
| Runner.ReplayConsistent | server/batch/runner.py:139-174 | every run keeps completed plus failed games equal to the games recorded |
| Runner.StoppedRunFrozen | server/batch/runner.py:114-118 | once a stop is requested, no later slot changes anything |
| Runner.ReplayRecordsSlotsBeforeStop | server/batch/runner.py:114-121 | exactly the slots that start before the first stop request are recorded |
| Runner.BatchResult.constructor | server/batch/runner.py:39-52 | a new result holds its total and its id with every counter at zero and no ids or errors |
| Runner.BatchGameRunner.constructor | server/batch/runner.py:74-77 | a new runner holds its configuration, no stop request and zero counters |
| Runner.BatchGameRunner.Stop | server/batch/runner.py:79-81 | a stop is requested and nothing else changes |
| Runner.BatchGameRunner.RecordGame | server/batch/runner.py:139-174 | the counters become `Recorded` of the old counters, and a finished game reports the new count for the progress callback |
| Runner.BatchGameRunner.RunSlot | server/batch/runner.py:114-118 | a slot after a stop request does nothing; otherwise it records its game and, exactly when the game finished, reports the new count to the progress callback |
| Runner.ProgressRises | server/batch/runner.py:155-162 | the counts passed to the progress callback rise strictly, each above the count the run started from and none above the count it ends with |
| Runner.BatchGameRunner.Run | server/batch/runner.py:83-137 | a run starts a fresh result for its id with zero counters and leaves the state the replay of its slots and stop requests describes, with the progress counts `Progress` gives, in callback order |
| BatchApi.StopOutcomes | server/api/batch.py:155-171 | a stop answers 404 exactly for an unknown id, 400 exactly for a batch that is not running, and succeeds exactly for a running batch |
| BatchApi.StopMarksOnlyThatBatch | server/api/batch.py:165-169 | a successful stop marks that batch stopped at the current time and touches no other batch |
| BatchApi.StatusMirrorsEntry | server/api/batch.py:134-152 | the status of a known batch is its entry field by field; an unknown id is 404 |
| BatchApi.TransitionsKeepIds | server/api/batch.py:82-131 | every registry update keeps one entry per id, and only a start adds an id |
| BatchApi.StoppedBatchEndsCompleted | server/api/batch.py:110-124 | a stopped batch's run still returns normally and its status is then overwritten with "completed" |
| BatchApi.ProgressCountsFailures | server/api/batch.py:104-107 | while a batch runs, its completed count is the runner's count, which includes failed games |
| BatchApi.RegistryListings | server/api/batch.py:187-198 | one listing row per registered batch |
| BatchApi.UnseenStored | server/api/batch.py:201-207 | the stored rows listed are exactly the stored batches whose id the registry does not hold, each as "completed" |
| BatchApi.ListedIds | server/api/batch.py:184-198 | the listed ids are the rows' ids in order |
| BatchApi.UnseenStoredDistinct | server/api/batch.py:201-207 | stored rows keep the store's order, so distinct stored ids stay distinct |
| BatchApi.StoredListings | server/batch/exporter.py:306-343 | one listing row per stored batch summary |
| BatchApi.UnseenStoredFrom | server/api/batch.py:201-207 | every unseen row is one of the stored summaries |
| BatchApi.ListBatchesMerges | server/api/batch.py:174-209 | the registry's batches come first in its order, a stored batch is listed as "completed" exactly when the registry lacks its id, and with distinct ids on both sides no id is listed twice |
| BatchApi.ListedTwiceAsWritten | server/api/batch.py:66 | as written, a registered batch whose games carry the id the runner drew is listed twice: all registry rows, then one more row for the stored summary under the drawn id |
| BatchApi.ListedOnce | server/batch/runner.py:91 | with the registry's id stamped on the games, a registered batch's stored summary is not listed again |
| BatchApi.BatchRegistry.constructor | server/api/batch.py:13-14 | the registry starts with no batches and no runners |
| BatchApi.BatchRegistry.StartBatchRun | server/api/batch.py:58-101 | the batch is registered as running with zeroed counters, a fresh runner holds its configuration, and the reply names the number of games |
| BatchApi.BatchRegistry.UpdateProgress | server/api/batch.py:104-107 | a known batch's completed count becomes the count passed in; nothing else changes |
| BatchApi.BatchRegistry.RunBatch | server/api/batch.py:104-124 | the runner, stamping the id it draws, replays the run's events; each reported count goes through `_update_progress`, and the batch then records the run's counters as completed |
| BatchApi.ProgressOverwrittenOnCompletion | server/api/batch.py:104-124 | whatever counts the progress callback wrote, a completed batch's entry is the one the run's counters give |
| BatchApi.BatchRegistry.FailBatch | server/api/batch.py:125-131 | a failing run marks the batch failed with the single error message |
| BatchApi.BatchRegistry.StopBatchRun | server/api/batch.py:155-171 | the stop answers as `Stopped` says; on success the batch is marked stopped and its runner is asked to stop |
| Player.ArgGet | server/llm/player.py:94 | reading an argument raises exactly when the arguments are not a dict, and gives the default for a missing key |
| Player.CallsSucceed | server/llm/player.py:88-96 | the tool-call loop raises only on an `update_memory` call whose arguments are not a dict |
| Player.LastMemoryCallWins | server/llm/player.py:93-94 | the last `update_memory` call sets the memory; with none the memory is kept |
| Player.LastMainCallWins | server/llm/player.py:95-96 | the last call of the main tool gives the main arguments; with none they are kept |
| Player.FailureSticks | server/llm/player.py:88-96 | once a call raises, later calls change nothing |
| Player.FirstBadMemoryCallRaises | server/llm/player.py:93-94 | a non-dict `update_memory` argument raises at the first such call, keeping the memory the calls before it wrote |
| Player.TextReply | server/llm/player.py:102-103 | a plain-text reply leaves memory alone and yields `{"content": s}` when non-empty, `{}` otherwise |
| Player.ContentOverwrites | server/llm/player.py:98-101 | a non-empty dict content overwrites the main arguments' "content" and leaves their other keys as the last main call gave them |
| Player.BuildLlmOutput | server/llm/player.py:107-121 | the logged output is a dictionary with distinct keys |
| Player.LlmOutputReadsBack | server/llm/player.py:107-121 | the logged output holds exactly the reply's content, reasoning and tool calls, and no other key |
| Player.SeatsFromNumbers | server/llm/player.py:184 | the converted team is no longer than the raw list and holds only seats below the player count |
| Player.NumbersRoundTrip | server/llm/player.py:184 | numbering seats from 1 and converting back gives the seats again |
| Player.ConvertTeam | server/llm/player.py:181-184 | the team argument converts to in-range seats, and raises exactly when it is not iterable |
| Player.RepeatedNumbersKept | server/llm/player.py:184-188 | a repeated player number survives conversion: `[1, 1]` becomes the seats `[0, 0]` |
| Player.RemoveFirst | server/llm/player.py:193-194 | removing a held seat removes exactly one occurrence, and keeps a duplicate-free list duplicate-free |
| Player.Sample | server/llm/player.py:195 | a sample has the requested size (capped by the pool), draws only from the pool and is duplicate-free when the pool is |
| Player.RemoveAt | server/llm/player.py:195 | taking out one pool element keeps the others and their distinctness |
| Player.FallbackTeamShape | server/llm/player.py:188-195 | a fallback team has exactly the team size, is led by the player's own seat, and is made of distinct seats |
| Player.ProposedTeamSize | server/llm/player.py:181-195 | a proposed team has the requested size, its seats below the player count or drawn from the seats |
| Player.TeamSelectionSize | server/llm/player.py:159-212 | whatever the reply, the leader proposes exactly team-size seats, each below the player count or one of the seats |
| Player.VoteDecision | server/llm/player.py:296-322 | a vote whose processing raised approves |
| Player.QuestDecision | server/llm/player.py:324-352 | a quest card whose processing raised is a success exactly for a good role |
| Player.SilentReplyDefaults | server/llm/player.py:313-352 | a reply without usable arguments approves, and succeeds the quest for a good player |
| Player.ValidTargets | server/llm/player.py:408-409 | the assassin's valid targets are exactly the seats that are neither visible evil nor its own |
| Player.Choice | server/llm/player.py:412 | a random choice is one of the valid targets |
| Player.AssassinationTargetValid | server/llm/player.py:385-422 | whenever a valid target exists the assassin names one, and a valid named target is kept as named |
| Player.LlmPlayer.constructor | server/llm/player.py:25-34 | a new player holds its seat, role and visible evil seats with an empty memory |
| Player.LlmPlayer.ProcessResult | server/llm/player.py:83-105 | the memory and main arguments become those `ProcessReply` gives for the old memory |
| Player.LlmPlayer.SelectTeam | server/llm/player.py:159-212 | memory, team and logged output are those `TeamSelection` gives |
| Player.LlmPlayer.Vote | server/llm/player.py:296-322 | memory, vote and logged output are those `VoteDecision` gives |
| Player.LlmPlayer.ExecuteQuest | server/llm/player.py:324-352 | memory, card and logged output are those `QuestDecision` gives |
| Player.LlmPlayer.Assassinate | server/llm/player.py:385-422 | memory, target and logged output are those `AssassinationTarget` gives |
| Tools.PropertyKeys | server/llm/tools.py:34-49 | a parameter's schema has its type and description, `enum` and `items` exactly when truthy and `minimum`/`maximum` exactly when not `None`, each with the parameter's value |
| Tools.PropertiesLastWins | server/llm/tools.py:51 | each name's entry in `properties` is the schema of the last parameter of that name |
| Tools.PropertiesKeys | server/llm/tools.py:51 | `properties` has a key exactly for the parameters' names |
| Tools.RequiredNamesAppend | server/llm/tools.py:53-54 | `required` follows the parameter list piece by piece, keeping declaration order |
| Tools.RequiredNamesExactly | server/llm/tools.py:53-54 | `required` names exactly the parameters marked required |
| Tools.ToOpenAiSchema | server/llm/tools.py:28-67 | the loop that fills `properties` and `required` builds the function-calling schema `SchemaOf` describes |
| Tools.SelectToolsAppend | server/llm/tools.py:200 | selection follows the requested names piece by piece: their order is kept and unknown names skipped |
| Tools.SelectOne | server/llm/tools.py:200 | one requested name gives its tool, or nothing when it is not registered |
| Tools.Schemas | server/llm/tools.py:202 | one schema per selected tool, in order |
| Tools.ToolsForPhase | server/llm/tools.py:204-218 | team selection offers `propose_team`, the team vote `vote_team`, the quest `vote_quest`, and every other phase nothing |
| Tools.GameTools.constructor | server/llm/tools.py:73-163 | a new registry holds the six built-in tools, in registration order, under their own names |
| Tools.GameTools.RegisterEach | server/llm/tools.py:77-163 | registering tools of distinct names one after another appends each under its name |
| Tools.GameTools.RegisterTool | server/llm/tools.py:165-167 | a new name is appended and a known one overwritten in place |
| Tools.GameTools.UnregisterTool | server/llm/tools.py:169-174 | the result is true exactly when the name was registered, and the name is removed |
| Tools.RegisterThenGet | server/llm/tools.py:165-178 | after a registration the lookup gives the tool, and other names keep their tools |
| Tools.UnregisterThenGet | server/llm/tools.py:169-178 | after an unregistration the name is gone and every other name keeps its tool |
| Tools.BuiltInNames | server/llm/tools.py:77-163 | the built-in tools carry six distinct names |
| Tools.BuiltInsCoverPhasesAndPlayers | server/llm/tools.py:204-218 | every tool a phase offers, and every tool a player calls, is built in |
| RunBatch.ParseItem | run_batch.py:28-35 | the provider of a parsed item never holds a colon: the item is cut at its last colon |
| RunBatch.ParseItems | run_batch.py:28-35 | one pair per comma-separated item, in order |
| RunBatch.ParseModels | run_batch.py:25-36 | the loop appends the pair of every item, giving the list `ParseItems` describes |
| RunBatch.ColonItem | run_batch.py:30-32 | an item whose stripped text is `name:provider` with no colon in the provider gives the stripped name and provider |
| RunBatch.BareItem | run_batch.py:33-35 | an item without a colon is a model of the provider `openai` |
| RunBatch.ItemRoundTrip | run_batch.py:28-35 | writing a pair as `model:provider` and parsing it gives the pair back |
| RunBatch.ModelsRoundTrip | run_batch.py:25-36 | a comma-joined list of writable pairs parses back to the same list, in order |
| RunBatch.RunConfig | run_batch.py:39-57 | an empty `--models` is refused; otherwise the batch configuration carries the parsed models, rotation unless `--no-rotate`, and the other arguments unchanged |
| Config.Lookup | server/config.py:78-86 | a set, non-empty settings attribute wins; otherwise the environment variable is used when present, and nothing otherwise |
| Config.ParseEntry | server/config.py:63-68 | an item without a colon is dropped; a kept item has a non-empty model and a non-empty provider with no upper-case letter |
| Config.FirstColonSplits | server/config.py:64-68 | an item is cut at its first colon, so later colons stay in the provider |
| Config.GroupedModels | server/config.py:60-71 | each provider holds exactly the models named for it, in order, and a provider with none is absent |
| Config.GroupedValid | server/config.py:60-71 | no provider appears twice in the grouping |
| Config.AddModel | server/config.py:69-71 | a new provider gets a list holding the model; a known one has the model appended |
| Config.GroupModels | server/config.py:60-71 | the first loop builds the grouping of the parsed items |
| Config.ProvidersFromGet | server/config.py:73-94 | a provider is kept exactly when it has models and a key, with its models and its looked-up key and base URL |
| Config.MakeProviders | server/config.py:73-94 | the second loop builds one configuration per provider with a key |
| Config.ProvidersOffered | server/config.py:52-96 | with no `available_models` nothing is offered; otherwise a provider is offered exactly when it was named with models and has a key |
| Config.GetLlmProviders | server/config.py:52-96 | the providers are those `Providers` describes |
| Config.Infos | server/config.py:104-109 | one entry per model of a provider, in order, each shown under its own name |
| Config.ProviderModels | server/config.py:104-109 | the inner loop lists the entries `Infos` describes |
| Config.GetAllModels | server/config.py:98-111 | the list is the providers' entries, provider by provider |
| Config.AllModelsListsPairs | server/config.py:98-111 | an entry is listed exactly when its provider offers its model and its display name is the model |
| GamesApi.SeatSetSize | server/api/games.py:24-25 | `len(set(seats)) == len(seats)` exactly when no two players share a seat |
| GamesApi.FirstUnconfigured | server/api/games.py:31-36 | the first LLM player without a model or provider, or nothing when every one is configured |
| GamesApi.ValidateCreate | server/api/games.py:16-36 | an accepted request is passed on unchanged; every refusal is a 400 |
| GamesApi.CreateAccepted | server/api/games.py:16-36 | a request is accepted exactly when it has one player per seat, its seats are 0 .. n-1 each taken once, and every LLM player names a model and a provider |
| GamesApi.SeatChecks | server/api/games.py:24-28 | the two seat checks together hold exactly when the seats are 0 .. n-1, each taken once |
| GamesApi.CreateRejections | server/api/games.py:17-28 | a count mismatch is reported with both counts before any seat problem, then duplicate seats, then seats outside 0 .. n-1 |
| GamesApi.DistinctSeatsInRange | server/api/games.py:24-28 | distinct seats all in 0 .. n-1 pass the seat-range check |
| GamesApi.GetGame | server/api/games.py:70-92 | the live game comes first, the stored game next, and 404 "Game not found" when neither exists |
| GamesApi.LiveGameRevealed | server/api/games.py:81-84 | a live game shows every role and team when asked to or once finished |
| GamesApi.LiveRevealRedundant | server/api/games.py:83-84 | for a live game the route's view equals the view with the flag as given, since the finished test is the view's own rule |

## Left out

- `server/game/manager.py` is not part of this model: its asyncio game loop, socket emits, sleeps and database writes only sequence engine calls, so its forced success for a human good player's quest vote is not modelled either.
- The LLM providers and prompts (`server/llm/providers.py`, `server/llm/base.py`, `server/llm/prompts.py`, `_build_messages`, `_build_llm_input`) are not part of this model; the LLM's reply is an input of `Player`.
- The discussion methods of `LlmPlayer` (`discuss`, `discuss_as_leader`, `discuss_assassination`) are left out: they only format prompt text and return the reply, with Chinese default texts.
- Database access (Mongo queries, `get_discussion_action_id` and its floating-point timestamp distances, `get_game_replay`) is left out; the model takes the already-sorted action and game lists as inputs.
- The asyncio semaphore, `asyncio.gather` and lock in `BatchGameRunner.run`, and the background task in `server/api/batch.py`, are left out. Games are recorded one after another, and a stop during a run is an event in the input sequence.
- `Runner.BatchGameRunner.Run`: the progress callback is not called during the run; `Run` returns the counts it would receive, and `BatchApi.BatchRegistry.RunBatch` applies them to the registry after the run, so a read of the registry between two games is not modelled.
- Floating point (`win_rate`, percentages) and clocks, dates and uuids are left out or taken as parameters.
- File writing, JSON serialisation and file download of trajectories are left out.
- Argument parsing, printing and the `export` and `list` sub-commands of `run_batch.py` are left out; `RunBatch.RunConfig` models `cmd_run` up to building the configuration.
- `PyStrings.Lower`: only ASCII upper-case letters are lowered; Python's `str.lower()` also maps other Unicode letters, so a provider name with such letters is grouped differently.
- `PyStrings.Upper`: only ASCII lower-case letters are raised; `Config.ApiKey` and `Config.BaseUrl` use it for `provider_name.upper()`, so the environment variable names of a provider with other Unicode letters differ from Python's.
- `Roles.IsEvil`: a role of `None` raises `KeyError` in the source; the model's callers pass an assigned role.
- `Player` fallbacks: `random.sample` raises `ValueError` when fewer seats remain than needed; the model requires the team size to be between 1 and the number of seats.
- `Player.LlmPlayer`: the aliasing between `llm_output`'s tool calls and the main arguments dict is not modelled; both are values.
- `Tools.GameTools.constructor`: tool description texts are left as empty strings; only names and parameters are modelled.
- `LLMPlayerManager` and the non-final `select_team` are not modelled separately; `select_team` shares its team conversion with `select_team_final`.
- `server/models/database.py`, `server/socket/handlers.py`, `server/main.py`, `server/api/stats.py`, `server/api/config.py` and `server/models/schemas.py` are not part of this model.

## Findings

| source | as written | input that shows it | evidently intended | confidence | as-written member | corrected member |
|---|---|---|---|---|---|---|
| server/batch/exporter.py:286 | `total_rounds` is `len(game.get("quest_results", []))`, but stored game documents never hold `quest_results`, so it is always 0 | a finished game with one stored round | the number of quest rounds played | not executed | Exporter.TotalRoundsAsWrittenMissesQuests | Exporter.TrajectoryCountsStoredRounds |
| server/api/batch.py:66 | the batch id the API hands out is never passed to the runner, which draws a fresh id, so the stored games carry a different batch id | one batch started through the API and run to completion | the runner uses the API's batch id, so the batch is listed once and exporting by that id finds its games | not executed | BatchApi.ListedTwiceAsWritten | BatchApi.ListedOnce |
