/**
 * The documents the game store keeps, in the shape they are saved in: one
 * document per game and one per action. Reconstruction, statistics and
 * export read these; the store's queries themselves are not modelled, so
 * their results arrive as already-ordered sequences.
 */
module Records {
  import opened Options
  import opened Json
  import PyStrings

  /**
   * A saved action. `save_action` writes every key, so a field is never
   * missing, but its value may be `None`.
   */
  datatype Action = Action(
    roundNum: int,
    actionType: string,
    playerSeat: int,
    content: Option<string>,
    vote: Option<bool>,
    targetSeat: Option<int>,
    timestamp: Option<string>,       // the time of the action, as `isoformat()` renders it
    voteAttempt: Option<int>,
    proposedTeam: Option<seq<int>>,
    llmInput: Json,
    llmOutput: Json)

  datatype StoredPlayer = StoredPlayer(
    seat: int,
    name: string,
    role: Option<string>,
    isHuman: bool,
    modelName: Option<string>,
    provider: Option<string>)

  /**
   * What `team_members` of a stored round holds: a list of seats, or a
   * value that is not a list (`save_quest_result` saves the team SIZE there).
   */
  datatype Members = MemberList(seats: seq<int>) | MemberValue(value: Json)

  datatype StoredRound = StoredRound(roundNum: int, teamMembers: Members, success: Option<bool>, failVotes: int)

  /** A game document; `source`, `batch_id` and `batch_tag` are only present on some games. */
  datatype StoredGame = StoredGame(
    id: string,
    status: string,
    phase: string,
    playerCount: int,
    winner: Option<string>,
    players: seq<StoredPlayer>,
    rounds: seq<StoredRound>,
    source: Field<string>,
    batchId: Field<string>,
    batchTag: Field<string>)

  /** `f"Player{seat + 1}"`: the name a seat gets when none is known. */
  function DefaultPlayerName(seat: int): string {
    "Player" + PyStrings.IntToString(seat + 1)
  }

  /** `bool(s)` for an optional string: `None` and the empty string are false. */
  predicate TruthyString(s: Option<string>) {
    s.Some? && s.value != ""
  }

  /** `action.get("vote_attempt") or 1`: a missing or zero attempt reads as 1. */
  function AttemptOr1(a: Action): (k: int)
    ensures k != 0
    ensures a.voteAttempt.Some? && a.voteAttempt.value != 0 ==> k == a.voteAttempt.value
  {
    match a.voteAttempt
    case Some(k) => if k != 0 then k else 1
    case None => 1
  }

  /** `next((p["name"] for p in players if p["seat"] == seat), "Unknown")`. */
  function NameAt(players: seq<StoredPlayer>, seat: int): (name: string)
    ensures (forall i :: 0 <= i < |players| ==> players[i].seat != seat) ==> name == "Unknown"
    ensures forall i ::
      (0 <= i < |players| && players[i].seat == seat && forall j :: 0 <= j < i ==> players[j].seat != seat) ==>
        name == players[i].name
  {
    if players == [] then "Unknown"
    else if players[0].seat == seat then players[0].name
    else
      assert forall i :: 1 <= i < |players| ==> players[i] == players[1..][i - 1];
      NameAt(players[1..], seat)
  }

  /** The actions of type `t`, in log order: `[a for a in actions if a.get("action_type") == t]`. */
  function OfType(actions: seq<Action>, t: string): (r: seq<Action>)
    ensures |r| <= |actions|
    ensures forall k :: 0 <= k < |r| ==> r[k].actionType == t && r[k] in actions
    ensures forall i :: 0 <= i < |actions| && actions[i].actionType == t ==> actions[i] in r
  {
    if actions == [] then []
    else
      assert forall i :: 1 <= i < |actions| ==> actions[i] == actions[1..][i - 1];
      (if actions[0].actionType == t then [actions[0]] else []) + OfType(actions[1..], t)
  }

  /** The target of the first "assassination" action, which is None when there is none. */
  function FirstAssassinationTarget(actions: seq<Action>): (target: Option<int>)
    ensures (forall i :: 0 <= i < |actions| ==> actions[i].actionType != "assassination") ==> target.None?
    ensures forall i ::
      (0 <= i < |actions| && actions[i].actionType == "assassination" &&
       forall j :: 0 <= j < i ==> actions[j].actionType != "assassination") ==>
        target == actions[i].targetSeat
  {
    if actions == [] then None
    else if actions[0].actionType == "assassination" then actions[0].targetSeat
    else
      assert forall i :: 1 <= i < |actions| ==> actions[i] == actions[1..][i - 1];
      FirstAssassinationTarget(actions[1..])
  }
}
