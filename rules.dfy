/** The rule table: for each player count, the teams, the roles and the five quests. */
module Rules {
  import opened Options
  import opened Roles
  import PyStrings

  datatype GameRules = GameRules(
    playerCount: int,
    goodCount: int,
    evilCount: int,
    questTeamSizes: seq<int>,      // team size of quests 1..5
    twoFailsRequired: seq<bool>)   // whether quests 1..5 need two fail votes to fail

  /** `k` copies of `x`; none when `k` is not positive, as `range(k)` gives. */
  function Repeat(x: Role, k: int): (r: seq<Role>)
    ensures |r| == if k > 0 then k else 0
  {
    if k <= 0 then [] else [x] + Repeat(x, k - 1)
  }

  lemma {:induction false} RepeatAll(x: Role, k: int)
    ensures forall i :: 0 <= i < |Repeat(x, k)| ==> Repeat(x, k)[i] == x
  {
    if k > 0 {
      RepeatAll(x, k - 1);
      assert forall i :: 1 <= i < |Repeat(x, k)| ==> Repeat(x, k)[i] == Repeat(x, k - 1)[i - 1];
    }
  }

  lemma {:induction false} RepeatCount(x: Role, k: int, y: Role)
    ensures multiset(Repeat(x, k))[y] == if x == y && k > 0 then k else 0
  {
    if k > 0 {
      var rest := Repeat(x, k - 1);
      RepeatCount(x, k - 1, y);
      assert Repeat(x, k) == [x] + rest;
      assert multiset([x] + rest) == multiset([x]) + multiset(rest);
    }
  }

  /** The `roles` property: Merlin, the loyal servants, the Assassin, then the minions. */
  function RolesOf(rules: GameRules): (roles: seq<Role>)
    ensures rules.goodCount >= 1 && rules.evilCount >= 1 ==> |roles| == rules.goodCount + rules.evilCount
  {
    [Merlin] + Repeat(LoyalServant, rules.goodCount - 1) + [Assassin] + Repeat(Minion, rules.evilCount - 1)
  }

  /** The list holds Merlin first, then the loyal servants, the Assassin at `goodCount`, then the minions. */
  lemma RolesOrder(rules: GameRules)
    requires rules.goodCount >= 1 && rules.evilCount >= 1
    ensures var roles := RolesOf(rules);
      && roles[0] == Merlin
      && (forall i :: 1 <= i < rules.goodCount ==> roles[i] == LoyalServant)
      && roles[rules.goodCount] == Assassin
      && (forall i :: rules.goodCount < i < |roles| ==> roles[i] == Minion)
  {
    var servants := Repeat(LoyalServant, rules.goodCount - 1);
    var minions := Repeat(Minion, rules.evilCount - 1);
    var roles := RolesOf(rules);
    RepeatAll(LoyalServant, rules.goodCount - 1);
    RepeatAll(Minion, rules.evilCount - 1);
    forall i | 1 <= i < rules.goodCount ensures roles[i] == LoyalServant {
      assert roles[i] == servants[i - 1];
    }
    forall i | rules.goodCount < i < |roles| ensures roles[i] == Minion {
      assert roles[i] == minions[i - rules.goodCount - 1];
    }
  }

  /** How many of each role the `roles` list holds: one Merlin and one Assassin. */
  lemma {:induction false} RolesCount(rules: GameRules, y: Role)
    requires rules.goodCount >= 1 && rules.evilCount >= 1
    ensures multiset(RolesOf(rules))[y] ==
      match y
      case Merlin => 1
      case LoyalServant => rules.goodCount - 1
      case Assassin => 1
      case Minion => rules.evilCount - 1
  {
    RolesMultiset(rules);
    RepeatCount(LoyalServant, rules.goodCount - 1, y);
    RepeatCount(Minion, rules.evilCount - 1, y);
  }

  lemma RolesMultiset(rules: GameRules)
    ensures multiset(RolesOf(rules)) == multiset{Merlin, Assassin}
      + multiset(Repeat(LoyalServant, rules.goodCount - 1)) + multiset(Repeat(Minion, rules.evilCount - 1))
  {
    var servants := Repeat(LoyalServant, rules.goodCount - 1);
    var minions := Repeat(Minion, rules.evilCount - 1);
    calc {
      multiset(RolesOf(rules));
      multiset([Merlin] + servants + [Assassin] + minions);
      multiset([Merlin]) + multiset(servants) + multiset([Assassin]) + multiset(minions);
    }
  }

  /** `GAME_CONFIGS`: the configuration of a supported player count. */
  function Config(n: int): Option<GameRules> {
    if n == 5 then Some(GameRules(5, 3, 2, [2, 3, 2, 3, 3], [false, false, false, false, false]))
    else if n == 6 then Some(GameRules(6, 4, 2, [2, 3, 4, 3, 4], [false, false, false, false, false]))
    else if n == 7 then Some(GameRules(7, 4, 3, [2, 3, 3, 4, 4], [false, false, false, true, false]))
    else if n == 8 then Some(GameRules(8, 5, 3, [3, 4, 4, 5, 5], [false, false, false, true, false]))
    else if n == 9 then Some(GameRules(9, 6, 3, [3, 4, 4, 5, 5], [false, false, false, true, false]))
    else if n == 10 then Some(GameRules(10, 6, 4, [3, 4, 4, 5, 5], [false, false, false, true, false]))
    else None
  }

  /** `get_rules`: the configuration, or the `ValueError` message for an unsupported count. */
  function GetRules(n: int): (r: Result<GameRules, string>)
    ensures r.Ok? <==> 5 <= n <= 10
    ensures r.Ok? ==> r.value.playerCount == n
  {
    match Config(n)
    case Some(rules) => Ok(rules)
    case None => Err("Invalid player count: " + PyStrings.IntToString(n) + ". Must be between 5 and 10.")
  }

  /** Every configuration is consistent: the teams add up and each quest is described. */
  lemma ConfigWellFormed(n: int)
    requires 5 <= n <= 10
    ensures GetRules(n).Ok?
    ensures var rules := GetRules(n).value;
      && rules.goodCount + rules.evilCount == n
      && rules.goodCount >= 1 && rules.evilCount >= 1
      && |rules.questTeamSizes| == 5 && |rules.twoFailsRequired| == 5
      && (forall i :: 0 <= i < 5 ==> 1 <= rules.questTeamSizes[i] <= n)
      && (forall i :: 0 <= i < 5 ==> (rules.twoFailsRequired[i] <==> i == 3 && n >= 7))
  {}

  /** The two teams of a configuration add up to the player count, each with at least one player. */
  lemma ConfigTeams(n: int)
    requires 5 <= n <= 10
    ensures GetRules(n).Ok?
    ensures GetRules(n).value.goodCount + GetRules(n).value.evilCount == n
    ensures GetRules(n).value.goodCount >= 1 && GetRules(n).value.evilCount >= 1
  {
    ConfigWellFormed(n);
  }

  /** The roles of a configuration are exactly `n` long with one Merlin and one Assassin. */
  lemma RolesOfConfig(n: int)
    requires 5 <= n <= 10
    ensures GetRules(n).Ok?
    ensures |RolesOf(GetRules(n).value)| == n
    ensures multiset(RolesOf(GetRules(n).value))[Merlin] == 1
    ensures multiset(RolesOf(GetRules(n).value))[Assassin] == 1
  {
    ConfigWellFormed(n);
    RolesCount(GetRules(n).value, Merlin);
    RolesCount(GetRules(n).value, Assassin);
  }

  /** Reads the entry of quest `q` (numbered from 1) of a per-quest list, as `xs[q - 1]` does. */
  function QuestEntry<T>(xs: seq<T>, q: int): Result<T, string> {
    match PyIndex(xs, q - 1)
    case Some(v) => Ok(v)
    case None => Err("list index out of range")
  }

  /** `get_quest_team_size`. */
  function GetQuestTeamSize(n: int, q: int): (r: Result<int, string>)
    ensures 5 <= n <= 10 && 1 <= q <= 5 ==> r.Ok? && 1 <= r.value <= n
    ensures !(5 <= n <= 10) ==> r.Err?
  {
    match GetRules(n)
    case Err(e) => Err(e)
    case Ok(rules) => ConfigWellFormed(n); QuestEntry(rules.questTeamSizes, q)
  }

  /** `requires_two_fails`. */
  function RequiresTwoFails(n: int, q: int): (r: Result<bool, string>)
    ensures 5 <= n <= 10 && 1 <= q <= 5 ==> r == Ok(q == 4 && n >= 7)
    ensures !(5 <= n <= 10) ==> r.Err?
  {
    match GetRules(n)
    case Err(e) => Err(e)
    case Ok(rules) => ConfigWellFormed(n); QuestEntry(rules.twoFailsRequired, q)
  }

  /**
   * Quests are numbered from 1: entry `q - 1` is read. Like any Python list
   * index, a quest number of 0 or below counts back from the fifth quest, and
   * one above 5 is an `IndexError`.
   */
  lemma QuestNumbering(n: int, q: int)
    requires 5 <= n <= 10
    ensures 1 <= q <= 5 ==> GetQuestTeamSize(n, q) == Ok(GetRules(n).value.questTeamSizes[q - 1])
    ensures -4 <= q <= 0 ==> GetQuestTeamSize(n, q) == Ok(GetRules(n).value.questTeamSizes[q + 4])
    ensures (q > 5 || q < -4) <==> GetQuestTeamSize(n, q).Err?
    ensures (q > 5 || q < -4) <==> RequiresTwoFails(n, q).Err?
  {
    ConfigWellFormed(n);
  }
}
