/**
 * An LLM-driven seat: reading the tool calls of a provider's reply into the
 * player's memory and the arguments of the requested action, the record of
 * the raw reply that is logged, and the normalisation and fallbacks that
 * turn whatever the model said into a legal decision. The provider's reply
 * and the random draws of the fallbacks arrive as parameters.
 */
module Player {
  import opened Options
  import opened Json
  import opened PyDicts
  import Roles

  /** One tool call as the provider decodes it; `arguments` is whatever its JSON decoded to. */
  datatype ToolCall = ToolCall(name: string, arguments: Json, id: string)

  /** What `generate` returns: plain text, or a dict holding any of these three keys. */
  datatype Reply =
    | Text(text: string)
    | Structured(content: Field<string>, reasoning: Field<string>, toolCalls: Field<seq<ToolCall>>)

  /**
   * The player's memory and the main tool's arguments while `_process_result`
   * runs; `Err` is the exception it raises. Memory written before the
   * exception stays written.
   */
  datatype Processing = Processing(memory: Json, mainArgs: Result<Json, string>)

  /** A decision together with the memory it leaves and the `llm_output` logged with it. */
  datatype Turn<T> = Turn(memory: Json, decision: T, llmOutput: Json)

  function Min(a: int, b: int): int { if a <= b then a else b }

  /** `args.get(key, default)`: a non-dict raises `AttributeError`. */
  function ArgGet(args: Json, key: string, default: Json): (r: Result<Json, string>)
    ensures r.Err? <==> !args.JObj?
    ensures args.JObj? && !Contains(args.fields, key) ==> r == Ok(default)
  {
    match args
    case JObj(fields) => Ok(Get(fields, key).GetOr(default))
    case _ => Err("AttributeError")
  }

  // ----- _process_result -----

  predicate IsMemoryCall(c: ToolCall) { c.name == "update_memory" }

  /** The requested tool, unless the call updates memory: that branch is tested first. */
  predicate IsMainCall(c: ToolCall, mainTool: Option<string>) {
    !IsMemoryCall(c) && mainTool.Some? && mainTool.value != "" && c.name == mainTool.value
  }

  /** One iteration of the tool-call loop; an exception stops it. */
  function CallStep(p: Processing, c: ToolCall, mainTool: Option<string>): Processing {
    if p.mainArgs.Err? then p
    else if IsMemoryCall(c) then
      match ArgGet(c.arguments, "memory", JStr(""))
      case Ok(m) => p.(memory := m)
      case Err(e) => p.(mainArgs := Err(e))
    else if IsMainCall(c, mainTool) then p.(mainArgs := Ok(c.arguments))
    else p
  }

  function ProcessCalls(p: Processing, calls: seq<ToolCall>, mainTool: Option<string>): Processing
    decreases |calls|
  {
    if calls == [] then p
    else CallStep(ProcessCalls(p, calls[..|calls| - 1], mainTool), calls[|calls| - 1], mainTool)
  }

  /** `main_args["content"] = c` for a truthy `c`; on anything but a dict the assignment raises. */
  function WithContent(p: Processing, c: string): Processing {
    if c == "" || p.mainArgs.Err? then p
    else
      match p.mainArgs.value
      case JObj(fields) => p.(mainArgs := Ok(JObj(Set(fields, "content", JStr(c)))))
      case _ => p.(mainArgs := Err("TypeError"))
  }

  /** `_process_result(result, main_tool_name)` started from `memory`. */
  function ProcessReply(memory: Json, reply: Reply, mainTool: Option<string>): Processing {
    var start := Processing(memory, Ok(JObj([])));
    match reply
    case Text(s) => WithContent(start, s)
    case Structured(content, _, calls) =>
      var afterCalls := if calls.Present? then ProcessCalls(start, calls.value, mainTool) else start;
      if content.Present? then WithContent(afterCalls, content.value) else afterCalls
  }

  predicate LastMemoryCallAt(calls: seq<ToolCall>, i: int) {
    0 <= i < |calls| && IsMemoryCall(calls[i]) && forall j :: i < j < |calls| ==> !IsMemoryCall(calls[j])
  }

  predicate LastMainCallAt(calls: seq<ToolCall>, i: int, mainTool: Option<string>) {
    0 <= i < |calls| && IsMainCall(calls[i], mainTool) && forall j :: i < j < |calls| ==> !IsMainCall(calls[j], mainTool)
  }

  ghost predicate MemoryArgsAreDicts(calls: seq<ToolCall>) {
    forall i :: 0 <= i < |calls| && IsMemoryCall(calls[i]) ==> calls[i].arguments.JObj?
  }

  /** The loop raises only on an `update_memory` call whose arguments are not a dict. */
  lemma {:induction false} CallsSucceed(p: Processing, calls: seq<ToolCall>, mainTool: Option<string>)
    requires p.mainArgs.Ok? && MemoryArgsAreDicts(calls)
    ensures ProcessCalls(p, calls, mainTool).mainArgs.Ok?
    decreases |calls|
  {
    if calls != [] {
      var init := calls[..|calls| - 1];
      assert forall j :: 0 <= j < |init| ==> init[j] == calls[j];
      CallsSucceed(p, init, mainTool);
    }
  }

  /**
   * When every `update_memory` call carries a dict, the last such call sets
   * the memory; with no such call the memory stays as it was.
   */
  lemma {:induction false} LastMemoryCallWins(p: Processing, calls: seq<ToolCall>, mainTool: Option<string>)
    requires p.mainArgs.Ok? && MemoryArgsAreDicts(calls)
    ensures var p' := ProcessCalls(p, calls, mainTool);
      && ((forall i :: 0 <= i < |calls| ==> !IsMemoryCall(calls[i])) ==> p'.memory == p.memory)
      && (forall i :: LastMemoryCallAt(calls, i) ==> Ok(p'.memory) == ArgGet(calls[i].arguments, "memory", JStr("")))
    decreases |calls|
  {
    if calls != [] {
      var n := |calls| - 1;
      var init := calls[..n];
      assert forall j :: 0 <= j < |init| ==> init[j] == calls[j];
      CallsSucceed(p, init, mainTool);
      LastMemoryCallWins(p, init, mainTool);
      var q := ProcessCalls(p, init, mainTool);
      var c := calls[n];
      assert ProcessCalls(p, calls, mainTool) == CallStep(q, c, mainTool);
      if IsMemoryCall(c) {
        assert c.arguments.JObj?;
        assert Ok(CallStep(q, c, mainTool).memory) == ArgGet(c.arguments, "memory", JStr(""));
        forall i | LastMemoryCallAt(calls, i) ensures i == n {}
      } else {
        assert CallStep(q, c, mainTool).memory == q.memory;
        forall i | LastMemoryCallAt(calls, i) ensures LastMemoryCallAt(init, i) {}
      }
    }
  }

  /**
   * When every `update_memory` call carries a dict, the last call of the
   * main tool gives the arguments; with no such call they stay as they were.
   */
  lemma {:induction false} LastMainCallWins(p: Processing, calls: seq<ToolCall>, mainTool: Option<string>)
    requires p.mainArgs.Ok? && MemoryArgsAreDicts(calls)
    ensures var p' := ProcessCalls(p, calls, mainTool);
      && ((forall i :: 0 <= i < |calls| ==> !IsMainCall(calls[i], mainTool)) ==> p'.mainArgs == p.mainArgs)
      && (forall i :: LastMainCallAt(calls, i, mainTool) ==> p'.mainArgs == Ok(calls[i].arguments))
    decreases |calls|
  {
    if calls != [] {
      var n := |calls| - 1;
      var init := calls[..n];
      assert forall j :: 0 <= j < |init| ==> init[j] == calls[j];
      CallsSucceed(p, init, mainTool);
      LastMainCallWins(p, init, mainTool);
      var q := ProcessCalls(p, init, mainTool);
      var c := calls[n];
      assert ProcessCalls(p, calls, mainTool) == CallStep(q, c, mainTool);
      if IsMainCall(c, mainTool) {
        assert CallStep(q, c, mainTool).mainArgs == Ok(c.arguments);
        forall i | LastMainCallAt(calls, i, mainTool) ensures i == n {}
      } else {
        assert CallStep(q, c, mainTool).mainArgs == q.mainArgs by {
          if IsMemoryCall(c) {
            assert c.arguments.JObj?;
          }
        }
        forall i | LastMainCallAt(calls, i, mainTool) ensures LastMainCallAt(init, i, mainTool) {}
      }
    }
  }

  /** An exception stops the loop: later calls change nothing. */
  lemma {:induction false} FailureSticks(p: Processing, calls: seq<ToolCall>, i: int, mainTool: Option<string>)
    requires 0 <= i <= |calls| && ProcessCalls(p, calls[..i], mainTool).mainArgs.Err?
    ensures ProcessCalls(p, calls, mainTool) == ProcessCalls(p, calls[..i], mainTool)
    decreases |calls|
  {
    if i < |calls| {
      assert calls[..|calls| - 1][..i] == calls[..i];
      FailureSticks(p, calls[..|calls| - 1], i, mainTool);
    } else {
      assert calls[..i] == calls;
    }
  }

  /**
   * An `update_memory` call whose arguments are not a dict raises at the
   * first such call; the memory written by the calls before it stays.
   */
  lemma FirstBadMemoryCallRaises(memory: Json, args: Json, calls: seq<ToolCall>, i: int, mainTool: Option<string>)
    requires 0 <= i < |calls| && IsMemoryCall(calls[i]) && !calls[i].arguments.JObj?
    requires forall j :: 0 <= j < i && IsMemoryCall(calls[j]) ==> calls[j].arguments.JObj?
    ensures var p := ProcessCalls(Processing(memory, Ok(args)), calls, mainTool);
      && p.mainArgs == Err("AttributeError")
      && p.memory == ProcessCalls(Processing(memory, Ok(args)), calls[..i], mainTool).memory
  {
    var start := Processing(memory, Ok(args));
    var prefix := calls[..i];
    assert forall j :: 0 <= j < |prefix| ==> prefix[j] == calls[j];
    CallsSucceed(start, prefix, mainTool);
    assert calls[..i + 1][..i] == prefix;
    FailureSticks(start, calls, i + 1, mainTool);
  }

  /** A plain-text reply leaves memory alone and becomes `{"content": s}` when non-empty. */
  lemma TextReply(memory: Json, s: string, mainTool: Option<string>)
    ensures ProcessReply(memory, Text(s), mainTool) ==
      Processing(memory, Ok(JObj(if s == "" then [] else [("content", JStr(s))])))
  {}

  /**
   * A non-empty `content` of a dict reply overwrites the main arguments'
   * "content", and leaves their other keys as the last main call gave them.
   */
  lemma {:induction false} ContentOverwrites(memory: Json, content: string, reasoning: Field<string>,
                                             calls: seq<ToolCall>, mainTool: Option<string>, i: int, key: string)
    requires content != "" && LastMainCallAt(calls, i, mainTool) && calls[i].arguments.JObj?
    requires MemoryArgsAreDicts(calls)
    ensures var p := ProcessReply(memory, Structured(Present(content), reasoning, Present(calls)), mainTool);
      && p.mainArgs.Ok? && p.mainArgs.value.JObj?
      && Get(p.mainArgs.value.fields, "content") == Some(JStr(content))
      && (key != "content" ==> Get(p.mainArgs.value.fields, key) == Get(calls[i].arguments.fields, key))
  {
    var start := Processing(memory, Ok(JObj([])));
    LastMainCallWins(start, calls, mainTool);
    var p := ProcessCalls(start, calls, mainTool);
    assert p.mainArgs == Ok(calls[i].arguments);
    assert ProcessReply(memory, Structured(Present(content), reasoning, Present(calls)), mainTool) == WithContent(p, content);
    var fields := calls[i].arguments.fields;
    GetSetSame(fields, "content", JStr(content));
    if key != "content" {
      GetSetOther(fields, "content", JStr(content), key);
    }
  }

  // ----- _build_llm_output -----

  function ToolCallJson(c: ToolCall): Json {
    JObj([("name", JStr(c.name)), ("arguments", c.arguments), ("id", JStr(c.id))])
  }

  /** `_build_llm_output`: a string becomes `{"content": s}`; a dict keeps only its three known keys, in order. */
  function BuildLlmOutput(reply: Reply): (out: seq<(string, Json)>)
    ensures Valid(out)
  {
    match reply
    case Text(s) => [("content", JStr(s))]
    case Structured(content, reasoning, calls) =>
      (if content.Present? then [("content", JStr(content.value))] else [])
      + (if reasoning.Present? then [("reasoning_content", JStr(reasoning.value))] else [])
      + (if calls.Present? then [("tool_calls", JList(seq(|calls.value|, k requires 0 <= k < |calls.value| => ToolCallJson(calls.value[k]))))] else [])
  }

  /** The `llm_output` logged when the call raised. */
  function ErrorOutput(e: string): Json { JObj([("error", JStr(e))]) }

  /**
   * The logged output keeps exactly the reply's content, reasoning and tool
   * calls, so the trajectory exporter reads back the reply's reasoning.
   */
  lemma LlmOutputReadsBack(reply: Reply)
    ensures var out := BuildLlmOutput(reply);
      && Get(out, "content") == (match reply
           case Text(s) => Some(JStr(s))
           case Structured(c, _, _) => if c.Present? then Some(JStr(c.value)) else None)
      && Get(out, "reasoning_content") ==
           (if reply.Structured? && reply.reasoning.Present? then Some(JStr(reply.reasoning.value)) else None)
      && (Contains(out, "tool_calls") <==> reply.Structured? && reply.toolCalls.Present?)
      && forall k :: Contains(out, k) ==> k == "content" || k == "reasoning_content" || k == "tool_calls"
  {
    var out := BuildLlmOutput(reply);
    match reply
    case Text(_) =>
      assert Keys(out) == ["content"];
    case Structured(c, r, t) =>
      var keys := (if c.Present? then ["content"] else []) + (if r.Present? then ["reasoning_content"] else [])
        + (if t.Present? then ["tool_calls"] else []);
      assert Keys(out) == keys;
  }

  // ----- normalising a proposed team -----

  /** `[p - 1 for p in raw if isinstance(p, int) and 1 <= p <= n]`. */
  function SeatsFromNumbers(raw: seq<Json>, n: int): (team: seq<int>)
    ensures |team| <= |raw|
    ensures forall k :: 0 <= k < |team| ==> 0 <= team[k] < n
  {
    if raw == [] then []
    else
      var rest := SeatsFromNumbers(raw[..|raw| - 1], n);
      var p := AsPyInt(raw[|raw| - 1]);
      if p.Some? && 1 <= p.value <= n then rest + [p.value - 1] else rest
  }

  /** The 1-indexed numbers shown to the model for a list of seats. */
  function PlayerNumbers(seats: seq<int>): (raw: seq<Json>)
    ensures |raw| == |seats|
  {
    seq(|seats|, k requires 0 <= k < |seats| => JInt(seats[k] + 1))
  }

  /** Numbering seats from 1 and converting back gives the seats again. */
  lemma {:induction false} NumbersRoundTrip(seats: seq<int>, n: int)
    requires forall k :: 0 <= k < |seats| ==> 0 <= seats[k] < n
    ensures SeatsFromNumbers(PlayerNumbers(seats), n) == seats
  {
    if seats != [] {
      var init := seats[..|seats| - 1];
      assert PlayerNumbers(seats)[..|seats| - 1] == PlayerNumbers(init);
      NumbersRoundTrip(init, n);
      assert init + [seats[|seats| - 1]] == seats;
    }
  }

  /** Iterating `team_args.get("team", [])`: strings and dicts yield no integers; other values are not iterable. */
  function ConvertTeam(raw: Json, n: int): (r: Result<seq<int>, string>)
    ensures r.Ok? ==> forall k :: 0 <= k < |r.value| ==> 0 <= r.value[k] < n
    ensures r.Err? <==> !(raw.JList? || raw.JStr? || raw.JObj?)
  {
    match raw
    case JList(items) => Ok(SeatsFromNumbers(items, n))
    case JStr(_) => Ok([])
    case JObj(_) => Ok([])
    case _ => Err("TypeError")
  }

  /** Repeated numbers survive the conversion: `[1, 1]` for a team of two is the team `[0, 0]`. */
  lemma RepeatedNumbersKept()
    ensures ConvertTeam(JList([JInt(1), JInt(1)]), 5) == Ok([0, 0])
  {
    assert [JInt(1), JInt(1)][..1] == [JInt(1)];
    assert [JInt(1)][..0] == [];
    assert AsPyInt(JInt(1)) == Some(1);
    assert SeatsFromNumbers([], 5) == [];
    assert SeatsFromNumbers([JInt(1)], 5) == [0];
    assert SeatsFromNumbers([JInt(1), JInt(1)], 5) == [0] + [0] == [0, 0];
  }

  ghost predicate Distinct(s: seq<int>) {
    forall i, j :: 0 <= i < j < |s| ==> s[i] != s[j]
  }

  /** `list.remove(x)` for an `x` the list holds: its first occurrence goes. */
  function RemoveFirst(s: seq<int>, x: int): (r: seq<int>)
    ensures x in s ==> |r| == |s| - 1
    ensures x !in s ==> r == s
    ensures forall y :: y in r ==> y in s
    ensures Distinct(s) ==> Distinct(r) && x !in r
  {
    if s == [] then []
    else if s[0] == x then s[1..]
    else
      var rest := RemoveFirst(s[1..], x);
      assert Distinct(s) ==> Distinct([s[0]] + rest) && x !in [s[0]] + rest by {
        if Distinct(s) {
          assert forall i :: 1 <= i < |s| ==> s[1..][i - 1] == s[i];
          assert s[0] !in s[1..];
        }
      }
      [s[0]] + rest
  }

  /**
   * `random.sample(pool, k)` for `k <= len(pool)`, driven by `rng`: each
   * draw takes the element at `rng`'s next value modulo what is left.
   */
  function Sample(pool: seq<int>, k: nat, rng: seq<nat>): (r: seq<int>)
    ensures |r| == Min(k, |pool|)
    ensures forall x :: x in r ==> x in pool
    ensures Distinct(pool) ==> Distinct(r)
    decreases k
  {
    if k == 0 || pool == [] then []
    else
      var i := (if rng == [] then 0 else rng[0]) % |pool|;
      var left := pool[..i] + pool[i + 1..];
      RemoveAt(pool, i);
      [pool[i]] + Sample(left, k - 1, if rng == [] then [] else rng[1..])
  }

  /** Taking out the element at `i` keeps the others and their distinctness. */
  lemma RemoveAt(pool: seq<int>, i: int)
    requires 0 <= i < |pool|
    ensures var left := pool[..i] + pool[i + 1..];
      && |left| == |pool| - 1
      && (forall x :: x in left ==> x in pool)
      && (Distinct(pool) ==> Distinct(left) && pool[i] !in left)
  {
    var left := pool[..i] + pool[i + 1..];
    assert forall a :: 0 <= a < |left| ==> left[a] == pool[if a < i then a else a + 1];
  }

  /** The in-call fallback: the player's own seat, then `team_size - 1` other seats drawn at random. */
  function FallbackTeam(own: int, seats: seq<int>, teamSize: int, rng: seq<nat>): seq<int>
    requires teamSize >= 1
  {
    var available := RemoveFirst(seats, own);
    [own] + Sample(available, Min(|available|, teamSize - 1), rng)
  }

  /**
   * A seated player with distinct seats and a team size the seats can fill
   * gets exactly `team_size` distinct seats, led by its own.
   */
  lemma FallbackTeamShape(own: int, seats: seq<int>, teamSize: int, rng: seq<nat>)
    requires own in seats && Distinct(seats) && 1 <= teamSize <= |seats|
    ensures var team := FallbackTeam(own, seats, teamSize, rng);
      && |team| == teamSize && team[0] == own && Distinct(team)
      && forall x :: x in team ==> x in seats
  {
    var available := RemoveFirst(seats, own);
    var drawn := Sample(available, Min(|available|, teamSize - 1), rng);
    var team := [own] + drawn;
    forall a, b | 0 <= a < b < |team| ensures team[a] != team[b] {
      if a == 0 {
        assert team[b] == drawn[b - 1] && drawn[b - 1] in available;
      } else {
        assert team[a] == drawn[a - 1] && team[b] == drawn[b - 1];
      }
    }
  }

  datatype TeamChoice = TeamChoice(team: seq<int>, speech: Option<Json>)

  /** The `except` branch of a team choice: a random team, the fixed sentence, the error logged. */
  function TeamOnError(memory: Json, seats: seq<int>, teamSize: int, rng: seq<nat>, e: string): Turn<TeamChoice>
    requires 0 <= teamSize
  {
    Turn(memory, TeamChoice(Sample(seats, teamSize, rng), None), ErrorOutput(e))
  }

  /**
   * The team read from the main arguments: "team" converted from player
   * numbers, replaced by the fallback when its size is wrong.
   */
  function ProposedTeam(args: Json, own: int, seats: seq<int>, teamSize: int, rng: seq<nat>): (r: Result<seq<int>, string>)
    requires teamSize >= 1
  {
    var raw := ArgGet(args, "team", JList([]));
    if raw.Err? then Err(raw.error)
    else
      var converted := ConvertTeam(raw.value, |seats|);
      if converted.Err? then converted
      else if |converted.value| != teamSize then Ok(FallbackTeam(own, seats, teamSize, rng))
      else converted
  }

  /** A proposed team has the requested size; its seats are below the player count or drawn from the seats. */
  lemma ProposedTeamSize(args: Json, own: int, seats: seq<int>, teamSize: int, rng: seq<nat>)
    requires 1 <= teamSize <= |seats| && own in seats && Distinct(seats)
    ensures var r := ProposedTeam(args, own, seats, teamSize, rng);
      r.Ok? ==> |r.value| == teamSize && forall k :: 0 <= k < |r.value| ==> (0 <= r.value[k] < |seats| || r.value[k] in seats)
  {
    FallbackTeamShape(own, seats, teamSize, rng);
  }

  /**
   * `select_team_final` and `select_team`: the team from the last
   * `propose_team` call, then the speech from the last `speak` call;
   * `speech` is `None` when the fixed sentence naming the team is used.
   * Any exception gives a random team.
   */
  function TeamSelection(memory: Json, reply: Reply, own: int, seats: seq<int>, teamSize: int,
                         rng: seq<nat>, rngOnError: seq<nat>): Turn<TeamChoice>
    requires 1 <= teamSize <= |seats|
  {
    var p := ProcessReply(memory, reply, Some("propose_team"));
    var team := if p.mainArgs.Err? then Err(p.mainArgs.error) else ProposedTeam(p.mainArgs.value, own, seats, teamSize, rng);
    if team.Err? then TeamOnError(p.memory, seats, teamSize, rngOnError, team.error)
    else
      var q := ProcessReply(p.memory, reply, Some("speak"));
      var speech := if q.mainArgs.Err? then Err(q.mainArgs.error) else ArgGet(q.mainArgs.value, "content", JStr(""));
      if speech.Err? then TeamOnError(q.memory, seats, teamSize, rngOnError, speech.error)
      else Turn(q.memory, TeamChoice(team.value, if Truthy(speech.value) then Some(speech.value) else None),
                JObj(BuildLlmOutput(reply)))
  }

  /**
   * Whatever the reply, a seated player with distinct seats proposes exactly
   * `team_size` seats, each a seat number below the player count or one of
   * the seats; the team is duplicate-free whenever the fallback chose it.
   */
  lemma TeamSelectionSize(memory: Json, reply: Reply, own: int, seats: seq<int>, teamSize: int,
                          rng: seq<nat>, rngOnError: seq<nat>)
    requires 1 <= teamSize <= |seats| && own in seats && Distinct(seats)
    ensures var team := TeamSelection(memory, reply, own, seats, teamSize, rng, rngOnError).decision.team;
      && |team| == teamSize
      && forall k :: 0 <= k < |team| ==> (0 <= team[k] < |seats| || team[k] in seats)
  {
    var p := ProcessReply(memory, reply, Some("propose_team"));
    if p.mainArgs.Ok? {
      ProposedTeamSize(p.mainArgs.value, own, seats, teamSize, rng);
    }
  }

  // ----- votes and the assassination -----

  /** `vote`: the "approve" argument of the last `vote_team` call, approving when it is missing or the call raised. */
  function VoteDecision(memory: Json, reply: Reply): (t: Turn<Json>)
    ensures ProcessReply(memory, reply, Some("vote_team")).mainArgs.Err? ==> t.decision == JBool(true)
  {
    var p := ProcessReply(memory, reply, Some("vote_team"));
    if p.mainArgs.Err? then Turn(p.memory, JBool(true), ErrorOutput(p.mainArgs.error))
    else
      match ArgGet(p.mainArgs.value, "approve", JBool(true))
      case Ok(v) => Turn(p.memory, v, JObj(BuildLlmOutput(reply)))
      case Err(e) => Turn(p.memory, JBool(true), ErrorOutput(e))
  }

  /** `execute_quest`: the "success" argument, success when missing, and on an exception success exactly for a good role. */
  function QuestDecision(memory: Json, reply: Reply, role: Roles.Role): (t: Turn<Json>)
    ensures ProcessReply(memory, reply, Some("vote_quest")).mainArgs.Err? ==> t.decision == JBool(!Roles.IsEvil(role))
  {
    var p := ProcessReply(memory, reply, Some("vote_quest"));
    if p.mainArgs.Err? then Turn(p.memory, JBool(!Roles.IsEvil(role)), ErrorOutput(p.mainArgs.error))
    else
      match ArgGet(p.mainArgs.value, "success", JBool(true))
      case Ok(v) => Turn(p.memory, v, JObj(BuildLlmOutput(reply)))
      case Err(e) => Turn(p.memory, JBool(!Roles.IsEvil(role)), ErrorOutput(e))
  }

  /** A reply with no usable arguments approves the team and, from a good player, succeeds the quest. */
  lemma SilentReplyDefaults(memory: Json, role: Roles.Role)
    ensures VoteDecision(memory, Text("")).decision == JBool(true)
    ensures QuestDecision(memory, Text(""), role).decision == JBool(true)
    ensures QuestDecision(memory, Structured(Absent, Absent, Present([ToolCall("update_memory", JNull, "")])), role).decision
      == JBool(!Roles.IsEvil(role))
  {
    var calls := [ToolCall("update_memory", JNull, "")];
    assert calls[..0] == [];
  }

  /** The seats an assassin may name: neither a visible evil seat nor its own. */
  function ValidTargets(seats: seq<int>, visibleEvil: seq<int>, own: int): (vs: seq<int>)
    ensures forall s :: s in vs <==> s in seats && s !in visibleEvil && s != own
  {
    if seats == [] then []
    else
      var rest := ValidTargets(seats[1..], visibleEvil, own);
      assert forall s :: s in seats <==> s == seats[0] || s in seats[1..];
      if seats[0] !in visibleEvil && seats[0] != own then [seats[0]] + rest else rest
  }

  /** `random.choice(valid)` driven by `r`. */
  function Choice(valid: seq<int>, r: nat): (s: int)
    requires valid != []
    ensures s in valid
  {
    valid[r % |valid|]
  }

  /** The target named by the "target" argument: `raw - 1` for an integer, else seat 0. */
  function NamedTarget(raw: Json): int {
    match AsPyInt(raw)
    case Some(t) => t - 1
    case None => 0
  }

  /** `assassinate`: the named seat, replaced by a random valid one when it is not valid and one exists. */
  function AssassinationTarget(memory: Json, reply: Reply, own: int, seats: seq<int>, visibleEvil: seq<int>, r: nat): Turn<int> {
    var valid := ValidTargets(seats, visibleEvil, own);
    var p := ProcessReply(memory, reply, Some("assassinate"));
    var raw := if p.mainArgs.Err? then Err(p.mainArgs.error) else ArgGet(p.mainArgs.value, "target", JInt(1));
    match raw
    case Err(e) => Turn(p.memory, if valid != [] then Choice(valid, r) else 0, ErrorOutput(e))
    case Ok(v) =>
      var target := NamedTarget(v);
      Turn(p.memory, if target !in valid && valid != [] then Choice(valid, r) else target, JObj(BuildLlmOutput(reply)))
  }

  /**
   * Whenever a valid target exists the assassin names one; a valid named
   * target is kept as named; with none valid the named seat (or 0) stands.
   */
  lemma AssassinationTargetValid(memory: Json, reply: Reply, own: int, seats: seq<int>, visibleEvil: seq<int>, r: nat)
    ensures var t := AssassinationTarget(memory, reply, own, seats, visibleEvil, r);
      var valid := ValidTargets(seats, visibleEvil, own);
      var p := ProcessReply(memory, reply, Some("assassinate"));
      && (valid != [] ==> t.decision in seats && t.decision !in visibleEvil && t.decision != own)
      && (p.mainArgs.Ok? && p.mainArgs.value.JObj? ==>
            var named := NamedTarget(Get(p.mainArgs.value.fields, "target").GetOr(JInt(1)));
            (named in valid || valid == []) ==> t.decision == named)
  {}

  // ----- the player object -----

  /** An LLM seat: its memory is the one field the calls update. */
  class LlmPlayer {
    const seat: int
    const role: Roles.Role
    const visibleEvil: seq<int>
    var memory: Json

    constructor(seat: int, role: Roles.Role, visibleEvil: seq<int>)
      ensures this.seat == seat && this.role == role && this.visibleEvil == visibleEvil
      ensures memory == JStr("")
    {
      this.seat := seat;
      this.role := role;
      this.visibleEvil := visibleEvil;
      memory := JStr("");
    }

    /** `_process_result`: the memory it leaves and the main arguments, or the exception. */
    method ProcessResult(reply: Reply, mainTool: Option<string>) returns (mainArgs: Result<Json, string>)
      modifies this
      ensures Processing(memory, mainArgs) == ProcessReply(old(memory), reply, mainTool)
    {
      var start := Processing(memory, Ok(JObj([])));
      var args := JObj([]);
      if reply.Structured? && reply.toolCalls.Present? {
        var calls := reply.toolCalls.value;
        for i := 0 to |calls|
          invariant Processing(memory, Ok(args)) == ProcessCalls(start, calls[..i], mainTool)
        {
          assert calls[..i + 1][..i] == calls[..i];
          var c := calls[i];
          if c.name == "update_memory" {
            if !c.arguments.JObj? {
              FailureSticks(start, calls, i + 1, mainTool);
              return Err("AttributeError");
            }
            memory := Get(c.arguments.fields, "memory").GetOr(JStr(""));
          } else if mainTool.Some? && mainTool.value != "" && c.name == mainTool.value {
            args := c.arguments;
          }
        }
        assert calls[..|calls|] == calls;
      }
      var content := match reply
        case Text(s) => s
        case Structured(c, _, _) => if c.Present? then c.value else "";
      if content == "" {
        return Ok(args);
      }
      match args
      case JObj(fields) =>
        return Ok(JObj(Set(fields, "content", JStr(content))));
      case _ =>
        return Err("TypeError");
    }

    /** `select_team_final` / `select_team`. */
    method SelectTeam(reply: Reply, seats: seq<int>, teamSize: int, rng: seq<nat>, rngOnError: seq<nat>)
      returns (choice: TeamChoice, llmOutput: Json)
      requires 1 <= teamSize <= |seats|
      modifies this
      ensures Turn(memory, choice, llmOutput) == TeamSelection(old(memory), reply, seat, seats, teamSize, rng, rngOnError)
    {
      var teamArgs := ProcessResult(reply, Some("propose_team"));
      var team := if teamArgs.Err? then Err(teamArgs.error) else ProposedTeam(teamArgs.value, seat, seats, teamSize, rng);
      if team.Err? {
        return TeamChoice(Sample(seats, teamSize, rngOnError), None), ErrorOutput(team.error);
      }
      var speechArgs := ProcessResult(reply, Some("speak"));
      var speech := if speechArgs.Err? then Err(speechArgs.error) else ArgGet(speechArgs.value, "content", JStr(""));
      if speech.Err? {
        return TeamChoice(Sample(seats, teamSize, rngOnError), None), ErrorOutput(speech.error);
      }
      choice := TeamChoice(team.value, if Truthy(speech.value) then Some(speech.value) else None);
      llmOutput := JObj(BuildLlmOutput(reply));
    }

    /** `vote`. */
    method Vote(reply: Reply) returns (approve: Json, llmOutput: Json)
      modifies this
      ensures Turn(memory, approve, llmOutput) == VoteDecision(old(memory), reply)
    {
      var args := ProcessResult(reply, Some("vote_team"));
      var v := if args.Err? then Err(args.error) else ArgGet(args.value, "approve", JBool(true));
      if v.Err? {
        return JBool(true), ErrorOutput(v.error);
      }
      return v.value, JObj(BuildLlmOutput(reply));
    }

    /** `execute_quest`. */
    method ExecuteQuest(reply: Reply) returns (success: Json, llmOutput: Json)
      modifies this
      ensures Turn(memory, success, llmOutput) == QuestDecision(old(memory), reply, role)
    {
      var args := ProcessResult(reply, Some("vote_quest"));
      var v := if args.Err? then Err(args.error) else ArgGet(args.value, "success", JBool(true));
      if v.Err? {
        return JBool(!Roles.IsEvil(role)), ErrorOutput(v.error);
      }
      return v.value, JObj(BuildLlmOutput(reply));
    }

    /** `assassinate`. */
    method Assassinate(reply: Reply, seats: seq<int>, r: nat) returns (target: int, llmOutput: Json)
      modifies this
      ensures Turn(memory, target, llmOutput) == AssassinationTarget(old(memory), reply, seat, seats, visibleEvil, r)
    {
      var valid := ValidTargets(seats, visibleEvil, seat);
      var args := ProcessResult(reply, Some("assassinate"));
      var raw := if args.Err? then Err(args.error) else ArgGet(args.value, "target", JInt(1));
      if raw.Err? {
        target := if valid != [] then Choice(valid, r) else 0;
        return target, ErrorOutput(raw.error);
      }
      target := NamedTarget(raw.value);
      if target !in valid && valid != [] {
        target := Choice(valid, r);
      }
      llmOutput := JObj(BuildLlmOutput(reply));
    }
  }
}
