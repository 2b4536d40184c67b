/**
 * The tools offered to LLM players: each tool's JSON-schema description in
 * the OpenAI function-calling format, and the registry that holds the
 * tools by name and picks the ones a call or a phase uses.
 */
module Tools {
  import opened Options
  import opened Json
  import opened PyDicts

  datatype ToolParameter = ToolParameter(
    name: string,
    paramType: string,
    description: string,
    required: bool,
    enumValues: Option<seq<Json>>,
    items: Option<seq<(string, Json)>>,
    minimum: Option<int>,
    maximum: Option<int>)

  datatype Tool = Tool(name: string, description: string, parameters: seq<ToolParameter>)

  /** Python truthiness of an optional list or dict: present and non-empty. */
  predicate Given<T>(v: Option<seq<T>>) { v.Some? && v.value != [] }

  /** A key that is written only when `present` holds. */
  function Optional(present: bool, key: string, value: Json): seq<(string, Json)> {
    if present then [(key, value)] else []
  }

  /** The schema of one parameter: type and description, then whichever of the optional keys are set. */
  function PropertyOf(p: ToolParameter): seq<(string, Json)> {
    [("type", JStr(p.paramType)), ("description", JStr(p.description))] + Extras(p)
  }

  /**
   * `enum` and `items` appear exactly when truthy, `minimum` and `maximum`
   * exactly when not `None`, each with the parameter's value.
   */
  lemma PropertyKeys(p: ToolParameter)
    ensures var prop := PropertyOf(p);
      && Get(prop, "type") == Some(JStr(p.paramType))
      && Get(prop, "description") == Some(JStr(p.description))
      && Get(prop, "enum") == (if Given(p.enumValues) then Some(JList(p.enumValues.value)) else None)
      && Get(prop, "items") == (if Given(p.items) then Some(JObj(p.items.value)) else None)
      && Get(prop, "minimum") == (if p.minimum.Some? then Some(JInt(p.minimum.value)) else None)
      && Get(prop, "maximum") == (if p.maximum.Some? then Some(JInt(p.maximum.value)) else None)
  {
    KeysDiffer();
    GetBase([("type", JStr(p.paramType)), ("description", JStr(p.description))], Extras(p), p);
    ExtrasEnum(p);
    ExtrasItems(p);
    ExtrasBounds(p);
  }

  /** The optional keys of a parameter's schema. */
  function Extras(p: ToolParameter): seq<(string, Json)> {
    Optional(Given(p.enumValues), "enum", JList(p.enumValues.GetOr([])))
    + (Optional(Given(p.items), "items", JObj(p.items.GetOr([])))
    + Bounds(p))
  }

  function Bounds(p: ToolParameter): seq<(string, Json)> {
    Optional(p.minimum.Some?, "minimum", JInt(p.minimum.GetOr(0)))
    + Optional(p.maximum.Some?, "maximum", JInt(p.maximum.GetOr(0)))
  }

  lemma ExtrasEnum(p: ToolParameter)
    ensures Get(Extras(p), "enum") == (if Given(p.enumValues) then Some(JList(p.enumValues.value)) else None)
  {
    KeysDiffer();
    var rest := Optional(Given(p.items), "items", JObj(p.items.GetOr([]))) + Bounds(p);
    OptionalGet(Given(p.enumValues), "enum", JList(p.enumValues.GetOr([])), rest, "enum");
    OptionalGet(Given(p.items), "items", JObj(p.items.GetOr([])), Bounds(p), "enum");
    BoundsOther(p, "enum");
  }

  lemma ExtrasItems(p: ToolParameter)
    ensures Get(Extras(p), "items") == (if Given(p.items) then Some(JObj(p.items.value)) else None)
  {
    KeysDiffer();
    var rest := Optional(Given(p.items), "items", JObj(p.items.GetOr([]))) + Bounds(p);
    OptionalGet(Given(p.enumValues), "enum", JList(p.enumValues.GetOr([])), rest, "items");
    OptionalGet(Given(p.items), "items", JObj(p.items.GetOr([])), Bounds(p), "items");
    BoundsOther(p, "items");
  }

  lemma ExtrasBounds(p: ToolParameter)
    ensures Get(Extras(p), "minimum") == (if p.minimum.Some? then Some(JInt(p.minimum.value)) else None)
    ensures Get(Extras(p), "maximum") == (if p.maximum.Some? then Some(JInt(p.maximum.value)) else None)
  {
    KeysDiffer();
    var rest := Optional(Given(p.items), "items", JObj(p.items.GetOr([]))) + Bounds(p);
    OptionalGet(Given(p.enumValues), "enum", JList(p.enumValues.GetOr([])), rest, "minimum");
    OptionalGet(Given(p.items), "items", JObj(p.items.GetOr([])), Bounds(p), "minimum");
    OptionalGet(Given(p.enumValues), "enum", JList(p.enumValues.GetOr([])), rest, "maximum");
    OptionalGet(Given(p.items), "items", JObj(p.items.GetOr([])), Bounds(p), "maximum");
    BoundsGet(p);
  }

  lemma BoundsOther(p: ToolParameter, k: string)
    requires k != "minimum" && k != "maximum"
    ensures Get(Bounds(p), k) == None
  {
    var hi := Optional(p.maximum.Some?, "maximum", JInt(p.maximum.GetOr(0)));
    OptionalGet(p.minimum.Some?, "minimum", JInt(p.minimum.GetOr(0)), hi, k);
    OptionalGet(p.maximum.Some?, "maximum", JInt(p.maximum.GetOr(0)), [], k);
    assert hi + [] == hi;
  }

  lemma BoundsGet(p: ToolParameter)
    ensures Get(Bounds(p), "minimum") == (if p.minimum.Some? then Some(JInt(p.minimum.value)) else None)
    ensures Get(Bounds(p), "maximum") == (if p.maximum.Some? then Some(JInt(p.maximum.value)) else None)
  {
    KeysDiffer();
    var hi := Optional(p.maximum.Some?, "maximum", JInt(p.maximum.GetOr(0)));
    OptionalGet(p.minimum.Some?, "minimum", JInt(p.minimum.GetOr(0)), hi, "minimum");
    OptionalGet(p.minimum.Some?, "minimum", JInt(p.minimum.GetOr(0)), hi, "maximum");
    OptionalGet(p.maximum.Some?, "maximum", JInt(p.maximum.GetOr(0)), [], "minimum");
    OptionalGet(p.maximum.Some?, "maximum", JInt(p.maximum.GetOr(0)), [], "maximum");
    assert hi + [] == hi;
  }

  lemma KeysDiffer()
    ensures "enum" != "items" && "enum" != "minimum" && "enum" != "maximum"
    ensures "items" != "minimum" && "items" != "maximum" && "minimum" != "maximum"
    ensures forall k :: k in ["enum", "items", "minimum", "maximum"] ==> k != "type" && k != "description"
  {
    assert "enum"[0] != "items"[0] && "enum"[0] != "minimum"[0] && "enum"[0] != "maximum"[0];
    assert "items"[0] != "minimum"[0] && "items"[0] != "maximum"[0] && "minimum"[1] != "maximum"[1];
  }

  lemma GetBase(base: seq<(string, Json)>, rest: seq<(string, Json)>, p: ToolParameter)
    requires base == [("type", JStr(p.paramType)), ("description", JStr(p.description))]
    ensures Get(base + rest, "type") == Some(JStr(p.paramType))
    ensures Get(base + rest, "description") == Some(JStr(p.description))
    ensures forall k :: k != "type" && k != "description" ==> Get(base + rest, k) == Get(rest, k)
  {
    assert (base + rest)[1..][1..] == rest;
  }

  lemma OptionalGet(present: bool, key: string, value: Json, rest: seq<(string, Json)>, k: string)
    ensures Get(Optional(present, key, value) + rest, k) == if present && k == key then Some(value) else Get(rest, k)
  {
    if present {
      assert (Optional(present, key, value) + rest)[1..] == rest;
    } else {
      assert Optional(present, key, value) + rest == rest;
    }
  }

  /** The `properties` dict: a later parameter with a name already used overwrites it in place. */
  function Properties(ps: seq<ToolParameter>): seq<(string, Json)> {
    if ps == [] then []
    else
      var last := ps[|ps| - 1];
      Set(Properties(ps[..|ps| - 1]), last.name, JObj(PropertyOf(last)))
  }

  /** The `required` list: the required parameters' names. */
  function RequiredNames(ps: seq<ToolParameter>): seq<string> {
    if ps == [] then []
    else
      var last := ps[|ps| - 1];
      RequiredNames(ps[..|ps| - 1]) + (if last.required then [last.name] else [])
  }

  function JsonStrings(names: seq<string>): (js: seq<Json>)
    ensures |js| == |names| && forall k :: 0 <= k < |names| ==> js[k] == JStr(names[k])
  {
    seq(|names|, k requires 0 <= k < |names| => JStr(names[k]))
  }

  /** `Tool.to_openai_format`. */
  function SchemaOf(t: Tool): Json {
    JObj([
      ("type", JStr("function")),
      ("function", JObj([
        ("name", JStr(t.name)),
        ("description", JStr(t.description)),
        ("parameters", JObj([
          ("type", JStr("object")),
          ("properties", JObj(Properties(t.parameters))),
          ("required", JList(JsonStrings(RequiredNames(t.parameters))))]))]))])
  }

  /** Each parameter's entry in `properties` is the schema of the last parameter of that name. */
  lemma {:induction false} PropertiesLastWins(ps: seq<ToolParameter>, i: int)
    requires 0 <= i < |ps| && forall j :: i < j < |ps| ==> ps[j].name != ps[i].name
    ensures Get(Properties(ps), ps[i].name) == Some(JObj(PropertyOf(ps[i])))
    decreases |ps|
  {
    var n := |ps| - 1;
    var init := ps[..n];
    if i == n {
      GetSetSame(Properties(init), ps[n].name, JObj(PropertyOf(ps[n])));
    } else {
      assert init[i] == ps[i];
      PropertiesLastWins(init, i);
      GetSetOther(Properties(init), ps[n].name, JObj(PropertyOf(ps[n])), ps[i].name);
    }
  }

  /** `properties` has a key for exactly the parameters' names. */
  lemma {:induction false} PropertiesKeys(ps: seq<ToolParameter>, name: string)
    ensures Contains(Properties(ps), name) <==> Declares(ps, name)
    decreases |ps|
  {
    if ps != [] {
      var n := |ps| - 1;
      PropertiesKeys(ps[..n], name);
      DeclaresLast(ps, name);
      ContainsSet(Properties(ps[..n]), ps[n].name, JObj(PropertyOf(ps[n])), name);
    }
  }

  /** Some parameter of `ps` is called `name`. */
  predicate Declares(ps: seq<ToolParameter>, name: string) {
    exists i :: 0 <= i < |ps| && ps[i].name == name
  }

  lemma DeclaresLast(ps: seq<ToolParameter>, name: string)
    requires ps != []
    ensures Declares(ps, name) <==> Declares(ps[..|ps| - 1], name) || ps[|ps| - 1].name == name
  {
    var init := ps[..|ps| - 1];
    if Declares(init, name) {
      var i :| 0 <= i < |init| && init[i].name == name;
      assert ps[i].name == name;
    }
    if Declares(ps, name) {
      var i :| 0 <= i < |ps| && ps[i].name == name;
      if i < |init| {
        assert init[i].name == name;
      }
    }
  }

  /** `required` splits along the parameter list: the declaration order is kept. */
  lemma {:induction false} RequiredNamesAppend(a: seq<ToolParameter>, b: seq<ToolParameter>)
    ensures RequiredNames(a + b) == RequiredNames(a) + RequiredNames(b)
    decreases |b|
  {
    if b != [] {
      var n := |b| - 1;
      assert (a + b)[..|a + b| - 1] == a + b[..n];
      RequiredNamesAppend(a, b[..n]);
    } else {
      assert a + b == a;
    }
  }

  /** `required` names exactly the parameters marked required. */
  lemma {:induction false} RequiredNamesExactly(ps: seq<ToolParameter>, name: string)
    ensures name in RequiredNames(ps) <==> exists i :: 0 <= i < |ps| && ps[i].required && ps[i].name == name
    decreases |ps|
  {
    if ps != [] {
      var n := |ps| - 1;
      var init := ps[..n];
      RequiredNamesExactly(init, name);
      if exists i :: 0 <= i < |init| && init[i].required && init[i].name == name {
        var i :| 0 <= i < |init| && init[i].required && init[i].name == name;
        assert ps[i] == init[i];
      }
      if exists i :: 0 <= i < |ps| && ps[i].required && ps[i].name == name {
        var i :| 0 <= i < |ps| && ps[i].required && ps[i].name == name;
        if i < n {
          assert init[i] == ps[i];
        }
      }
    }
  }

  /** `Tool.to_openai_format` as the loop that fills `properties` and `required`. */
  method ToOpenAiSchema(t: Tool) returns (schema: Json)
    ensures schema == SchemaOf(t)
  {
    var ps := t.parameters;
    var properties: seq<(string, Json)> := [];
    var required: seq<string> := [];
    for i := 0 to |ps|
      invariant properties == Properties(ps[..i]) && required == RequiredNames(ps[..i])
    {
      assert ps[..i + 1][..i] == ps[..i];
      properties := Set(properties, ps[i].name, JObj(PropertyOf(ps[i])));
      if ps[i].required {
        required := required + [ps[i].name];
      }
    }
    assert ps[..|ps|] == ps;
    var requiredJson := JsonStrings(required);
    schema := JObj([
      ("type", JStr("function")),
      ("function", JObj([
        ("name", JStr(t.name)),
        ("description", JStr(t.description)),
        ("parameters", JObj([
          ("type", JStr("object")),
          ("properties", JObj(properties)),
          ("required", JList(requiredJson))]))]))]);
  }

  // ----- the registry -----

  function Param(name: string, paramType: string, items: Option<seq<(string, Json)>>): ToolParameter {
    ToolParameter(name, paramType, "", true, None, items, None, None)
  }

  const ToolNames: seq<string> := ["propose_team", "vote_team", "vote_quest", "assassinate", "update_memory", "speak"]

  /** The six built-in tools in registration order; their description texts are left out. */
  const InitialTools: seq<Tool> := [
    Tool("propose_team", "", [Param("team", "array", Some([("type", JStr("integer"))]))]),
    Tool("vote_team", "", [Param("approve", "boolean", None)]),
    Tool("vote_quest", "", [Param("success", "boolean", None)]),
    Tool("assassinate", "", [Param("target", "integer", None)]),
    Tool("update_memory", "", [Param("memory", "string", None)]),
    Tool("speak", "", [Param("content", "string", None)])
  ]

  /** The tools named in `names` that are registered, in the order of `names`. */
  function SelectTools(tools: Dict<string, Tool>, names: seq<string>): seq<Tool> {
    if names == [] then []
    else
      var last := names[|names| - 1];
      SelectTools(tools, names[..|names| - 1]) + (match Get(tools, last) case Some(t) => [t] case None => [])
  }

  /** Selection follows the requested names piece by piece: their order is kept and unknown names are skipped. */
  lemma {:induction false} SelectToolsAppend(tools: Dict<string, Tool>, a: seq<string>, b: seq<string>)
    ensures SelectTools(tools, a + b) == SelectTools(tools, a) + SelectTools(tools, b)
    decreases |b|
  {
    if b != [] {
      var n := |b| - 1;
      assert (a + b)[..|a + b| - 1] == a + b[..n];
      SelectToolsAppend(tools, a, b[..n]);
    } else {
      assert a + b == a;
    }
  }

  /** One requested name gives its tool, or nothing when it is not registered. */
  lemma SelectOne(tools: Dict<string, Tool>, name: string)
    ensures SelectTools(tools, [name]) == if Contains(tools, name) then [Get(tools, name).value] else []
  {
    assert [name][..0] == [];
  }

  function Schemas(ts: seq<Tool>): (r: seq<Json>)
    ensures |r| == |ts| && forall k :: 0 <= k < |ts| ==> r[k] == SchemaOf(ts[k])
  {
    seq(|ts|, k requires 0 <= k < |ts| => SchemaOf(ts[k]))
  }

  /** `get_tools_for_phase`: one tool for each of three phases, none otherwise. */
  function ToolsForPhase(phase: string): (names: seq<string>)
    ensures phase == "team_selection" <==> names == ["propose_team"]
    ensures phase == "team_vote" <==> names == ["vote_team"]
    ensures phase == "quest_execution" <==> names == ["vote_quest"]
    ensures names == [] <==> phase !in {"team_selection", "team_vote", "quest_execution"}
  {
    if phase == "team_selection" then ["propose_team"]
    else if phase == "team_vote" then ["vote_team"]
    else if phase == "quest_execution" then ["vote_quest"]
    else []
  }

  /** `GameTools`: the registered tools, by name, in registration order. */
  class GameTools {
    var tools: Dict<string, Tool>

    ghost predicate Valid() reads this {
      PyDicts.Valid(tools) && forall i :: 0 <= i < |tools| ==> tools[i].1.name == tools[i].0
    }

    /** The built-in tools, registered one after another. */
    constructor()
      ensures Valid() && Keys(tools) == ToolNames && Values(tools) == InitialTools
    {
      tools := [];
      new;
      BuiltInNames();
      RegisterEach(InitialTools);
    }

    /** Registers tools of distinct names in order: each is appended. */
    method RegisterEach(ts: seq<Tool>)
      requires Valid() && tools == [] && forall i, j :: 0 <= i < j < |ts| ==> ts[i].name != ts[j].name
      modifies this
      ensures Valid() && Values(tools) == ts && forall k :: 0 <= k < |ts| ==> Keys(tools)[k] == ts[k].name
      ensures |tools| == |ts|
    {
      for i := 0 to |ts|
        invariant Valid() && |tools| == i
        invariant forall k :: 0 <= k < i ==> tools[k] == (ts[k].name, ts[k])
      {
        assert !Contains(tools, ts[i].name) by {
          forall k | 0 <= k < i ensures Keys(tools)[k] != ts[i].name {}
        }
        SetNewAppends(tools, ts[i].name, ts[i]);
        RegisterTool(ts[i]);
      }
    }

    /** `register_tool`: a new name is appended, a known one overwritten in place. */
    method RegisterTool(t: Tool)
      requires Valid()
      modifies this
      ensures Valid() && tools == Set(old(tools), t.name, t)
    {
      var r := Set(tools, t.name, t);
      SetValid(tools, t.name, t);
      SetEntries(tools, t.name, t);
      forall i | 0 <= i < |r| ensures r[i].1.name == r[i].0 {
        assert r[i] in r;
        if r[i] != (t.name, t) {
          var j :| 0 <= j < |tools| && tools[j] == r[i];
        }
      }
      tools := r;
    }

    /** `unregister_tool`: true and removed exactly when the name was registered. */
    method UnregisterTool(name: string) returns (found: bool)
      requires Valid()
      modifies this
      ensures found == Contains(old(tools), name)
      ensures Valid() && tools == Remove(old(tools), name)
    {
      found := Contains(tools, name);
      RemoveValid(tools, name);
      tools := Remove(tools, name);
    }

    /** `get_tool`. */
    function GetTool(name: string): Option<Tool>
      reads this
    {
      Get(tools, name)
    }

    /** `to_openai_format`: the schemas of the named registered tools, or of all tools when no names are given. */
    function ToOpenAiFormat(names: Option<seq<string>>): seq<Json>
      reads this
    {
      match names
      case None => Schemas(Values(tools))
      case Some(ns) => Schemas(SelectTools(tools, ns))
    }
  }

  /** A registration followed by a lookup gives the tool; other names keep their tools. */
  lemma RegisterThenGet(tools: Dict<string, Tool>, t: Tool, other: string)
    ensures Get(Set(tools, t.name, t), t.name) == Some(t)
    ensures other != t.name ==> Get(Set(tools, t.name, t), other) == Get(tools, other)
  {
    GetSetSame(tools, t.name, t);
    if other != t.name {
      GetSetOther(tools, t.name, t, other);
    }
  }

  /** After an unregistration the name is gone and every other name keeps its tool. */
  lemma UnregisterThenGet(tools: Dict<string, Tool>, name: string, other: string)
    requires Valid(tools)
    ensures !Contains(Remove(tools, name), name)
    ensures other != name ==> Get(Remove(tools, name), other) == Get(tools, other)
  {
    RemoveGet(tools, name, other);
  }

  /** The built-in tools carry the six distinct names, in order. */
  lemma BuiltInNames()
    ensures |InitialTools| == |ToolNames|
    ensures forall k :: 0 <= k < |InitialTools| ==> InitialTools[k].name == ToolNames[k]
    ensures forall i, j :: 0 <= i < j < |ToolNames| ==> ToolNames[i] != ToolNames[j]
  {}

  /** Every tool a phase asks for, and every tool a player calls, is a built-in one. */
  lemma BuiltInsCoverPhasesAndPlayers(phase: string)
    ensures forall n :: n in ToolsForPhase(phase) ==> n in ToolNames
    ensures forall n :: n in ["propose_team", "speak", "vote_team", "vote_quest", "assassinate", "update_memory"] ==> n in ToolNames
  {}
}
