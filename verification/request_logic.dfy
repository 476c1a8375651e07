/** create_logic: the body of a generated endpoint function, a call of the
    request library addressed by (entity, action, action_id, action_sub_id).
    The library's API_METHODS table is a parameter: for every entity, its
    actions in table order with the HTTP verb and sub-path of each. */
module RequestLogic {
  import opened Wrappers
  import opened Text
  import opened SwaggerPaths

  const Indent := "    "
  const EntityPlaceholder := "<py3cw_entity>"
  const ActionPlaceholder := "<py3cw_action>"
  /** The entity every v2 path is addressed to. */
  const SmartTradesV2 := "smart_trades_v2"

  /** One entry of an entity's action table: action name -> (verb, sub-path). */
  datatype ActionEntry = ActionEntry(action: string, verb: string, subPath: string)

  /** The request library's API_METHODS: entity name -> its actions, in order. */
  type ApiMethods = map<string, seq<ActionEntry>>

  /** Python truthiness of an optional string: present and non-empty. */
  predicate Truthy(v: Option<string>) {
    v.Some? && v.value != ""
  }

  /** The request descriptor a generated function sends. */
  datatype RequestCall = RequestCall(
    entity: string,
    action: string,
    actionId: Option<string>,
    actionSubId: Option<string>)

  /** The table key used for a path: every v2 path goes to smart_trades_v2. */
  function ResolvedEndpoint(version: string, endpoint: string): string {
    if version == "v2" then SmartTradesV2 else endpoint
  }

  function EntityFor(methods: ApiMethods, endpoint: string): string {
    if endpoint in methods then endpoint else EntityPlaceholder
  }

  predicate Matches(entry: ActionEntry, verb: string, subPath: string) {
    Upper(verb) == entry.verb && subPath == entry.subPath
  }

  /** The action of the last entry matching (verb, sub-path), if any. */
  function LastMatch(entries: seq<ActionEntry>, verb: string, subPath: string): Option<string>
    decreases |entries|
  {
    if |entries| == 0 then None
    else if Matches(entries[|entries| - 1], verb, subPath) then Some(entries[|entries| - 1].action)
    else LastMatch(entries[..|entries| - 1], verb, subPath)
  }

  function OrActionPlaceholder(a: Option<string>): string {
    match a
    case Some(name) => name
    case None => ActionPlaceholder
  }

  function ActionFor(methods: ApiMethods, endpoint: string, verb: string, subPath: string): string {
    if endpoint in methods then OrActionPlaceholder(LastMatch(methods[endpoint], verb, subPath))
    else ActionPlaceholder
  }

  /** The descriptor create_logic emits for one verb of a path; an
      IndexError when the path lacks a version or an endpoint segment. */
  function CallFor(verb: string, path: string, methods: ApiMethods): Result<RequestCall> {
    var vars := PathVariables(path);
    var version :- ApiVersion(path);
    var endpoint :- MajorEndpoint(path);
    var resolved := ResolvedEndpoint(version, endpoint);
    Ok(RequestCall(
      EntityFor(methods, resolved),
      ActionFor(methods, resolved, verb, SubPath(path)),
      if Truthy(vars.0) then vars.0 else None,
      if Truthy(vars.1) then vars.1 else None))
  }

  function EntityLine(entity: string): string {
    Indent + Indent + "entity='" + entity + "',"
  }

  function ActionLine(action: string): string {
    Indent + Indent + "action='" + action + "',"
  }

  function ActionIdLine(id: string): string {
    Indent + Indent + "action_id=str(" + id + "),"
  }

  function ActionSubIdLine(id: string): string {
    Indent + Indent + "action_sub_id=str(" + id + "),"
  }

  const OpenLine := Indent + "error, data = wrapper.request("
  const CloseLine := Indent + ")"
  const ReturnLine := Indent + "return ThreeCommasError(error), data"

  /** The lines of the emitted request call. */
  function CallLines(c: RequestCall): seq<string> {
    [OpenLine, EntityLine(c.entity), ActionLine(c.action)]
    + (if c.actionId.Some? then [ActionIdLine(c.actionId.value)] else [])
    + (if c.actionSubId.Some? then [ActionSubIdLine(c.actionSubId.value)] else [])
    + [CloseLine, ReturnLine]
  }

  function LogicOf(c: RequestCall): string {
    Join(CallLines(c), "\n")
  }

  /** The text create_logic returns. */
  function LogicText(verb: string, path: string, methods: ApiMethods): Result<string> {
    var c :- CallFor(verb, path, methods);
    Ok(LogicOf(c))
  }

  /** The loop over an entity's actions: the last matching key wins. */
  method FindAction(entries: seq<ActionEntry>, verb: string, subPath: string) returns (action: string)
    ensures action == OrActionPlaceholder(LastMatch(entries, verb, subPath))
  {
    action := ActionPlaceholder;
    var i := 0;
    while i < |entries|
      invariant 0 <= i <= |entries|
      invariant action == OrActionPlaceholder(LastMatch(entries[..i], verb, subPath))
    {
      if Upper(verb) == entries[i].verb && subPath == entries[i].subPath {
        action := entries[i].action;
      }
      assert entries[..i + 1][..i] == entries[..i];
      i := i + 1;
    }
    assert entries[..i] == entries;
  }

  /** The first half of create_logic: the path variables, the entity and
      the action the call is addressed with. */
  method ChooseCall(verb: string, path: string, methods: ApiMethods) returns (r: Result<RequestCall>)
    ensures r == CallFor(verb, path, methods)
  {
    var first, second := GetPathVariables(path);
    var version := ApiVersion(path);
    if version.Err? {
      return Err(version.error);
    }
    var endpoint := MajorEndpoint(path);
    if endpoint.Err? {
      return Err(endpoint.error);
    }
    var subPath := SubPath(path);
    var key := endpoint.value;
    if version.value == "v2" {
      key := SmartTradesV2;
    }
    var entity := EntityPlaceholder;
    if key in methods {
      entity := key;
    }
    var action := ActionPlaceholder;
    if key in methods && |methods[key]| > 0 {
      action := FindAction(methods[key], verb, subPath);
    }
    r := Ok(RequestCall(entity, action,
      if first.Some? && first.value != "" then first else None,
      if second.Some? && second.value != "" then second else None));
  }

  /** The second half of create_logic: the lines of the call, appended one
      by one. */
  method EmitCallLines(c: RequestCall) returns (code: seq<string>)
    ensures code == CallLines(c)
  {
    code := [];
    code := code + [OpenLine];
    code := code + [EntityLine(c.entity)];
    code := code + [ActionLine(c.action)];
    if c.actionId.Some? {
      code := code + [ActionIdLine(c.actionId.value)];
    }
    if c.actionSubId.Some? {
      code := code + [ActionSubIdLine(c.actionSubId.value)];
    }
    code := code + [CloseLine];
    code := code + [ReturnLine];
  }

  /** create_logic: the text of the request call for one verb of a path. */
  method CreateLogic(verb: string, path: string, methods: ApiMethods) returns (r: Result<string>)
    ensures r == LogicText(verb, path, methods)
  {
    var call := ChooseCall(verb, path, methods);
    if call.Err? {
      return Err(call.error);
    }
    var code := EmitCallLines(call.value);
    r := Ok(Join(code, "\n"));
  }

  /** LastMatch finds the last entry whose verb is the upper-cased verb and
      whose sub-path is the given one, and nothing when none does. */
  lemma {:induction false} LastMatchSpec(entries: seq<ActionEntry>, verb: string, subPath: string)
    ensures LastMatch(entries, verb, subPath).None? <==>
      forall i :: 0 <= i < |entries| ==> !Matches(entries[i], verb, subPath)
    ensures LastMatch(entries, verb, subPath).Some? ==>
      exists i :: 0 <= i < |entries| && Matches(entries[i], verb, subPath) &&
        entries[i].action == LastMatch(entries, verb, subPath).value &&
        forall j :: i < j < |entries| ==> !Matches(entries[j], verb, subPath)
    decreases |entries|
  {
    if |entries| > 0 {
      var n := |entries| - 1;
      var init := entries[..n];
      LastMatchSpec(init, verb, subPath);
      assert forall i :: 0 <= i < n ==> entries[i] == init[i];
    }
  }

  /** The entity is forced to smart_trades_v2 for every v2 path, is the
      endpoint when the table knows it, and is the placeholder otherwise. */
  lemma EntityChoice(verb: string, path: string, methods: ApiMethods)
    requires CallFor(verb, path, methods).Ok?
    ensures var c, version, endpoint :=
        CallFor(verb, path, methods).value, ApiVersion(path).value, MajorEndpoint(path).value;
      && (version == "v2" && SmartTradesV2 in methods ==> c.entity == SmartTradesV2)
      && (version != "v2" && endpoint in methods ==> c.entity == endpoint)
      && (c.entity in methods || c.entity == EntityPlaceholder)
      && (EntityPlaceholder !in methods && c.entity == EntityPlaceholder ==>
            (if version == "v2" then SmartTradesV2 else endpoint) !in methods)
    ensures ResolvedEndpoint(ApiVersion(path).value, MajorEndpoint(path).value) !in methods ==>
      CallFor(verb, path, methods).value.entity == EntityPlaceholder
  {
  }

  /** The action is the last table entry of the entity with the upper-cased
      verb and the path's sub-path; with no such entry it is the placeholder. */
  lemma ActionChoice(verb: string, path: string, methods: ApiMethods)
    requires CallFor(verb, path, methods).Ok?
    ensures var c := CallFor(verb, path, methods).value;
      var entries := if c.entity in methods then methods[c.entity] else [];
      && ((c.entity in methods && forall i :: 0 <= i < |entries| ==> !Matches(entries[i], verb, SubPath(path)))
            ==> c.action == ActionPlaceholder)
      && (c.entity !in methods ==> c.action == ActionPlaceholder)
      && (c.action != ActionPlaceholder ==>
            exists i :: 0 <= i < |entries| &&
              Matches(entries[i], verb, SubPath(path)) && entries[i].action == c.action &&
              forall j :: i < j < |entries| ==> !Matches(entries[j], verb, SubPath(path)))
    ensures var c, resolved := CallFor(verb, path, methods).value, ResolvedEndpoint(ApiVersion(path).value, MajorEndpoint(path).value);
      resolved in methods && (exists i :: 0 <= i < |methods[resolved]| && Matches(methods[resolved][i], verb, SubPath(path))) ==>
        exists i :: 0 <= i < |methods[resolved]| &&
          Matches(methods[resolved][i], verb, SubPath(path)) && methods[resolved][i].action == c.action &&
          forall j :: i < j < |methods[resolved]| ==> !Matches(methods[resolved][j], verb, SubPath(path))
  {
    var c := CallFor(verb, path, methods).value;
    var version, endpoint := ApiVersion(path).value, MajorEndpoint(path).value;
    var resolved := ResolvedEndpoint(version, endpoint);
    if resolved in methods {
      assert c.entity == resolved;
      LastMatchSpec(methods[resolved], verb, SubPath(path));
    } else if EntityPlaceholder in methods {
      assert c.action == ActionPlaceholder;
    }
  }

  /** The first path variable, when non-empty, is always the action_id and
      the second the action_sub_id. */
  lemma PathVariablesBecomeIds(verb: string, path: string, methods: ApiMethods)
    requires CallFor(verb, path, methods).Ok?
    ensures var c, vars := CallFor(verb, path, methods).value, PathVariables(path);
      && (c.actionId.Some? <==> Truthy(vars.0))
      && (c.actionId.Some? ==> c.actionId == vars.0)
      && (c.actionSubId.Some? <==> Truthy(vars.1))
      && (c.actionSubId.Some? ==> c.actionSubId == vars.1)
  {
  }

  /** The emitted call holds an action_id line exactly when the descriptor
      has an action id, and that line names it; the same for action_sub_id. */
  lemma IdLines(c: RequestCall, v: string)
    ensures ActionIdLine(v) in CallLines(c) <==> c.actionId == Some(v)
    ensures ActionSubIdLine(v) in CallLines(c) <==> c.actionSubId == Some(v)
  {
    var lines := CallLines(c);
    var idLine, subLine := ActionIdLine(v), ActionSubIdLine(v);
    assert idLine[8] == 'a' && idLine[14] == '_' && idLine[15] == 'i' && idLine[4] == ' ';
    assert subLine[8] == 'a' && subLine[14] == '_' && subLine[15] == 's' && subLine[4] == ' ';
    assert OpenLine[4] == 'e' && CloseLine == "    )" && ReturnLine[4] == 'r';
    assert EntityLine(c.entity)[8] == 'e';
    assert ActionLine(c.action)[14] == '=';
    if c.actionId.Some? {
      var w := c.actionId.value;
      assert ActionIdLine(w)[15] == 'i';
      if ActionIdLine(w) == idLine {
        assert w == ActionIdLine(w)[22..|ActionIdLine(w)| - 2];
        assert v == idLine[22..|idLine| - 2];
      }
      assert ActionIdLine(w) != subLine;
    }
    if c.actionSubId.Some? {
      var w := c.actionSubId.value;
      assert ActionSubIdLine(w)[15] == 's';
      if ActionSubIdLine(w) == subLine {
        assert w == ActionSubIdLine(w)[26..|ActionSubIdLine(w)| - 2];
        assert v == subLine[26..|subLine| - 2];
      }
    }
  }

  /** A line of the call shows up in the joined text as a substring. */
  lemma LineInLogic(c: RequestCall, k: nat, before: string, name: string, after: string)
    requires k < |CallLines(c)| && CallLines(c)[k] == before + name + after
    ensures Contains(LogicOf(c), name)
  {
    var lines := CallLines(c);
    JoinedPartInJoin(lines, "\n", k);
    var a, b :| LogicOf(c) == a + lines[k] + b;
    Regroup(a, before, name, after, b);
    ContainsMiddle(a + before, name, after + b);
  }

  /** With no '<' in any name of the descriptor, the text holds no '<'. */
  lemma NoAngleInLogic(c: RequestCall)
    requires '<' !in c.entity && '<' !in c.action
    requires c.actionId.Some? ==> '<' !in c.actionId.value
    requires c.actionSubId.Some? ==> '<' !in c.actionSubId.value
    ensures '<' !in LogicOf(c)
  {
    CallLinesWithoutAngle(c);
    NoCharInJoin(CallLines(c), "\n", '<');
  }

  lemma CallLinesWithoutAngle(c: RequestCall)
    requires '<' !in c.entity && '<' !in c.action
    requires c.actionId.Some? ==> '<' !in c.actionId.value
    requires c.actionSubId.Some? ==> '<' !in c.actionSubId.value
    ensures forall i :: 0 <= i < |CallLines(c)| ==> '<' !in CallLines(c)[i]
  {
    NamedLinesWithoutAngle(c);
    FixedLinesWithoutAngle();
    NoCharInPieces([OpenLine, EntityLine(c.entity), ActionLine(c.action)],
                   if c.actionId.Some? then [ActionIdLine(c.actionId.value)] else [],
                   if c.actionSubId.Some? then [ActionSubIdLine(c.actionSubId.value)] else [],
                   [CloseLine, ReturnLine], '<');
  }

  lemma FixedLinesWithoutAngle()
    ensures '<' !in OpenLine && '<' !in CloseLine && '<' !in ReturnLine
  {
  }

  lemma NamedLinesWithoutAngle(c: RequestCall)
    requires '<' !in c.entity && '<' !in c.action
    requires c.actionId.Some? ==> '<' !in c.actionId.value
    requires c.actionSubId.Some? ==> '<' !in c.actionSubId.value
    ensures '<' !in EntityLine(c.entity) && '<' !in ActionLine(c.action)
    ensures c.actionId.Some? ==> '<' !in ActionIdLine(c.actionId.value)
    ensures c.actionSubId.Some? ==> '<' !in ActionSubIdLine(c.actionSubId.value)
  {
  }

  /** A placeholder entity or action shows in the emitted text; when no
      name in the descriptor holds a '<', neither placeholder does. */
  lemma PlaceholderInLogic(c: RequestCall)
    ensures c.entity == EntityPlaceholder ==> Contains(LogicOf(c), EntityPlaceholder)
    ensures c.action == ActionPlaceholder ==> Contains(LogicOf(c), ActionPlaceholder)
    ensures ('<' !in c.entity && '<' !in c.action
        && (c.actionId.Some? ==> '<' !in c.actionId.value)
        && (c.actionSubId.Some? ==> '<' !in c.actionSubId.value)) ==>
      !Contains(LogicOf(c), EntityPlaceholder) && !Contains(LogicOf(c), ActionPlaceholder)
  {
    if c.entity == EntityPlaceholder {
      LineInLogic(c, 1, Indent + Indent + "entity='", EntityPlaceholder, "',");
    }
    if c.action == ActionPlaceholder {
      LineInLogic(c, 2, Indent + Indent + "action='", ActionPlaceholder, "',");
    }
    if '<' !in c.entity && '<' !in c.action
      && (c.actionId.Some? ==> '<' !in c.actionId.value)
      && (c.actionSubId.Some? ==> '<' !in c.actionSubId.value)
    {
      NoAngleInLogic(c);
      NotContainsWithoutHead(LogicOf(c), EntityPlaceholder);
      NotContainsWithoutHead(LogicOf(c), ActionPlaceholder);
    }
  }
}
