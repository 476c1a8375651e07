/** create_docstring: the docstring of a generated endpoint function. It
    lists the path, the description and one line per parameter, required
    parameters first; the caller's parameter list is sorted in place. */
module Docstrings {
  import opened Wrappers
  import opened Text
  import RequestLogic

  const Indent := RequestLogic.Indent
  const Quotes := Indent + "\"\"\""

  /** A swagger parameter. An absent type or description is "", an absent
      enum is []; enum values are given by their Python repr. */
  datatype Param = Param(
    name: Option<string>,
    paramType: string,
    required: Option<bool>,
    description: string,
    enumValues: seq<string>)

  predicate IsRequired(p: Param) {
    p.required == Some(true)
  }

  /** The required parameters, in their order. */
  function RequiredParams(ps: seq<Param>): (r: seq<Param>)
    ensures forall i :: 0 <= i < |r| ==> IsRequired(r[i])
    decreases |ps|
  {
    if |ps| == 0 then []
    else (if IsRequired(ps[0]) then [ps[0]] else []) + RequiredParams(ps[1..])
  }

  /** The other parameters, in their order. */
  function OptionalParams(ps: seq<Param>): (r: seq<Param>)
    ensures forall i :: 0 <= i < |r| ==> !IsRequired(r[i])
    decreases |ps|
  {
    if |ps| == 0 then []
    else (if IsRequired(ps[0]) then [] else [ps[0]]) + OptionalParams(ps[1..])
  }

  /** parameters.sort(key=lambda p: p.get('required'), reverse=True): a
      stable sort, True keys first. Comparing a missing key (None) with
      anything raises TypeError, and a list of two or more is compared. */
  function SortByRequired(ps: seq<Param>): Result<seq<Param>> {
    if |ps| >= 2 && exists i :: 0 <= i < |ps| && ps[i].required.None? then Err(TypeError)
    else Ok(RequiredParams(ps) + OptionalParams(ps))
  }

  function NameText(name: Option<string>): string {
    match name
    case Some(n) => n
    case None => "None"
  }

  /** str(enum) for a list whose elements have the given reprs. */
  function EnumText(values: seq<string>): string {
    "[" + Join(values, ", ") + "]"
  }

  /** The fields of a parameter line: REQUIRED, type, values, description,
      each only when present. */
  function ParamFields(p: Param): seq<string> {
    (if IsRequired(p) then ["REQUIRED"] else [])
    + (if p.paramType != "" then [p.paramType] else [])
    + (if |p.enumValues| > 0 then ["values: " + EnumText(p.enumValues)] else [])
    + (if p.description != "" then [p.description] else [])
  }

  function ParamLine(p: Param): string {
    Indent + ":param " + NameText(p.name) + ": " + Join(ParamFields(p), ", ")
  }

  function ParamLines(ps: seq<Param>): (lines: seq<string>)
    decreases |ps|
  {
    if |ps| == 0 then [] else ParamLines(ps[..|ps| - 1]) + [ParamLine(ps[|ps| - 1])]
  }

  /** The lines of the docstring for parameters already sorted. */
  function DocstringLines(path: string, sorted: seq<Param>, description: string, returnType: string): seq<string> {
    [Quotes, Indent + path]
    + (if description != "" then [Indent + description, ""] else [])
    + ParamLines(sorted)
    + (if returnType != "" then [Indent + ":return:" + returnType] else [])
    + [Quotes]
  }

  /** What create_docstring returns: None when there is nothing to document,
      TypeError when the sort fails, otherwise the docstring text. */
  function Docstring(path: string, params: seq<Param>, description: string, returnType: string): Result<Option<string>> {
    if |params| == 0 && description == "" then Ok(None)
    else
      var sorted :- if |params| > 0 then SortByRequired(params) else Ok(params);
      Ok(Some(Join(DocstringLines(path, sorted, description, returnType), "\n")))
  }

  /** A caller's list of parameters, which create_docstring sorts in place. */
  class ParamList {
    var items: seq<Param>

    constructor (items: seq<Param>)
      ensures this.items == items
    {
      this.items := items;
    }

    /** list.sort: on success the list holds the sorted parameters; on a
        TypeError it still holds the same parameters in some order. */
    method SortByRequiredInPlace() returns (r: Result<()>)
      modifies this
      ensures r.Ok? <==> SortByRequired(old(items)).Ok?
      ensures r.Ok? ==> items == SortByRequired(old(items)).value
      ensures r.Err? ==> r.error == TypeError
      ensures multiset(items) == multiset(old(items))
    {
      var sorted := SortByRequired(items);
      if sorted.Err? {
        return Err(TypeError);
      }
      SortPermutation(items);
      items := sorted.value;
      r := Ok(());
    }
  }

  /** The body of the parameter loop: the fields of one line, appended one
      by one and joined by ', '. */
  method BuildParamLine(p: Param) returns (line: string)
    ensures line == ParamLine(p)
  {
    var fields: seq<string> := [];
    if p.required == Some(true) {
      fields := fields + ["REQUIRED"];
    }
    if p.paramType != "" {
      fields := fields + [p.paramType];
    }
    if |p.enumValues| > 0 {
      fields := fields + ["values: " + EnumText(p.enumValues)];
    }
    if p.description != "" {
      fields := fields + [p.description];
    }
    assert fields == ParamFields(p);
    line := Indent + ":param " + NameText(p.name) + ": " + Join(fields, ", ");
  }

  /** The loop over the sorted parameters, one line each. */
  method BuildParamLines(ps: seq<Param>) returns (lines: seq<string>)
    ensures lines == ParamLines(ps)
  {
    lines := [];
    var i := 0;
    while i < |ps|
      invariant 0 <= i <= |ps|
      invariant lines == ParamLines(ps[..i])
    {
      var line := BuildParamLine(ps[i]);
      lines := lines + [line];
      assert ps[..i + 1][..i] == ps[..i];
      i := i + 1;
    }
    assert ps[..i] == ps;
  }

  /** The lines create_docstring appends once the parameters are sorted. */
  method BuildDocstringLines(path: string, sorted: seq<Param>, description: string, returnType: string)
    returns (code: seq<string>)
    ensures code == DocstringLines(path, sorted, description, returnType)
  {
    code := [];
    code := code + [Quotes];
    code := code + [Indent + path];
    if description != "" {
      code := code + [Indent + description];
      code := code + [""];
    }
    var lines := BuildParamLines(sorted);
    code := code + lines;
    if returnType != "" {
      code := code + [Indent + ":return:" + returnType];
    }
    code := code + [Quotes];
  }

  /** create_docstring: nothing to document gives None; otherwise the
      caller's list is sorted in place (when non-empty) and the lines are
      joined. */
  method CreateDocstring(path: string, parameters: ParamList, description: string, returnType: string)
    returns (r: Result<Option<string>>)
    modifies parameters
    ensures r == Docstring(path, old(parameters.items), description, returnType)
    ensures r.Ok? && |old(parameters.items)| > 0 ==>
      parameters.items == SortByRequired(old(parameters.items)).value
    ensures |old(parameters.items)| == 0 ==> parameters.items == old(parameters.items)
    ensures multiset(parameters.items) == multiset(old(parameters.items))
  {
    if |parameters.items| == 0 && description == "" {
      return Ok(None);
    }
    if |parameters.items| > 0 {
      var sorting := parameters.SortByRequiredInPlace();
      if sorting.Err? {
        return Err(sorting.error);
      }
    }
    var code := BuildDocstringLines(path, parameters.items, description, returnType);
    r := Ok(Some(Join(code, "\n")));
  }

  /** The first parameter goes to exactly one of the two groups. */
  lemma SplitHead(ps: seq<Param>)
    requires |ps| > 0
    ensures multiset(RequiredParams(ps)) + multiset(OptionalParams(ps))
      == multiset{ps[0]} + (multiset(RequiredParams(ps[1..])) + multiset(OptionalParams(ps[1..])))
  {
    if IsRequired(ps[0]) {
      assert RequiredParams(ps) == [ps[0]] + RequiredParams(ps[1..]);
    } else {
      assert OptionalParams(ps) == [ps[0]] + OptionalParams(ps[1..]);
    }
  }

  lemma MultisetCons<T>(s: seq<T>)
    requires |s| > 0
    ensures multiset(s) == multiset{s[0]} + multiset(s[1..])
  {
    assert s == [s[0]] + s[1..];
  }

  lemma {:induction false} SplitByRequiredCount(ps: seq<Param>)
    ensures multiset(RequiredParams(ps)) + multiset(OptionalParams(ps)) == multiset(ps)
    decreases |ps|
  {
    if |ps| > 0 {
      SplitByRequiredCount(ps[1..]);
      SplitHead(ps);
      MultisetCons(ps);
    }
  }

  lemma {:induction false} RequiredParamsConcat(a: seq<Param>, b: seq<Param>)
    ensures RequiredParams(a + b) == RequiredParams(a) + RequiredParams(b)
    decreases |a|
  {
    if |a| > 0 {
      var ab := a + b;
      assert ab[0] == a[0] && ab[1..] == a[1..] + b;
      RequiredParamsConcat(a[1..], b);
    } else {
      assert a + b == b;
    }
  }

  lemma {:induction false} OptionalParamsConcat(a: seq<Param>, b: seq<Param>)
    ensures OptionalParams(a + b) == OptionalParams(a) + OptionalParams(b)
    decreases |a|
  {
    if |a| > 0 {
      var ab := a + b;
      assert ab[0] == a[0] && ab[1..] == a[1..] + b;
      OptionalParamsConcat(a[1..], b);
    } else {
      assert a + b == b;
    }
  }

  lemma {:induction false} FilterAllRequired(ps: seq<Param>)
    requires forall i :: 0 <= i < |ps| ==> IsRequired(ps[i])
    ensures RequiredParams(ps) == ps && OptionalParams(ps) == []
    decreases |ps|
  {
    if |ps| > 0 {
      FilterAllRequired(ps[1..]);
      assert ps == [ps[0]] + ps[1..];
    }
  }

  lemma {:induction false} FilterNoneRequired(ps: seq<Param>)
    requires forall i :: 0 <= i < |ps| ==> !IsRequired(ps[i])
    ensures RequiredParams(ps) == [] && OptionalParams(ps) == ps
    decreases |ps|
  {
    if |ps| > 0 {
      FilterNoneRequired(ps[1..]);
      assert ps == [ps[0]] + ps[1..];
    }
  }

  /** A successful sort is a permutation of its input. */
  lemma SortPermutation(ps: seq<Param>)
    ensures SortByRequired(ps).Ok? ==> multiset(SortByRequired(ps).value) == multiset(ps)
  {
    SplitByRequiredCount(ps);
  }

  /** A successful sort puts every required parameter before every other
      one and keeps the order within each group (the sort is stable). */
  lemma SortOrderedAndStable(ps: seq<Param>)
    requires SortByRequired(ps).Ok?
    ensures var r := SortByRequired(ps).value;
      && (forall i, j :: 0 <= i < j < |r| && IsRequired(r[j]) ==> IsRequired(r[i]))
      && RequiredParams(r) == RequiredParams(ps)
      && OptionalParams(r) == OptionalParams(ps)
  {
    var req, opt := RequiredParams(ps), OptionalParams(ps);
    var r := req + opt;
    forall i, j | 0 <= i < j < |r| ensures IsRequired(r[j]) ==> IsRequired(r[i]) {
      if i < |req| {
        assert r[i] == req[i];
      } else {
        assert r[j] == opt[j - |req|];
      }
    }
    RequiredParamsConcat(req, opt);
    OptionalParamsConcat(req, opt);
    FilterAllRequired(req);
    FilterNoneRequired(opt);
  }

  /** The sort fails exactly when two or more parameters are given and one
      of them has no 'required' key. */
  lemma SortFails(ps: seq<Param>)
    ensures SortByRequired(ps).Err? <==>
      |ps| >= 2 && exists i :: 0 <= i < |ps| && ps[i].required.None?
  {
  }

  lemma {:induction false} ParamLinesAt(ps: seq<Param>, i: nat)
    requires i < |ps|
    ensures |ParamLines(ps)| == |ps| && ParamLines(ps)[i] == ParamLine(ps[i])
    decreases |ps|
  {
    if i < |ps| - 1 {
      ParamLinesAt(ps[..|ps| - 1], i);
    } else if |ps| > 1 {
      ParamLinesAt(ps[..|ps| - 1], 0);
    }
  }

  /** The docstring is None exactly when there are neither parameters nor a
      description; it fails only when the sort does. */
  lemma DocstringCases(path: string, params: seq<Param>, description: string, returnType: string)
    ensures Docstring(path, params, description, returnType) == Ok(None) <==> |params| == 0 && description == ""
    ensures Docstring(path, params, description, returnType).Err? <==>
      |params| >= 2 && exists i :: 0 <= i < |params| && params[i].required.None?
  {
  }

  /** A documented parameter appears as its own line, after every line of a
      required parameter when it is not required itself. */
  lemma DocstringListsRequiredFirst(path: string, params: seq<Param>, description: string, returnType: string)
    requires |params| > 0
    requires Docstring(path, params, description, returnType).Ok?
    ensures var sorted := SortByRequired(params).value;
      var lines := DocstringLines(path, sorted, description, returnType);
      && Docstring(path, params, description, returnType) == Ok(Some(Join(lines, "\n")))
      && |sorted| == |params|
      && (forall i :: 0 <= i < |params| ==> ParamLine(params[i]) in lines)
      && (forall i, j :: 0 <= i < j < |sorted| && IsRequired(sorted[j]) ==> IsRequired(sorted[i]))
  {
    var sorted := SortByRequired(params).value;
    SortPermutation(params);
    SortOrderedAndStable(params);
    assert |sorted| == |params| by {
      assert |multiset(sorted)| == |multiset(params)|;
    }
    forall i | 0 <= i < |params| ensures ParamLine(params[i]) in DocstringLines(path, sorted, description, returnType) {
      assert params[i] in multiset(params);
      ParamLineInDocstring(path, sorted, description, returnType, params[i]);
    }
  }

  lemma ParamLineInDocstring(path: string, sorted: seq<Param>, description: string, returnType: string, p: Param)
    requires p in sorted
    ensures ParamLine(p) in DocstringLines(path, sorted, description, returnType)
  {
    var k :| 0 <= k < |sorted| && sorted[k] == p;
    ParamLinesAt(sorted, k);
    InMiddle([Quotes, Indent + path] + (if description != "" then [Indent + description, ""] else []),
             ParamLines(sorted),
             (if returnType != "" then [Indent + ":return:" + returnType] else []) + [Quotes], k);
  }

  /** The fields of a parameter line come in the order REQUIRED, type,
      values, description, each present exactly when the parameter has it. */
  lemma ParamFieldsOrder(p: Param)
    ensures var f := ParamFields(p);
      var t := if IsRequired(p) then 1 else 0;
      var e := t + (if p.paramType != "" then 1 else 0);
      var d := e + (if |p.enumValues| > 0 then 1 else 0);
      && |f| == d + (if p.description != "" then 1 else 0)
      && (IsRequired(p) ==> f[0] == "REQUIRED")
      && (p.paramType != "" ==> f[t] == p.paramType)
      && (|p.enumValues| > 0 ==> f[e] == "values: " + EnumText(p.enumValues))
      && (p.description != "" ==> f[d] == p.description)
  {
  }
}
