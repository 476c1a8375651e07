/** generate: walks the swagger paths in document order and, for every HTTP
    verb of a path, emits one endpoint function; the functions are grouped
    by "<version>/<endpoint>" into one module each. Reading the swagger
    document and writing the files are not modelled; the file names and
    texts are. */
module EndpointGenerator {
  import opened Wrappers
  import opened Text
  import opened SwaggerPaths
  import RequestLogic
  import Docstrings
  import ModelGenerator

  const ParentFolder := "../src/three_commas/api"
  const ModelFileName := "../src/three_commas/model/generated_models.py"
  const NotPresentLine := "''' This endpoint was not present in the py3cw module"
  const ClosingQuotes := "'''"

  /** One HTTP verb of a path; an absent description is "". */
  datatype Operation = Operation(verb: string, description: string, parameters: seq<Docstrings.Param>)

  /** A path and its verbs, in document order. */
  datatype PathItem = PathItem(path: string, operations: seq<Operation>)

  datatype SwaggerDoc = SwaggerDoc(paths: seq<PathItem>, definitions: seq<ModelGenerator.Definition>)

  /** What generate derives from a path before its verb loop. */
  datatype PathNames = PathNames(
    version: string,
    endpoint: string,
    subEndpoint: string,
    first: Option<string>,
    parameters: string)

  /** The segments without a '{', in order. */
  function PlainSegments(segments: seq<string>): (r: seq<string>)
    ensures forall i :: 0 <= i < |r| ==> !IsVariableSegment(r[i])
    decreases |segments|
  {
    if |segments| == 0 then []
    else (if IsVariableSegment(segments[0]) then [] else [segments[0]]) + PlainSegments(segments[1..])
  }

  /** The parameter list of a generated function: the first variable, then
      ", " and the second, each only when non-empty. */
  function FunctionParameters(first: Option<string>, second: Option<string>): string {
    (if RequestLogic.Truthy(first) then first.value else "")
    + (if RequestLogic.Truthy(second) then ", " + second.value else "")
  }

  /** The names of a path: the plain segments after the first one are the
      version, the endpoint and the sub-endpoint; popping a missing version
      or endpoint raises IndexError. */
  function NamesFor(path: string): Result<PathNames> {
    var plain := PlainSegments(Split(path, '/'));
    var rest := if |plain| > 0 then plain[1..] else [];
    if |rest| < 2 then Err(IndexError)
    else
      var vars := PathVariables(path);
      Ok(PathNames(rest[0], rest[1], Join(rest[2..], "_"), vars.0, FunctionParameters(vars.0, vars.1)))
  }

  function FunctionName(verb: string, names: PathNames): string {
    verb
    + (if names.subEndpoint != "" then "_" + names.subEndpoint else "")
    + (if RequestLogic.Truthy(names.first) then "_by_" + names.first.value else "")
  }

  function DefLine(verb: string, names: PathNames): string {
    "def " + FunctionName(verb, names) + "(" + names.parameters + "):"
  }

  /** The test generate uses to decide that the request library lacks the endpoint. */
  predicate MentionsPlaceholder(logic: string) {
    Contains(logic, RequestLogic.EntityPlaceholder) || Contains(logic, RequestLogic.ActionPlaceholder)
  }

  /** The code list of one verb from its logic and docstring: the function,
      wrapped in ''' when the request library lacks the endpoint, then three
      blank entries. */
  function CodeLines(names: PathNames, verb: string, logic: string, doc: Option<string>): seq<string> {
    var wrapped := MentionsPlaceholder(logic);
    (if wrapped then [NotPresentLine] else [])
    + [DefLine(verb, names)]
    + (if doc.Some? then [doc.value] else [])
    + [logic]
    + (if wrapped then [ClosingQuotes] else [])
    + ["", "", ""]
  }

  /** The code list of one verb; the logic is built before the docstring,
      so its errors come first. */
  function FunctionCode(names: PathNames, path: string, op: Operation, methods: RequestLogic.ApiMethods): Result<seq<string>> {
    var logic :- RequestLogic.LogicText(op.verb, path, methods);
    var doc :- Docstrings.Docstring(path, op.parameters, op.description, "");
    Ok(CodeLines(names, op.verb, logic, doc))
  }

  function FunctionText(names: PathNames, path: string, op: Operation, methods: RequestLogic.ApiMethods): Result<string> {
    var code :- FunctionCode(names, path, op, methods);
    Ok(Join(code, "\n"))
  }

  function KeyOf(names: PathNames): string {
    names.version + "/" + names.endpoint
  }

  /** structured_code: module key -> the texts appended to it, with the keys
      in first-insertion order. */
  datatype Structured = Structured(keys: seq<string>, chunks: map<string, seq<string>>)

  const EmptyStructured := Structured([], map[])

  ghost predicate ValidStructured(s: Structured) {
    && (forall i, j :: 0 <= i < j < |s.keys| ==> s.keys[i] != s.keys[j])
    && (forall k :: k in s.chunks <==> k in s.keys)
  }

  /** structured_code[key].append(chunk) on a defaultdict(list). */
  function Append(s: Structured, key: string, chunk: string): Structured {
    if key in s.chunks then Structured(s.keys, s.chunks[key := s.chunks[key] + [chunk]])
    else Structured(s.keys + [key], s.chunks[key := [chunk]])
  }

  function ChunksOf(s: Structured, key: string): seq<string> {
    if key in s.chunks then s.chunks[key] else []
  }

  // ---------------------------------------------------------------------
  // generate with one function appended per verb (the intended behaviour)
  // ---------------------------------------------------------------------

  /** The verb loop from operation j on. */
  function AddOperationsFrom(s: Structured, names: PathNames, path: string, ops: seq<Operation>, j: nat,
                             methods: RequestLogic.ApiMethods): Result<Structured>
    requires j <= |ops|
    decreases |ops| - j
  {
    if j == |ops| then Ok(s)
    else
      var text :- FunctionText(names, path, ops[j], methods);
      AddOperationsFrom(Append(s, KeyOf(names), text), names, path, ops, j + 1, methods)
  }

  function AddPath(s: Structured, item: PathItem, methods: RequestLogic.ApiMethods): Result<Structured> {
    var names :- NamesFor(item.path);
    AddOperationsFrom(s, names, item.path, item.operations, 0, methods)
  }

  /** The path loop from path i on. */
  function StructuredFrom(s: Structured, paths: seq<PathItem>, i: nat, methods: RequestLogic.ApiMethods): Result<Structured>
    requires i <= |paths|
    decreases |paths| - i
  {
    if i == |paths| then Ok(s)
    else
      var s' :- AddPath(s, paths[i], methods);
      StructuredFrom(s', paths, i + 1, methods)
  }

  const Imports := Join([
    "from py3cw.request import Py3CW",
    "from models import *",
    "",
    "",
    "wrapper = Py3CW('', '')",
    "",
    "",
    ""], "\n")

  /** ''.join of a list of texts. */
  function Concat(texts: seq<string>): string
    decreases |texts|
  {
    if |texts| == 0 then "" else texts[0] + Concat(texts[1..])
  }

  function ModuleFileName(key: string): string {
    ParentFolder + "/" + key + ".py"
  }

  /** One module per key, in key order: the imports, then its functions. */
  function ModuleFiles(s: Structured): seq<(string, string)>
    requires forall k :: k in s.keys ==> k in s.chunks
  {
    seq(|s.keys|, i requires 0 <= i < |s.keys| => (ModuleFileName(s.keys[i]), Imports + Concat(s.chunks[s.keys[i]])))
  }

  /** Everything generate writes: the models file and the endpoint modules. */
  datatype Output = Output(modelsFile: (string, string), moduleFiles: seq<(string, string)>)

  function GenerateOutput(doc: SwaggerDoc, methods: RequestLogic.ApiMethods, mapping: ModelGenerator.ParsingMapping): Result<Output>
  {
    var s :- StructuredFrom(EmptyStructured, doc.paths, 0, methods);
    StructuredFromValid(EmptyStructured, doc.paths, 0, methods);
    Ok(Output((ModelFileName, ModelGenerator.ModelsText(doc.definitions, mapping)), ModuleFiles(s)))
  }

  lemma AppendValid(s: Structured, key: string, chunk: string)
    requires ValidStructured(s)
    ensures ValidStructured(Append(s, key, chunk))
    ensures Append(s, key, chunk).keys == (if key in s.keys then s.keys else s.keys + [key])
    ensures ChunksOf(Append(s, key, chunk), key) == ChunksOf(s, key) + [chunk]
    ensures forall k :: k != key ==> ChunksOf(Append(s, key, chunk), k) == ChunksOf(s, k)
  {
  }

  lemma {:induction false} AddOperationsValid(s: Structured, names: PathNames, path: string, ops: seq<Operation>, j: nat,
                                              methods: RequestLogic.ApiMethods)
    requires j <= |ops| && ValidStructured(s)
    ensures AddOperationsFrom(s, names, path, ops, j, methods).Ok? ==>
      ValidStructured(AddOperationsFrom(s, names, path, ops, j, methods).value)
    decreases |ops| - j
  {
    if j < |ops| {
      var text := FunctionText(names, path, ops[j], methods);
      if text.Ok? {
        AppendValid(s, KeyOf(names), text.value);
        AddOperationsValid(Append(s, KeyOf(names), text.value), names, path, ops, j + 1, methods);
      }
    }
  }

  lemma {:induction false} StructuredFromValid(s: Structured, paths: seq<PathItem>, i: nat, methods: RequestLogic.ApiMethods)
    requires i <= |paths| && ValidStructured(s)
    ensures StructuredFrom(s, paths, i, methods).Ok? ==> ValidStructured(StructuredFrom(s, paths, i, methods).value)
    decreases |paths| - i
  {
    if i < |paths| {
      var names := NamesFor(paths[i].path);
      if names.Ok? {
        AddOperationsValid(s, names.value, paths[i].path, paths[i].operations, 0, methods);
        var s' := AddPath(s, paths[i], methods);
        if s'.Ok? {
          StructuredFromValid(s'.value, paths, i + 1, methods);
        }
      }
    }
  }

  // ---------------------------------------------------------------------
  // generate as written: the append after the verb loop
  // ---------------------------------------------------------------------

  /** The verb loop as written: every verb overwrites `code`, so after the
      loop it holds the last verb's code, or, for a path without verbs, what
      it held before (nothing at all on the first path). */
  function LastCodeFrom(names: PathNames, path: string, ops: seq<Operation>, j: nat,
                        methods: RequestLogic.ApiMethods, last: Option<seq<string>>): Result<Option<seq<string>>>
    requires j <= |ops|
    decreases |ops| - j
  {
    if j == |ops| then Ok(last)
    else
      var code :- FunctionCode(names, path, ops[j], methods);
      LastCodeFrom(names, path, ops, j + 1, methods, Some(code))
  }

  /** One iteration of the path loop as written: a single append after the
      verb loop, and UnboundLocalError when `code` was never assigned. */
  function AddPathAsWritten(s: Structured, last: Option<seq<string>>, item: PathItem,
                            methods: RequestLogic.ApiMethods): Result<(Structured, Option<seq<string>>)>
  {
    var names :- NamesFor(item.path);
    var code :- LastCodeFrom(names, item.path, item.operations, 0, methods, last);
    if code.None? then Err(UnboundLocalError)
    else Ok((Append(s, KeyOf(names), Join(code.value, "\n")), code))
  }

  function StructuredAsWrittenFrom(s: Structured, last: Option<seq<string>>, paths: seq<PathItem>, i: nat,
                                   methods: RequestLogic.ApiMethods): Result<Structured>
    requires i <= |paths|
    decreases |paths| - i
  {
    if i == |paths| then Ok(s)
    else
      var step :- AddPathAsWritten(s, last, paths[i], methods);
      StructuredAsWrittenFrom(step.0, step.1, paths, i + 1, methods)
  }

  /** generate as written: the written path loop, then the same files. */
  function GenerateOutputAsWritten(doc: SwaggerDoc, methods: RequestLogic.ApiMethods,
                                   mapping: ModelGenerator.ParsingMapping): Result<Output>
  {
    var s :- StructuredAsWrittenFrom(EmptyStructured, None, doc.paths, 0, methods);
    StructuredAsWrittenValid(EmptyStructured, None, doc.paths, 0, methods);
    Ok(Output((ModelFileName, ModelGenerator.ModelsText(doc.definitions, mapping)), ModuleFiles(s)))
  }

  lemma {:induction false} StructuredAsWrittenValid(s: Structured, last: Option<seq<string>>, paths: seq<PathItem>, i: nat,
                                                    methods: RequestLogic.ApiMethods)
    requires i <= |paths| && ValidStructured(s)
    ensures StructuredAsWrittenFrom(s, last, paths, i, methods).Ok? ==>
      ValidStructured(StructuredAsWrittenFrom(s, last, paths, i, methods).value)
    decreases |paths| - i
  {
    if i < |paths| {
      var step := AddPathAsWritten(s, last, paths[i], methods);
      if step.Ok? {
        var names := NamesFor(paths[i].path).value;
        var code := LastCodeFrom(names, paths[i].path, paths[i].operations, 0, methods, last).value;
        AppendValid(s, KeyOf(names), Join(code.value, "\n"));
        StructuredAsWrittenValid(step.value.0, step.value.1, paths, i + 1, methods);
      }
    }
  }

  // ---------------------------------------------------------------------
  // the imperative generate
  // ---------------------------------------------------------------------

  /** function_parameters: the first variable or '', then ", " and the
      second when it is non-empty. */
  method BuildFunctionParameters(first: Option<string>, second: Option<string>) returns (parameters: string)
    ensures parameters == FunctionParameters(first, second)
  {
    parameters := if first.Some? && first.value != "" then first.value else "";
    if second.Some? && second.value != "" {
      parameters := parameters + ", " + second.value;
    }
  }

  /** The names of a path, popped off the filtered segment list. */
  method DerivePathNames(path: string) returns (r: Result<PathNames>)
    ensures r == NamesFor(path)
  {
    var split := Split(path, '/');
    var endpointList := PlainSegments(split);
    endpointList := if |endpointList| > 0 then endpointList[1..] else [];
    ghost var rest := endpointList;
    if |endpointList| == 0 {
      return Err(IndexError);
    }
    var version := endpointList[0];
    endpointList := endpointList[1..];
    if |endpointList| == 0 {
      return Err(IndexError);
    }
    var endpoint := endpointList[0];
    endpointList := endpointList[1..];
    assert endpointList == rest[2..];
    var subEndpoint := if |endpointList| > 0 then Join(endpointList, "_") else "";
    assert subEndpoint == Join(rest[2..], "_");
    var first, second := GetPathVariables(path);
    var parameters := BuildFunctionParameters(first, second);
    assert version == rest[0] && endpoint == rest[1];
    r := Ok(PathNames(version, endpoint, subEndpoint, first, parameters));
  }

  /** The code list assembled entry by entry. */
  method AssembleCode(names: PathNames, verb: string, logic: string, doc: Option<string>) returns (code: seq<string>)
    ensures code == CodeLines(names, verb, logic, doc)
  {
    var functionName := verb
      + (if names.subEndpoint != "" then "_" + names.subEndpoint else "")
      + (if names.first.Some? && names.first.value != "" then "_by_" + names.first.value else "");
    var foundInPy3cw := true;
    if Contains(logic, RequestLogic.EntityPlaceholder) || Contains(logic, RequestLogic.ActionPlaceholder) {
      foundInPy3cw := false;
    }
    ghost var wrapped := MentionsPlaceholder(logic);
    assert foundInPy3cw == !wrapped && functionName == FunctionName(verb, names);
    code := [];
    if !foundInPy3cw {
      code := code + [NotPresentLine];
    }
    code := code + ["def " + functionName + "(" + names.parameters + "):"];
    ghost var head := code;
    assert head == (if wrapped then [NotPresentLine] else []) + [DefLine(verb, names)];
    if doc.Some? {
      code := code + [doc.value];
    }
    code := code + [logic];
    ghost var body := code;
    assert body == head + (if doc.Some? then [doc.value] else []) + [logic];
    if !foundInPy3cw {
      code := code + [ClosingQuotes];
    }
    assert code == body + (if wrapped then [ClosingQuotes] else []);
    code := code + [""];
    code := code + [""];
    code := code + [""];
  }

  /** The body of the verb loop: the code list of one function. The
      docstring step sorts a fresh copy of the verb's parameter list. */
  method BuildFunctionCode(names: PathNames, path: string, op: Operation, methods: RequestLogic.ApiMethods)
    returns (r: Result<seq<string>>)
    ensures r == FunctionCode(names, path, op, methods)
  {
    var logic := RequestLogic.CreateLogic(op.verb, path, methods);
    if logic.Err? {
      return Err(logic.error);
    }
    var parameters := new Docstrings.ParamList(op.parameters);
    var docstring := Docstrings.CreateDocstring(path, parameters, op.description, "");
    if docstring.Err? {
      return Err(docstring.error);
    }
    var code := AssembleCode(names, op.verb, logic.value, docstring.value);
    r := Ok(code);
  }

  /** structured_code[key].append(text) on the defaultdict. */
  method AppendChunk(s: Structured, key: string, text: string) returns (s': Structured)
    ensures s' == Append(s, key, text)
  {
    var keys, chunks := s.keys, s.chunks;
    if key !in chunks {
      keys := keys + [key];
      chunks := chunks[key := []];
    }
    chunks := chunks[key := chunks[key] + [text]];
    s' := Structured(keys, chunks);
    if key in s.chunks {
      assert chunks == s.chunks[key := s.chunks[key] + [text]];
    } else {
      assert [] + [text] == [text];
      assert chunks == s.chunks[key := [text]];
    }
  }

  /** The verb loop of one path, with the append inside it. */
  method AddOperations(s: Structured, names: PathNames, path: string, ops: seq<Operation>, methods: RequestLogic.ApiMethods)
    returns (r: Result<Structured>)
    ensures r == AddOperationsFrom(s, names, path, ops, 0, methods)
  {
    var key := KeyOf(names);
    var structured := s;
    var j := 0;
    while j < |ops|
      invariant 0 <= j <= |ops|
      invariant AddOperationsFrom(structured, names, path, ops, j, methods) == AddOperationsFrom(s, names, path, ops, 0, methods)
    {
      var code := BuildFunctionCode(names, path, ops[j], methods);
      if code.Err? {
        return Err(code.error);
      }
      var text := Join(code.value, "\n");
      structured := AppendChunk(structured, key, text);
      j := j + 1;
    }
    r := Ok(structured);
  }

  /** The path loop of generate, with the append inside the verb loop. */
  method BuildStructured(paths: seq<PathItem>, methods: RequestLogic.ApiMethods) returns (r: Result<Structured>)
    ensures r == StructuredFrom(EmptyStructured, paths, 0, methods)
    ensures r.Ok? ==> ValidStructured(r.value)
  {
    var structured := EmptyStructured;
    var i := 0;
    while i < |paths|
      invariant 0 <= i <= |paths|
      invariant ValidStructured(structured)
      invariant StructuredFrom(structured, paths, i, methods) == StructuredFrom(EmptyStructured, paths, 0, methods)
    {
      var names := DerivePathNames(paths[i].path);
      if names.Err? {
        return Err(names.error);
      }
      var next := AddOperations(structured, names.value, paths[i].path, paths[i].operations, methods);
      if next.Err? {
        return Err(next.error);
      }
      AddOperationsValid(structured, names.value, paths[i].path, paths[i].operations, 0, methods);
      structured := next.value;
      i := i + 1;
    }
    r := Ok(structured);
  }

  /** The module files: each key's imports and functions, in key order. */
  method BuildModuleFiles(structured: Structured) returns (files: seq<(string, string)>)
    requires forall k :: k in structured.keys ==> k in structured.chunks
    ensures files == ModuleFiles(structured)
  {
    files := [];
    var k := 0;
    while k < |structured.keys|
      invariant 0 <= k <= |structured.keys|
      invariant files == ModuleFiles(structured)[..k]
    {
      var key := structured.keys[k];
      files := files + [(ModuleFileName(key), Imports + Concat(structured.chunks[key]))];
      k := k + 1;
    }
  }

  /** generate, with one function appended per verb. */
  method Generate(doc: SwaggerDoc, methods: RequestLogic.ApiMethods, mapping: ModelGenerator.ParsingMapping)
    returns (r: Result<Output>)
    ensures r == GenerateOutput(doc, methods, mapping)
  {
    var structured := BuildStructured(doc.paths, methods);
    if structured.Err? {
      return Err(structured.error);
    }
    var models := ModelGenerator.CreateModels(doc.definitions, mapping);
    var files := BuildModuleFiles(structured.value);
    r := Ok(Output((ModelFileName, models), files));
  }

  // ---------------------------------------------------------------------
  // properties
  // ---------------------------------------------------------------------

  /** The results of f on xs[j..], in order, or the first error. */
  function MapResults<T, U>(f: T -> Result<U>, xs: seq<T>, j: nat): Result<seq<U>>
    requires j <= |xs|
    decreases |xs| - j
  {
    if j == |xs| then Ok([])
    else
      var y :- f(xs[j]);
      var rest :- MapResults(f, xs, j + 1);
      Ok([y] + rest)
  }

  /** A successful MapResults holds one result per element, and element k's
      result at position k - j. */
  lemma {:induction false} MapResultsAt<T, U>(f: T -> Result<U>, xs: seq<T>, j: nat, k: nat)
    requires j <= k < |xs|
    requires MapResults(f, xs, j).Ok?
    ensures |MapResults(f, xs, j).value| == |xs| - j
    ensures f(xs[k]) == Ok(MapResults(f, xs, j).value[k - j])
    decreases |xs| - j
  {
    if k > j {
      MapResultsAt(f, xs, j + 1, k);
    } else if j + 1 < |xs| {
      MapResultsAt(f, xs, j + 1, j + 1);
    }
  }

  /** The text generator of one path's verbs. */
  function VerbText(names: PathNames, path: string, methods: RequestLogic.ApiMethods): Operation -> Result<string> {
    op => FunctionText(names, path, op, methods)
  }

  /** The texts of the verbs from j on, or the first error. */
  function FunctionTexts(names: PathNames, path: string, ops: seq<Operation>, j: nat,
                         methods: RequestLogic.ApiMethods): Result<seq<string>>
    requires j <= |ops|
  {
    MapResults(VerbText(names, path, methods), ops, j)
  }

  /** Append every text to one key, in order. */
  function AppendAll(s: Structured, key: string, texts: seq<string>): Structured
    decreases |texts|
  {
    if |texts| == 0 then s else AppendAll(Append(s, key, texts[0]), key, texts[1..])
  }

  lemma {:induction false} AppendAllChunks(s: Structured, key: string, texts: seq<string>)
    ensures ChunksOf(AppendAll(s, key, texts), key) == ChunksOf(s, key) + texts
    ensures forall other :: other != key ==> ChunksOf(AppendAll(s, key, texts), other) == ChunksOf(s, other)
    decreases |texts|
  {
    if |texts| > 0 {
      AppendAllChunks(Append(s, key, texts[0]), key, texts[1..]);
      assert ChunksOf(Append(s, key, texts[0]), key) == ChunksOf(s, key) + [texts[0]];
      assert [texts[0]] + texts[1..] == texts;
    }
  }

  /** The intended verb loop is: build every verb's text, then append them
      all, in order, to the path's module. */
  lemma {:induction false} AddOperationsAppendsTexts(s: Structured, names: PathNames, path: string, ops: seq<Operation>, j: nat,
                                                     methods: RequestLogic.ApiMethods)
    requires j <= |ops|
    ensures AddOperationsFrom(s, names, path, ops, j, methods)
      == (match FunctionTexts(names, path, ops, j, methods)
          case Err(e) => Err(e)
          case Ok(texts) => Ok(AppendAll(s, KeyOf(names), texts)))
    decreases |ops| - j
  {
    if j < |ops| {
      var text := FunctionText(names, path, ops[j], methods);
      if text.Ok? {
        AddOperationsAppendsTexts(Append(s, KeyOf(names), text.value), names, path, ops, j + 1, methods);
        var rest := FunctionTexts(names, path, ops, j + 1, methods);
        if rest.Ok? {
          assert ([text.value] + rest.value)[1..] == rest.value;
        }
      }
    }
  }

  /** The intended verb loop adds the texts of all verbs to the path's
      module, one per verb, and nothing to the others. */
  lemma OperationsChunks(s: Structured, names: PathNames, path: string, ops: seq<Operation>, methods: RequestLogic.ApiMethods)
    requires AddOperationsFrom(s, names, path, ops, 0, methods).Ok?
    ensures FunctionTexts(names, path, ops, 0, methods).Ok?
    ensures |FunctionTexts(names, path, ops, 0, methods).value| == |ops|
    ensures ChunksOf(AddOperationsFrom(s, names, path, ops, 0, methods).value, KeyOf(names))
      == ChunksOf(s, KeyOf(names)) + FunctionTexts(names, path, ops, 0, methods).value
    ensures forall other :: other != KeyOf(names) ==>
      ChunksOf(AddOperationsFrom(s, names, path, ops, 0, methods).value, other) == ChunksOf(s, other)
  {
    AddOperationsAppendsTexts(s, names, path, ops, 0, methods);
    if |ops| > 0 {
      MapResultsAt(VerbText(names, path, methods), ops, 0, 0);
    }
    var texts := FunctionTexts(names, path, ops, 0, methods).value;
    AppendAllChunks(s, KeyOf(names), texts);
  }

  /** The chunk the intended loop adds for verb k is that verb's function. */
  lemma VerbChunk(s: Structured, names: PathNames, path: string, ops: seq<Operation>, methods: RequestLogic.ApiMethods, k: nat)
    requires AddOperationsFrom(s, names, path, ops, 0, methods).Ok? && k < |ops|
    ensures |ChunksOf(s, KeyOf(names))| + k < |ChunksOf(AddOperationsFrom(s, names, path, ops, 0, methods).value, KeyOf(names))|
    ensures FunctionText(names, path, ops[k], methods)
      == Ok(ChunksOf(AddOperationsFrom(s, names, path, ops, 0, methods).value, KeyOf(names))[|ChunksOf(s, KeyOf(names))| + k])
  {
    OperationsChunks(s, names, path, ops, methods);
    MapResultsAt(VerbText(names, path, methods), ops, 0, k);
    assert VerbText(names, path, methods)(ops[k]) == FunctionText(names, path, ops[k], methods);
    var texts := FunctionTexts(names, path, ops, 0, methods).value;
    ConcatAt(ChunksOf(s, KeyOf(names)), texts, k);
  }

  lemma VerbChunks(s: Structured, names: PathNames, path: string, ops: seq<Operation>, methods: RequestLogic.ApiMethods)
    requires AddOperationsFrom(s, names, path, ops, 0, methods).Ok?
    ensures |ChunksOf(AddOperationsFrom(s, names, path, ops, 0, methods).value, KeyOf(names))| == |ChunksOf(s, KeyOf(names))| + |ops|
    ensures forall k :: 0 <= k < |ops| ==>
      FunctionText(names, path, ops[k], methods)
        == Ok(ChunksOf(AddOperationsFrom(s, names, path, ops, 0, methods).value, KeyOf(names))[|ChunksOf(s, KeyOf(names))| + k])
  {
    OperationsChunks(s, names, path, ops, methods);
    forall k | 0 <= k < |ops|
      ensures FunctionText(names, path, ops[k], methods)
        == Ok(ChunksOf(AddOperationsFrom(s, names, path, ops, 0, methods).value, KeyOf(names))[|ChunksOf(s, KeyOf(names))| + k])
    {
      VerbChunk(s, names, path, ops, methods, k);
    }
  }

  /** The intended verb loop appends one function per verb, in verb order,
      to the path's module and leaves every other module alone. */
  lemma OneFunctionPerVerb(s: Structured, names: PathNames, path: string, ops: seq<Operation>, methods: RequestLogic.ApiMethods)
    requires AddOperationsFrom(s, names, path, ops, 0, methods).Ok?
    ensures var after, before := ChunksOf(AddOperationsFrom(s, names, path, ops, 0, methods).value, KeyOf(names)), ChunksOf(s, KeyOf(names));
      && |after| == |before| + |ops|
      && after[..|before|] == before
      && (forall k :: 0 <= k < |ops| ==> FunctionText(names, path, ops[k], methods) == Ok(after[|before| + k]))
    ensures forall other :: other != KeyOf(names) ==>
      ChunksOf(AddOperationsFrom(s, names, path, ops, 0, methods).value, other) == ChunksOf(s, other)
  {
    OperationsChunks(s, names, path, ops, methods);
    ConcatPrefix(ChunksOf(s, KeyOf(names)), FunctionTexts(names, path, ops, 0, methods).value);
    VerbChunks(s, names, path, ops, methods);
  }

  /** The written verb loop leaves the last verb's code in `code`. */
  lemma {:induction false} LastCodeIsLastVerb(names: PathNames, path: string, ops: seq<Operation>, j: nat,
                                              methods: RequestLogic.ApiMethods, last: Option<seq<string>>)
    requires j <= |ops|
    requires LastCodeFrom(names, path, ops, j, methods, last).Ok?
    ensures var code := LastCodeFrom(names, path, ops, j, methods, last).value;
      && (j == |ops| ==> code == last)
      && (j < |ops| ==> code.Some? && FunctionCode(names, path, ops[|ops| - 1], methods) == Ok(code.value))
    decreases |ops| - j
  {
    if j < |ops| {
      var code := FunctionCode(names, path, ops[j], methods).value;
      LastCodeIsLastVerb(names, path, ops, j + 1, methods, Some(code));
    }
  }

  /** As written, a path adds exactly one function to its module, the one
      of its last verb. */
  lemma OneFunctionPerPathAsWritten(s: Structured, last: Option<seq<string>>, item: PathItem, methods: RequestLogic.ApiMethods)
    requires AddPathAsWritten(s, last, item, methods).Ok?
    ensures var names := NamesFor(item.path).value;
      var step := AddPathAsWritten(s, last, item, methods).value;
      && |ChunksOf(step.0, KeyOf(names))| == |ChunksOf(s, KeyOf(names))| + 1
      && (|item.operations| > 0 ==>
            FunctionText(names, item.path, item.operations[|item.operations| - 1], methods)
              == Ok(ChunksOf(step.0, KeyOf(names))[|ChunksOf(s, KeyOf(names))|]))
  {
    var names := NamesFor(item.path).value;
    LastCodeIsLastVerb(names, item.path, item.operations, 0, methods, last);
  }

  lemma {:induction false} LastCodeOkWhenAllOk(names: PathNames, path: string, ops: seq<Operation>, j: nat,
                                               methods: RequestLogic.ApiMethods, last: Option<seq<string>>)
    requires j <= |ops|
    requires forall k :: j <= k < |ops| ==> FunctionCode(names, path, ops[k], methods).Ok?
    ensures LastCodeFrom(names, path, ops, j, methods, last).Ok?
    decreases |ops| - j
  {
    if j < |ops| {
      var code := FunctionCode(names, path, ops[j], methods);
      assert code.Ok?;
      LastCodeOkWhenAllOk(names, path, ops, j + 1, methods, Some(code.value));
      assert LastCodeFrom(names, path, ops, j, methods, last) == LastCodeFrom(names, path, ops, j + 1, methods, Some(code.value));
    }
  }

  lemma {:induction false} AddOperationsOkWhenAllOk(s: Structured, names: PathNames, path: string, ops: seq<Operation>, j: nat,
                                                    methods: RequestLogic.ApiMethods)
    requires j <= |ops|
    requires forall k :: j <= k < |ops| ==> FunctionCode(names, path, ops[k], methods).Ok?
    ensures AddOperationsFrom(s, names, path, ops, j, methods).Ok?
    decreases |ops| - j
  {
    if j < |ops| {
      var text := FunctionText(names, path, ops[j], methods).value;
      AddOperationsOkWhenAllOk(Append(s, KeyOf(names), text), names, path, ops, j + 1, methods);
    }
  }

  /** The discrepancy: for a path with two or more verbs whose functions can
      all be generated, the written loop adds a single function to the
      module while one per verb is intended, so every verb but the last is
      missing from the output. */
  lemma AsWrittenDropsAllButLastVerb(s: Structured, last: Option<seq<string>>, item: PathItem, methods: RequestLogic.ApiMethods)
    requires NamesFor(item.path).Ok?
    requires |item.operations| >= 2
    requires forall k :: 0 <= k < |item.operations| ==>
      FunctionCode(NamesFor(item.path).value, item.path, item.operations[k], methods).Ok?
    ensures AddPathAsWritten(s, last, item, methods).Ok? && AddPath(s, item, methods).Ok?
    ensures var key := KeyOf(NamesFor(item.path).value);
      && |ChunksOf(AddPathAsWritten(s, last, item, methods).value.0, key)| == |ChunksOf(s, key)| + 1
      && |ChunksOf(AddPath(s, item, methods).value, key)| == |ChunksOf(s, key)| + |item.operations|
      && |ChunksOf(AddPathAsWritten(s, last, item, methods).value.0, key)| < |ChunksOf(AddPath(s, item, methods).value, key)|
  {
    var names := NamesFor(item.path).value;
    LastCodeOkWhenAllOk(names, item.path, item.operations, 0, methods, last);
    LastCodeIsLastVerb(names, item.path, item.operations, 0, methods, last);
    AddOperationsOkWhenAllOk(s, names, item.path, item.operations, 0, methods);
    OneFunctionPerVerb(s, names, item.path, item.operations, methods);
    OneFunctionPerPathAsWritten(s, last, item, methods);
  }

  /** On a path with a single verb, the written and the intended loop
      agree: the same error, or the same module contents. */
  lemma SingleVerbPathAgrees(s: Structured, last: Option<seq<string>>, item: PathItem, methods: RequestLogic.ApiMethods)
    requires |item.operations| == 1
    ensures AddPathAsWritten(s, last, item, methods).Ok? <==> AddPath(s, item, methods).Ok?
    ensures AddPathAsWritten(s, last, item, methods).Err? ==>
      AddPathAsWritten(s, last, item, methods).error == AddPath(s, item, methods).error
    ensures AddPathAsWritten(s, last, item, methods).Ok? ==>
      AddPathAsWritten(s, last, item, methods).value.0 == AddPath(s, item, methods).value
  {
    var names := NamesFor(item.path);
    if names.Ok? {
      var ops := item.operations;
      var code := FunctionCode(names.value, item.path, ops[0], methods);
      if code.Ok? {
        assert LastCodeFrom(names.value, item.path, ops, 1, methods, Some(code.value)) == Ok(Some(code.value));
        assert FunctionText(names.value, item.path, ops[0], methods) == Ok(Join(code.value, "\n"));
        var s' := Append(s, KeyOf(names.value), Join(code.value, "\n"));
        assert AddOperationsFrom(s', names.value, item.path, ops, 1, methods) == Ok(s');
      }
    }
  }

  /** When every path has exactly one verb, generate as written produces
      the intended output: the discrepancy needs a path with another number
      of verbs. */
  lemma {:induction false} AsWrittenAgreesOnSingleVerbPaths(s: Structured, last: Option<seq<string>>, paths: seq<PathItem>,
                                                            i: nat, methods: RequestLogic.ApiMethods)
    requires i <= |paths|
    requires forall k :: i <= k < |paths| ==> |paths[k].operations| == 1
    ensures StructuredAsWrittenFrom(s, last, paths, i, methods) == StructuredFrom(s, paths, i, methods)
    decreases |paths| - i
  {
    if i < |paths| {
      SingleVerbPathAgrees(s, last, paths[i], methods);
      var step := AddPathAsWritten(s, last, paths[i], methods);
      if step.Ok? {
        AsWrittenAgreesOnSingleVerbPaths(step.value.0, step.value.1, paths, i + 1, methods);
      }
    }
  }

  lemma GenerateAsWrittenAgreesOnSingleVerbPaths(doc: SwaggerDoc, methods: RequestLogic.ApiMethods,
                                                 mapping: ModelGenerator.ParsingMapping)
    requires forall k :: 0 <= k < |doc.paths| ==> |doc.paths[k].operations| == 1
    ensures GenerateOutputAsWritten(doc, methods, mapping) == GenerateOutput(doc, methods, mapping)
  {
    AsWrittenAgreesOnSingleVerbPaths(EmptyStructured, None, doc.paths, 0, methods);
  }

  /** As written, a first path without verbs reads `code` before it is
      assigned; the intended loop simply adds nothing. */
  lemma AsWrittenFailsOnVerblessFirstPath(item: PathItem, methods: RequestLogic.ApiMethods)
    requires NamesFor(item.path).Ok? && |item.operations| == 0
    ensures AddPathAsWritten(EmptyStructured, None, item, methods) == Err(UnboundLocalError)
    ensures AddPath(EmptyStructured, item, methods) == Ok(EmptyStructured)
  {
  }

  /** The shape of one function's code list. */
  lemma CodeShape(names: PathNames, verb: string, logic: string, doc: Option<string>)
    ensures var code, wrapped := CodeLines(names, verb, logic, doc), MentionsPlaceholder(logic);
      && |code| == 5 + (if doc.Some? then 1 else 0) + (if wrapped then 2 else 0)
      && code[0] == (if wrapped then NotPresentLine else DefLine(verb, names))
      && code[|code| - 4] == (if wrapped then ClosingQuotes else logic)
      && code[|code| - 3..] == ["", "", ""]
  {
  }

  /** A generated function is commented out exactly when the request
      library lacks its entity or its action: a placeholder in the request
      makes the first entry the "not present" line and closes the quotes
      after the logic; a request free of '<' starts with the def line. */
  lemma WrappedExactlyWhenNotFound(names: PathNames, path: string, op: Operation, methods: RequestLogic.ApiMethods)
    requires FunctionCode(names, path, op, methods).Ok?
    ensures RequestLogic.CallFor(op.verb, path, methods).Ok?
    ensures var c, code := RequestLogic.CallFor(op.verb, path, methods).value, FunctionCode(names, path, op, methods).value;
      && ((c.entity == RequestLogic.EntityPlaceholder || c.action == RequestLogic.ActionPlaceholder) ==>
            code[0] == NotPresentLine && code[|code| - 4] == ClosingQuotes)
      && (('<' !in c.entity && '<' !in c.action
           && (c.actionId.Some? ==> '<' !in c.actionId.value)
           && (c.actionSubId.Some? ==> '<' !in c.actionSubId.value)) ==>
            code[0] == DefLine(op.verb, names))
  {
    var c := RequestLogic.CallFor(op.verb, path, methods).value;
    var logic := RequestLogic.LogicText(op.verb, path, methods).value;
    assert logic == RequestLogic.LogicOf(c);
    var doc := Docstrings.Docstring(path, op.parameters, op.description, "").value;
    RequestLogic.PlaceholderInLogic(c);
    CodeShape(names, op.verb, logic, doc);
  }

  /** Different modules get different files. */
  lemma ModuleFileNameInjective(a: string, b: string)
    requires ModuleFileName(a) == ModuleFileName(b)
    ensures a == b
  {
    var n := |ParentFolder + "/"|;
    var fa, fb := ModuleFileName(a), ModuleFileName(b);
    assert |a| == |b|;
    assert a == fa[n..n + |a|];
    assert b == fb[n..n + |b|];
  }

  /** Every module file is written once, under its own name, and starts with
      the import block. */
  lemma ModuleFilesWellFormed(s: Structured)
    requires ValidStructured(s)
    ensures |ModuleFiles(s)| == |s.keys|
    ensures forall i, j :: 0 <= i < j < |ModuleFiles(s)| ==> ModuleFiles(s)[i].0 != ModuleFiles(s)[j].0
    ensures forall i :: 0 <= i < |ModuleFiles(s)| ==>
      ModuleFiles(s)[i].1[..|Imports|] == Imports && ModuleFiles(s)[i].0 == ModuleFileName(s.keys[i])
  {
    var files := ModuleFiles(s);
    forall i, j | 0 <= i < j < |files|
      ensures files[i].0 != files[j].0
    {
      if files[i].0 == files[j].0 {
        ModuleFileNameInjective(s.keys[i], s.keys[j]);
      }
    }
  }

  /** The segments of every path shaped /version/endpoint/{a}/middle/{b}/last
      (the family of TwoVariablePathNames, not a single example). */
  lemma TwoVariablePlainSegments(version: string, endpoint: string, v1: string, middle: string, v2: string, last: string)
    requires '{' !in version && '{' !in endpoint && '{' !in middle && '{' !in last
    requires '{' in v1 && '{' in v2
    ensures PlainSegments(["", version, endpoint, v1, middle, v2, last]) == ["", version, endpoint, middle, last]
  {
    var parts := ["", version, endpoint, v1, middle, v2, last];
    assert parts[6..][1..] == [] && parts[5..][1..] == parts[6..] && parts[4..][1..] == parts[5..];
    assert parts[3..][1..] == parts[4..] && parts[2..][1..] == parts[3..] && parts[1..][1..] == parts[2..];
    assert PlainSegments(parts[6..]) == [last];
    assert PlainSegments(parts[5..]) == [last];
    assert PlainSegments(parts[4..]) == [middle, last];
    assert PlainSegments(parts[3..]) == [middle, last];
    assert PlainSegments(parts[2..]) == [endpoint, middle, last];
    assert PlainSegments(parts[1..]) == [version, endpoint, middle, last];
  }

  /** The variable segments of the same family of paths. */
  lemma TwoVariableVariableSegments(version: string, endpoint: string, v1: string, middle: string, v2: string, last: string)
    requires '{' !in version && '{' !in endpoint && '{' !in middle && '{' !in last
    requires '{' in v1 && '{' in v2
    ensures VariableSegments(["", version, endpoint, v1, middle, v2, last]) == [v1, v2]
  {
    var parts := ["", version, endpoint, v1, middle, v2, last];
    assert parts[6..][1..] == [] && parts[5..][1..] == parts[6..] && parts[4..][1..] == parts[5..];
    assert parts[3..][1..] == parts[4..] && parts[2..][1..] == parts[3..] && parts[1..][1..] == parts[2..];
    assert VariableSegments(parts[6..]) == [];
    assert VariableSegments(parts[5..]) == [v2];
    assert VariableSegments(parts[4..]) == [v2];
    assert VariableSegments(parts[3..]) == [v1, v2];
    assert VariableSegments(parts[2..]) == [v1, v2];
    assert VariableSegments(parts[1..]) == [v1, v2];
  }

  /** Splitting a path of the family gives back its segments and variables. */
  lemma TwoVariableSplit(version: string, endpoint: string, first: string, middle: string, second: string, last: string)
    requires '/' !in version && '/' !in endpoint && '/' !in middle && '/' !in last
    requires '{' !in version && '{' !in endpoint && '{' !in middle && '{' !in last
    requires '/' !in first && '{' !in first && '}' !in first
    requires '/' !in second && '{' !in second && '}' !in second
    ensures var parts := ["", version, endpoint, "{" + first + "}", middle, "{" + second + "}", last];
      && Split(Join(parts, "/"), '/') == parts
      && PathVariables(Join(parts, "/")) == (Some(first), Some(second))
  {
    var v1, v2 := "{" + first + "}", "{" + second + "}";
    assert v1[0] == '{' && v2[0] == '{';
    assert forall c :: c in v1 ==> c == '{' || c == '}' || c in first;
    assert forall c :: c in v2 ==> c == '{' || c == '}' || c in second;
    var parts := ["", version, endpoint, v1, middle, v2, last];
    SplitJoin(parts, '/');
    TwoVariableVariableSegments(version, endpoint, v1, middle, v2, last);
    StripBracesOfWrapped(first);
    StripBracesOfWrapped(second);
  }

  /** A path with two variables, such as
      /v2/smart_trades/{smart_trade_id}/trades/{id}/close_by_market: the
      module is "<version>/<endpoint>", the function is named after the
      plain segments past the endpoint and the FIRST variable only, and it
      takes both variables. */
  lemma TwoVariablePathNames(version: string, endpoint: string, first: string, middle: string,
                             second: string, last: string, verb: string)
    requires '/' !in version && '/' !in endpoint && '/' !in middle && '/' !in last
    requires '{' !in version && '{' !in endpoint && '{' !in middle && '{' !in last
    requires '/' !in first && '{' !in first && '}' !in first && first != ""
    requires '/' !in second && '{' !in second && '}' !in second && second != ""
    ensures var path := Join(["", version, endpoint, "{" + first + "}", middle, "{" + second + "}", last], "/");
      && NamesFor(path).Ok?
      && KeyOf(NamesFor(path).value) == version + "/" + endpoint
      && FunctionName(verb, NamesFor(path).value) == verb + "_" + middle + "_" + last + "_by_" + first
      && NamesFor(path).value.parameters == first + ", " + second
  {
    var v1, v2 := "{" + first + "}", "{" + second + "}";
    assert v1[0] == '{' && v2[0] == '{';
    TwoVariableSplit(version, endpoint, first, middle, second, last);
    TwoVariablePlainSegments(version, endpoint, v1, middle, v2, last);
    assert Join([middle, last], "_") == middle + "_" + last;
  }
}
