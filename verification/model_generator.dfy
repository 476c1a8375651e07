/** create_models: one model class per swagger definition, one
    GenericParsedGetSetProxy attribute per property. The parsing table
    (model name -> JSON attribute name -> name of the target type) is a
    parameter; writing the file is not modelled, the text is. */
module ModelGenerator {
  import opened Wrappers
  import opened Text
  import RequestLogic

  const Indent := RequestLogic.Indent
  const Superclass := "ThreeCommasModel"

  /** A property's example: a JSON string, or any other JSON value. */
  datatype Example = StringExample(text: string) | OtherExample

  datatype Property = Property(jsonName: string, swaggerType: Option<string>, example: Option<Example>)

  datatype Definition = Definition(name: string, properties: seq<Property>)

  /** PARSING_MAPPING: model name -> JSON attribute name -> target type name. */
  type ParsingMapping = map<string, map<string, string>>

  /** What one generated attribute declares. */
  datatype AttributeDecl = AttributeDecl(
    attributeName: string,
    jsonName: string,
    initialType: Option<string>,
    parsedType: Option<string>)

  /** The Python type for a swagger type; None for an unknown one. */
  function PyTypeName(swaggerType: string): Option<string> {
    match swaggerType
    case "number" => Some("float")
    case "string" => Some("str")
    case "integer" => Some("int")
    case "object" => Some("dict")
    case "array" => Some("list")
    case "boolean" => Some("bool")
    case _ => None
  }

  /** The text an f-string gives for an optional value. */
  function OrNoneText(v: Option<string>): string {
    match v
    case Some(t) => t
    case None => "None"
  }

  /** The shape of \d{4}-\d{2}-\d{2} \d{2}:\d{2}:\d{2}, 'd' for a digit. */
  const DateTimeShape := "dddd-dd-dd dd:dd:dd"

  /** re.match of the date-time pattern: s starts with that shape. */
  predicate StartsWithDateTime(s: string) {
    |s| >= |DateTimeShape| &&
    forall i :: 0 <= i < |DateTimeShape| ==>
      if DateTimeShape[i] == 'd' then IsDigit(s[i]) else s[i] == DateTimeShape[i]
  }

  predicate HasDateTimeExample(p: Property) {
    p.example.Some? && p.example.value.StringExample? && p.example.value.text != ""
    && StartsWithDateTime(p.example.value.text)
  }

  /** The parsed type: datetime for a date-time example, else the parsing
      table's entry, if any. */
  function ParsedTypeFor(modelName: string, p: Property, mapping: ParsingMapping): Option<string> {
    if HasDateTimeExample(p) then Some("datetime")
    else if modelName in mapping && p.jsonName in mapping[modelName] then Some(mapping[modelName][p.jsonName])
    else None
  }

  function AttributeDeclFor(modelName: string, p: Property, mapping: ParsingMapping): AttributeDecl {
    var parsed := ParsedTypeFor(modelName, p, mapping);
    AttributeDecl(
      RemoveChar(p.jsonName, '?'),
      p.jsonName,
      if RequestLogic.Truthy(p.swaggerType) then Some(OrNoneText(PyTypeName(p.swaggerType.value))) else None,
      if RequestLogic.Truthy(parsed) then parsed else None)
  }

  function LineHead(d: AttributeDecl): string {
    Indent + Indent + "self." + d.attributeName + " = GenericParsedGetSetProxy(self, \"" + d.jsonName + "\""
  }

  function InitialPart(d: AttributeDecl): string {
    if d.initialType.Some? then ", t_initial=" + d.initialType.value else ""
  }

  function ParsedPart(d: AttributeDecl): string {
    if d.parsedType.Some? then ", t_parsed=" + d.parsedType.value else ""
  }

  function AttributeLine(d: AttributeDecl): string {
    LineHead(d) + InitialPart(d) + ParsedPart(d) + ")"
  }

  function AttributeLines(modelName: string, props: seq<Property>, mapping: ParsingMapping): seq<string>
    decreases |props|
  {
    if |props| == 0 then []
    else
      AttributeLines(modelName, props[..|props| - 1], mapping)
      + [AttributeLine(AttributeDeclFor(modelName, props[|props| - 1], mapping))]
  }

  function ClassHeader(name: string): seq<string> {
    ["class " + name + "(" + Superclass + "):",
     Indent + "def __init__(self, d: dict = None):",
     Indent + Indent + "super().__init__(d)"]
  }

  function ClassLines(d: Definition, mapping: ParsingMapping): seq<string> {
    ClassHeader(d.name) + AttributeLines(d.name, d.properties, mapping) + ["", ""]
  }

  function ClassesLines(defs: seq<Definition>, mapping: ParsingMapping): seq<string>
    decreases |defs|
  {
    if |defs| == 0 then []
    else ClassesLines(defs[..|defs| - 1], mapping) + ClassLines(defs[|defs| - 1], mapping)
  }

  const FileHeader := [
    "from new_attributes import ThreeCommasModel, GenericParsedGetSetProxy",
    "from datetime import datetime",
    "",
    ""]

  /** The text of the generated models file. */
  function ModelsText(defs: seq<Definition>, mapping: ParsingMapping): string {
    Join(FileHeader + ClassesLines(defs, mapping), "\n")
  }

  /** The body of the property loop: one codeline, extended step by step. */
  /** The parsed type of a property: datetime for a date-time example,
      else the mapping's entry. */
  method FindParsedType(modelName: string, p: Property, mapping: ParsingMapping) returns (parsedType: Option<string>)
    ensures parsedType == ParsedTypeFor(modelName, p, mapping)
  {
    parsedType := None;
    if p.example.Some? && p.example.value.StringExample? && p.example.value.text != "" {
      if StartsWithDateTime(p.example.value.text) {
        parsedType := Some("datetime");
      }
    }
    if parsedType.None? {
      if modelName in mapping && p.jsonName in mapping[modelName] {
        parsedType := Some(mapping[modelName][p.jsonName]);
      }
    }
  }

  method BuildAttributeLine(modelName: string, p: Property, mapping: ParsingMapping) returns (codeline: string)
    ensures codeline == AttributeLine(AttributeDeclFor(modelName, p, mapping))
  {
    var pyType := if p.swaggerType.Some? then PyTypeName(p.swaggerType.value) else None;
    var attributeName := RemoveChar(p.jsonName, '?');
    var parsedType := FindParsedType(modelName, p, mapping);
    ghost var decl := AttributeDeclFor(modelName, p, mapping);
    assert decl.attributeName == attributeName && decl.jsonName == p.jsonName;
    assert decl.initialType == if p.swaggerType.Some? && p.swaggerType.value != "" then Some(OrNoneText(pyType)) else None;
    assert decl.parsedType == if parsedType.Some? && parsedType.value != "" then parsedType else None;
    codeline := Indent + Indent + "self." + attributeName + " = GenericParsedGetSetProxy(self, \"" + p.jsonName + "\"";
    ghost var head := codeline;
    if p.swaggerType.Some? && p.swaggerType.value != "" {
      codeline := codeline + ", t_initial=" + OrNoneText(pyType);
    }
    ghost var initial := codeline;
    if parsedType.Some? && parsedType.value != "" {
      codeline := codeline + ", t_parsed=" + parsedType.value;
    }
    assert head == LineHead(decl) && initial == head + InitialPart(decl) && codeline == initial + ParsedPart(decl);
    codeline := codeline + ")";
  }

  /** The body of the definition loop: the class header, the property
      loop and two blank lines. */
  method BuildClassLines(d: Definition, mapping: ParsingMapping) returns (code: seq<string>)
    ensures code == ClassLines(d, mapping)
  {
    code := [];
    code := code + ["class " + d.name + "(" + Superclass + "):"];
    code := code + [Indent + "def __init__(self, d: dict = None):"];
    code := code + [Indent + Indent + "super().__init__(d)"];
    ghost var header := code;
    assert header == ClassHeader(d.name);
    var j := 0;
    while j < |d.properties|
      invariant 0 <= j <= |d.properties|
      invariant code == header + AttributeLines(d.name, d.properties[..j], mapping)
    {
      var codeline := BuildAttributeLine(d.name, d.properties[j], mapping);
      AttributeLinesStep(d.name, d.properties, j, mapping);
      AppendStep(header, AttributeLines(d.name, d.properties[..j], mapping), [codeline],
                 AttributeLines(d.name, d.properties[..j + 1], mapping));
      code := code + [codeline];
      j := j + 1;
    }
    assert d.properties[..j] == d.properties;
    code := code + [""];
    code := code + [""];
  }

  lemma AttributeLinesStep(modelName: string, props: seq<Property>, j: nat, mapping: ParsingMapping)
    requires j < |props|
    ensures AttributeLines(modelName, props[..j + 1], mapping)
      == AttributeLines(modelName, props[..j], mapping) + [AttributeLine(AttributeDeclFor(modelName, props[j], mapping))]
  {
    assert props[..j + 1][..j] == props[..j];
  }

  lemma ClassesLinesStep(defs: seq<Definition>, i: nat, mapping: ParsingMapping)
    requires i < |defs|
    ensures ClassesLines(defs[..i + 1], mapping) == ClassesLines(defs[..i], mapping) + ClassLines(defs[i], mapping)
  {
    assert defs[..i + 1][..i] == defs[..i];
  }

  /** The loop over the definitions, in document order: each class's lines
      appended to the code list. */
  method AppendClasses(header: seq<string>, defs: seq<Definition>, mapping: ParsingMapping) returns (code: seq<string>)
    ensures code == header + ClassesLines(defs, mapping)
  {
    code := header;
    var i := 0;
    while i < |defs|
      invariant 0 <= i <= |defs|
      invariant code == header + ClassesLines(defs[..i], mapping)
    {
      var lines := BuildClassLines(defs[i], mapping);
      ClassesLinesStep(defs, i, mapping);
      AppendStep(header, ClassesLines(defs[..i], mapping), lines, ClassesLines(defs[..i + 1], mapping));
      code := code + lines;
      i := i + 1;
    }
    assert defs[..i] == defs;
  }

  /** create_models: the file header, then one class per definition. */
  method CreateModels(defs: seq<Definition>, mapping: ParsingMapping) returns (text: string)
    ensures text == ModelsText(defs, mapping)
  {
    var code: seq<string> := [];
    code := code + [FileHeader[0]];
    code := code + [FileHeader[1]];
    code := code + [""];
    code := code + [""];
    assert code == FileHeader;
    code := AppendClasses(code, defs, mapping);
    text := Join(code, "\n");
  }

  lemma {:induction false} AttributeLinesAt(modelName: string, props: seq<Property>, mapping: ParsingMapping, k: nat)
    requires k < |props|
    ensures |AttributeLines(modelName, props, mapping)| == |props|
    ensures AttributeLines(modelName, props, mapping)[k] == AttributeLine(AttributeDeclFor(modelName, props[k], mapping))
    decreases |props|
  {
    var init := props[..|props| - 1];
    if k < |props| - 1 {
      AttributeLinesAt(modelName, init, mapping, k);
    } else if |init| > 0 {
      AttributeLinesAt(modelName, init, mapping, 0);
    }
  }

  /** Every property of a definition gives exactly one attribute line, in
      order, and the class block is framed by its header and two blanks. */
  lemma ClassHasOneLinePerProperty(d: Definition, mapping: ParsingMapping)
    ensures var lines := ClassLines(d, mapping);
      && |lines| == 3 + |d.properties| + 2
      && lines[..3] == ClassHeader(d.name)
      && forall k :: 0 <= k < |d.properties| ==>
           lines[3 + k] == AttributeLine(AttributeDeclFor(d.name, d.properties[k], mapping))
  {
    if |d.properties| == 0 {
      assert AttributeLines(d.name, d.properties, mapping) == [];
    } else {
      AttributeLinesAt(d.name, d.properties, mapping, 0);
    }
    forall k | 0 <= k < |d.properties|
      ensures ClassLines(d, mapping)[3 + k] == AttributeLine(AttributeDeclFor(d.name, d.properties[k], mapping))
    {
      AttributeLinesAt(d.name, d.properties, mapping, k);
    }
  }

  /** The attribute name is the JSON name without any '?'; t_initial is
      declared exactly when the property has a (non-empty) swagger type; a
      date-time string example gives datetime without looking at the
      parsing table, which is consulted only otherwise. */
  lemma AttributeDeclRules(modelName: string, p: Property, mapping: ParsingMapping)
    ensures var d := AttributeDeclFor(modelName, p, mapping);
      && '?' !in d.attributeName
      && ('?' !in p.jsonName ==> d.attributeName == p.jsonName)
      && d.jsonName == p.jsonName
      && (d.initialType.Some? <==> RequestLogic.Truthy(p.swaggerType))
      && (RequestLogic.Truthy(p.swaggerType) && PyTypeName(p.swaggerType.value).Some? ==>
            d.initialType == PyTypeName(p.swaggerType.value))
      && (HasDateTimeExample(p) ==> d.parsedType == Some("datetime"))
      && ((!HasDateTimeExample(p) && modelName in mapping && p.jsonName in mapping[modelName]
            && mapping[modelName][p.jsonName] != "") ==> d.parsedType == Some(mapping[modelName][p.jsonName]))
      && (!HasDateTimeExample(p) && (modelName !in mapping || p.jsonName !in mapping[modelName]) ==>
            d.parsedType.None?)
  {
  }

  /** Only the first nineteen characters of an example decide the match. */
  lemma DateTimeIsPrefixMatch(s: string, t: string)
    requires StartsWithDateTime(s)
    ensures StartsWithDateTime(s + t)
    ensures StartsWithDateTime(s[..|DateTimeShape|])
  {
    assert forall i :: 0 <= i < |DateTimeShape| ==> (s + t)[i] == s[i] && s[..|DateTimeShape|][i] == s[i];
  }

  /** A sanity check on concrete texts, not a partner of any operation: the
      example of the source's comment is a date-time; a bare date is not.
      DateTimeIsPrefixMatch and AttributeDeclRules state the general facts. */
  lemma DateTimeExamples()
    ensures StartsWithDateTime("2018-08-21 08:08:08")
    ensures StartsWithDateTime("2018-08-21 08:08:08.123Z")
    ensures !StartsWithDateTime("2018-08-21")
    ensures !StartsWithDateTime("2018/08/21 08:08:08")
  {
    assert "2018/08/21 08:08:08"[4] == '/';
  }
}
