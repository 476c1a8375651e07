/** The model runtime: the parsing decorators the generated getters use, the
    dictionary the API answers are wrapped in, and the proxy through which a
    model's attributes are read and written. Python callables are function
    values here; a conversion that raises is one that returns Err. The
    auto-parse defaults of the configuration are parameters. */
module Models {
  import opened Wrappers

  /** The strptime pattern of parsed_timestamp. */
  const DatetimePattern := "%Y-%m-%dT%H:%M:%S.%fZ"

  /** What a decorated getter hands back: nothing (the getter gave None), the
      raw value, the converted value, or the converted elements of a list. */
  datatype Read<V, P> = Nothing | Raw(raw: V) | Converted(value: P) | ConvertedList(values: seq<P>)

  /** The getter's own answer, unconverted. */
  function AsRead<V, P>(result: Option<V>): Read<V, P> {
    if result.None? then Nothing else Raw(result.value)
  }

  /** The flag a call uses: the caller's, or the configured default when
      the caller passed None. */
  function EffectiveFlag(parsed: Option<bool>, autoParseDefault: bool): bool {
    if parsed.None? then autoParseDefault else parsed.value
  }

  // ---------------------------------------------------------------------
  // parsed and parsed_timestamp
  // ---------------------------------------------------------------------

  /** ThreeCommasParser.parsed(t): a None answer stays None; otherwise t is
      applied when the effective flag is set. */
  function Parsed<V, P>(result: Option<V>, parsed: Option<bool>, autoParseDefault: bool, t: V -> Result<P>): Result<Read<V, P>> {
    if result.None? then Ok(Nothing)
    else if !EffectiveFlag(parsed, autoParseDefault) then Ok(Raw(result.value))
    else
      var value :- t(result.value);
      Ok(Converted(value))
  }

  /** ThreeCommasParser.parsed_timestamp: the same decision with the
      date-time default, converting with strptime and DatetimePattern. */
  function ParsedTimestamp<P>(timestamp: Option<string>, parsed: Option<bool>, autoParseDatetimeDefault: bool,
                              strptime: (string, string) -> Result<P>): Result<Read<string, P>> {
    if timestamp.None? then Ok(Nothing)
    else
      var flag := if parsed.None? then autoParseDatetimeDefault else parsed.value;
      if flag then
        var value :- strptime(timestamp.value, DatetimePattern);
        Ok(Converted(value))
      else Ok(Raw(timestamp.value))
  }

  /** The outcomes of parsed: nothing for a None answer whatever the flag,
      the raw answer exactly when the effective flag is off, and otherwise
      the conversion's value or its error. */
  lemma ParsedOutcomes<V, P>(result: Option<V>, parsed: Option<bool>, autoParseDefault: bool, t: V -> Result<P>)
    ensures Parsed(result, parsed, autoParseDefault, t) == Ok(Nothing) <==> result.None?
    ensures (Parsed(result, parsed, autoParseDefault, t).Ok? && Parsed(result, parsed, autoParseDefault, t).value.Raw?)
        <==> (result.Some? && !EffectiveFlag(parsed, autoParseDefault))
    ensures result.Some? && EffectiveFlag(parsed, autoParseDefault) ==>
      (match t(result.value)
       case Ok(p) => Parsed(result, parsed, autoParseDefault, t) == Ok(Converted(p))
       case Err(e) => Parsed(result, parsed, autoParseDefault, t) == Err(e))
  {
  }

  /** Passing parsed=None is passing the configured default. */
  lemma ParsedNoneMeansDefault<V, P>(result: Option<V>, autoParseDefault: bool, t: V -> Result<P>)
    ensures Parsed(result, None, autoParseDefault, t) == Parsed(result, Some(autoParseDefault), autoParseDefault, t)
  {
  }

  /** parsed_timestamp is parsed with strptime on the fixed pattern. */
  lemma TimestampIsParsed<P>(timestamp: Option<string>, parsed: Option<bool>, autoParseDatetimeDefault: bool,
                             strptime: (string, string) -> Result<P>)
    ensures ParsedTimestamp(timestamp, parsed, autoParseDatetimeDefault, strptime)
      == Parsed(timestamp, parsed, autoParseDatetimeDefault, s => strptime(s, DatetimePattern))
  {
  }

  // ---------------------------------------------------------------------
  // lazy_parsed
  // ---------------------------------------------------------------------

  /** The type a lazy getter converts to: a plain type, or typing.List[E],
      whose elements are converted one by one. */
  datatype Target<!V, P> = Scalar(t: V -> Result<P>) | ListOf(elem: V -> Result<P>)

  /** [elem_type(elem) for elem in values]: every element converted in
      order; the first element whose conversion raises ends the
      comprehension with that error. */
  function ConvertAll<V, P>(elem: V -> Result<P>, values: seq<V>): (r: Result<seq<P>>)
    ensures r.Ok? ==> |r.value| == |values| && forall i :: 0 <= i < |values| ==> elem(values[i]) == Ok(r.value[i])
    ensures r.Err? <==> exists i :: 0 <= i < |values| && elem(values[i]).Err?
    ensures r.Err? ==> exists i :: (0 <= i < |values| && elem(values[i]) == Err(r.error)
      && forall j :: 0 <= j < i ==> elem(values[j]).Ok?)
    decreases |values|
  {
    if |values| == 0 then Ok([])
    else
      var head :- elem(values[0]);
      var tail := ConvertAll(elem, values[1..]);
      if tail.Err? then
        ghost var i :| 0 <= i < |values[1..]| && elem(values[1..][i]) == Err(tail.error)
          && forall j :: 0 <= j < i ==> elem(values[1..][j]).Ok?;
        assert elem(values[i + 1]) == Err(tail.error);
        Err(tail.error)
      else Ok([head] + tail.value)
  }

  /** ThreeCommasParser.lazy_parsed(t): parsed defaults to True; a None
      answer stays None; a list target iterates the answer, which raises
      TypeError when the answer is not iterable (`elements` gives the
      elements of an iterable answer and None otherwise). */
  function LazyParsed<V, P>(result: Option<V>, parsed: bool, target: Target<V, P>, elements: V -> Option<seq<V>>): Result<Read<V, P>> {
    if result.None? then Ok(Nothing)
    else if !parsed then Ok(Raw(result.value))
    else match target
      case Scalar(t) =>
        var value :- t(result.value);
        Ok(Converted(value))
      case ListOf(elem) =>
        var values := elements(result.value);
        if values.None? then Err(TypeError)
        else
          var converted :- ConvertAll(elem, values.value);
          Ok(ConvertedList(converted))
  }

  /** On a plain type, lazy_parsed is parsed with the flag always given. */
  lemma LazyScalarIsParsed<V, P>(result: Option<V>, parsed: bool, t: V -> Result<P>, elements: V -> Option<seq<V>>,
                                 autoParseDefault: bool)
    ensures LazyParsed(result, parsed, Scalar(t), elements) == Parsed(result, Some(parsed), autoParseDefault, t)
  {
  }

  /** On a list type, lazy_parsed gives one converted element per element
      of the answer, in order, or the error of the first one that fails. */
  lemma LazyListOutcomes<V, P>(result: V, elem: V -> Result<P>, elements: V -> Option<seq<V>>)
    ensures var r := LazyParsed(Some(result), true, ListOf(elem), elements);
      && (elements(result).None? ==> r == Err(TypeError))
      && (elements(result).Some? && r.Ok? ==>
            r.value.ConvertedList? && |r.value.values| == |elements(result).value|
            && forall i :: 0 <= i < |r.value.values| ==> elem(elements(result).value[i]) == Ok(r.value.values[i]))
      && (elements(result).Some? ==>
            (r.Err? <==> exists i :: 0 <= i < |elements(result).value| && elem(elements(result).value[i]).Err?))
  {
  }

  /** Whatever the target, lazy_parsed hands back nothing for a None answer
      and the raw answer when parsed=False. */
  lemma LazyUnparsedOutcomes<V, P>(result: Option<V>, parsed: bool, target: Target<V, P>, elements: V -> Option<seq<V>>)
    ensures result.None? ==> LazyParsed(result, parsed, target, elements) == Ok(Nothing)
    ensures result.Some? && !parsed ==> LazyParsed(result, parsed, target, elements) == Ok(Raw(result.value))
  {
  }

  // ---------------------------------------------------------------------
  // lazy_parsed_wip
  // ---------------------------------------------------------------------

  /** One getter decorated with lazy_parsed_wip: the closure's `was_parsed`
      is a field. */
  class LazyParsedWip<V, P> {
    const target: Target<V, P>
    const elements: V -> Option<seq<V>>
    var wasParsed: bool

    constructor(target: Target<V, P>, elements: V -> Option<seq<V>>)
      ensures this.target == target && this.elements == elements
      ensures !wasParsed
    {
      this.target := target;
      this.elements := elements;
      wasParsed := false;
    }

    /** One call: once a parsing call has happened, every later call hands
        back the raw answer. The flag is set before the answer is looked at,
        so a None answer or a failing conversion also sets it. */
    method Call(result: Option<V>, parsed: bool) returns (r: Result<Read<V, P>>)
      modifies this
      ensures wasParsed == (old(wasParsed) || parsed)
      ensures old(wasParsed) || !parsed ==> r == Ok(AsRead(result))
      ensures !old(wasParsed) && parsed ==> r == LazyParsed(result, true, target, elements)
    {
      if wasParsed || !parsed {
        return Ok(AsRead(result));
      }
      wasParsed := true;
      if result.None? {
        return Ok(Nothing);
      }
      match target {
        case Scalar(t) =>
          var value := t(result.value);
          if value.Err? {
            return Err(value.error);
          }
          r := Ok(Converted(value.value));
        case ListOf(elem) =>
          var values := elements(result.value);
          if values.None? {
            return Err(TypeError);
          }
          var converted := ConvertAll(elem, values.value);
          if converted.Err? {
            return Err(converted.error);
          }
          r := Ok(ConvertedList(converted.value));
      }
    }
  }

  // ---------------------------------------------------------------------
  // ThreeCommasDict, ThreeCommasModel and GenericParsedGetSetProxy
  // ---------------------------------------------------------------------

  /** The dict an API answer is wrapped in; a JSON null is a None value. */
  class ThreeCommasDict<V> {
    var items: map<string, Option<V>>

    /** ThreeCommasDict(d): a copy of d, or an empty dict for None. */
    constructor(d: Option<map<string, Option<V>>>)
      ensures items == (if d.None? then map[] else d.value)
    {
      items := if d.None? then map[] else d.value;
    }

    /** dict.get: None for a missing key as for a None value. */
    function Lookup(key: string): Option<V>
      reads this
    {
      if key in items then items[key] else None
    }
  }

  /** ThreeCommasDict.of: None for None, a new dict otherwise (an empty
      dict included). */
  method Of<V>(d: Option<map<string, Option<V>>>) returns (r: ThreeCommasDict?<V>)
    ensures d.None? <==> r == null
    ensures r != null ==> fresh(r) && r.items == d.value
  {
    if d.None? {
      return null;
    }
    r := new ThreeCommasDict(d);
  }

  /** ThreeCommasDict.of_list: None for None, otherwise one new dict per
      element, in order; a None element becomes an empty dict. */
  method OfList<V>(ds: Option<seq<Option<map<string, Option<V>>>>>) returns (r: Option<seq<ThreeCommasDict<V>>>)
    ensures ds.None? <==> r.None?
    ensures r.Some? ==> (|r.value| == |ds.value|
      && (forall i :: 0 <= i < |r.value| ==>
            fresh(r.value[i]) && r.value[i].items == (if ds.value[i].None? then map[] else ds.value[i].value))
      && (forall i, j :: 0 <= i < j < |r.value| ==> r.value[i] != r.value[j]))
  {
    if ds.None? {
      return None;
    }
    var list := ds.value;
    var out: seq<ThreeCommasDict<V>> := [];
    var i := 0;
    while i < |list|
      invariant 0 <= i <= |list|
      invariant |out| == i
      invariant forall k :: 0 <= k < i ==>
        fresh(out[k]) && out[k].items == (if list[k].None? then map[] else list[k].value)
      invariant forall k, l :: 0 <= k < l < i ==> out[k] != out[l]
    {
      var d := new ThreeCommasDict(list[i]);
      out := out + [d];
      i := i + 1;
    }
    r := Some(out);
  }

  /** The `parsed` keyword of a proxy read: not passed at all, or passed
      (None included). */
  datatype ParsedArg = NotPassed | PassedFlag(flag: Option<bool>)

  /** What reading attribute `name` of `items` gives: without t_parsed the
      getter takes no keyword, so passing one raises TypeError; with
      t_parsed it is the parsed decorator around dict.get. */
  function ProxyRead<V, P>(items: map<string, Option<V>>, name: string, tParsed: Option<V -> Result<P>>,
                           arg: ParsedArg, autoParseDefault: bool): Result<Read<V, P>> {
    var raw := if name in items then items[name] else None;
    if tParsed.None? then
      if arg.PassedFlag? then Err(TypeError) else Ok(AsRead(raw))
    else
      Parsed(raw, if arg.PassedFlag? then arg.flag else None, autoParseDefault, tParsed.value)
  }

  /** Reading right after a set: the value set, raw when not parsing and
      converted when parsing. */
  lemma ReadAfterSet<V, P>(items: map<string, Option<V>>, name: string, value: Option<V>,
                           tParsed: Option<V -> Result<P>>, arg: ParsedArg, autoParseDefault: bool)
    ensures tParsed.None? && arg.NotPassed? ==>
      ProxyRead(items[name := value], name, tParsed, arg, autoParseDefault) == Ok(AsRead(value))
    ensures tParsed.Some? && arg == PassedFlag(Some(false)) ==>
      ProxyRead(items[name := value], name, tParsed, arg, autoParseDefault) == Ok(AsRead(value))
    ensures tParsed.Some? && value.Some? && arg == PassedFlag(Some(true)) ==>
      ProxyRead(items[name := value], name, tParsed, arg, autoParseDefault)
        == (match tParsed.value(value.value) case Ok(p) => Ok(Converted(p)) case Err(e) => Err(e))
    ensures tParsed.None? && arg.PassedFlag? ==>
      ProxyRead(items[name := value], name, tParsed, arg, autoParseDefault) == Err(TypeError)
  {
  }

  /** Setting one attribute does not change what another one reads. */
  lemma SetLeavesOtherReads<V, P>(items: map<string, Option<V>>, name: string, value: Option<V>, other: string,
                                  tParsed: Option<V -> Result<P>>, arg: ParsedArg, autoParseDefault: bool)
    requires other != name
    ensures ProxyRead(items[name := value], other, tParsed, arg, autoParseDefault)
      == ProxyRead(items, other, tParsed, arg, autoParseDefault)
  {
  }

  /** The get/set view of one key of a dict. t_initial is kept only for
      display. */
  class GenericParsedGetSetProxy<V, P> {
    const obj: ThreeCommasDict<V>
    const attributeName: string
    const tInitial: Option<string>
    const tParsed: Option<V -> Result<P>>

    constructor(obj: ThreeCommasDict<V>, attributeName: string, tInitial: Option<string>, tParsed: Option<V -> Result<P>>)
      ensures this.obj == obj && this.attributeName == attributeName
      ensures this.tInitial == tInitial && this.tParsed == tParsed
    {
      this.obj := obj;
      this.attributeName := attributeName;
      this.tInitial := tInitial;
      this.tParsed := tParsed;
    }

    /** set: writes the key in the underlying dict, nothing else. */
    method Set(value: Option<V>)
      modifies obj
      ensures obj.items == old(obj.items)[attributeName := value]
    {
      obj.items := obj.items[attributeName := value];
    }

    /** get: reads the key through the getter built at construction. */
    function Get(arg: ParsedArg, autoParseDefault: bool): (r: Result<Read<V, P>>)
      reads obj
      ensures tParsed.None? ==> (r.Err? <==> arg.PassedFlag?)
      ensures r == Ok(Nothing) <==> obj.Lookup(attributeName).None? && (tParsed.Some? || arg.NotPassed?)
    {
      ProxyRead(obj.items, attributeName, tParsed, arg, autoParseDefault)
    }
  }

  /** The dict of a model, with its attributes kept apart: only proxies may
      be assigned to them. */
  class ThreeCommasModel<V, P> {
    const dict: ThreeCommasDict<V>
    var attributes: map<string, GenericParsedGetSetProxy<V, P>>

    constructor(d: Option<map<string, Option<V>>>)
      ensures fresh(dict) && dict.items == (if d.None? then map[] else d.value)
      ensures attributes == map[]
    {
      dict := new ThreeCommasDict(d);
      attributes := map[];
    }

    /** __setattr__: a proxy is stored under the name; anything else raises
      RuntimeError and changes nothing. */
    method SetAttr(name: string, value: AttrValue<V, P>) returns (r: Result<()>)
      modifies this
      ensures value.OtherValue? ==> r == Err(RuntimeError) && attributes == old(attributes)
      ensures value.ProxyValue? ==> r == Ok(()) && attributes == old(attributes)[name := value.proxy]
    {
      if !value.ProxyValue? {
        return Err(RuntimeError);
      }
      attributes := attributes[name := value.proxy];
      r := Ok(());
    }
  }

  /** A value assigned to a model attribute. */
  datatype AttrValue<V, P> = ProxyValue(proxy: GenericParsedGetSetProxy<V, P>) | OtherValue(other: V)
}
