/** The decision logic of the library's decorators: how `logged` shortens
    the arguments it logs and decides between wrapping and returning a
    decorator, and how `with_py3cw` merges the forced-mode header and checks
    the credentials. Logging, stack-frame introspection, the environment and
    the request client itself are not modelled; environment variables are
    optional inputs. */
module SysUtils {
  import opened Wrappers
  import opened Text
  import RequestLogic

  // ---------------------------------------------------------------------
  // reduced_arg
  // ---------------------------------------------------------------------

  const ReducedLoggingLimit := 100
  const Ellipsis := "..."

  /** reduced_arg on str(arg): shorter than the limit it is kept, otherwise
      it is cut to the limit and marked with "...". */
  function ReducedArg(text: string): (r: string)
    ensures |text| < ReducedLoggingLimit ==> r == text
    ensures |text| >= ReducedLoggingLimit ==> (|r| == ReducedLoggingLimit + |Ellipsis|
      && r[..ReducedLoggingLimit] == text[..ReducedLoggingLimit] && r[ReducedLoggingLimit..] == Ellipsis)
    ensures |r| <= ReducedLoggingLimit + |Ellipsis|
  {
    if |text| < ReducedLoggingLimit then text else text[..ReducedLoggingLimit] + Ellipsis
  }

  /** Reducing twice is reducing once: a reduced argument is either short
      or exactly at the limit plus "...", which reduces to itself. */
  lemma ReducedArgIdempotent(text: string)
    ensures ReducedArg(ReducedArg(text)) == ReducedArg(text)
  {
    var r := ReducedArg(text);
    if |text| >= ReducedLoggingLimit {
      assert r[..ReducedLoggingLimit] + Ellipsis == r;
    }
  }

  // ---------------------------------------------------------------------
  // logged
  // ---------------------------------------------------------------------

  /** The keyword options of logged; the logger is not modelled. */
  datatype LogOptions = LogOptions(logReturn: bool, reduceLongArguments: bool)

  /** A positional argument of logged: a callable or any other value. */
  datatype DecoratorArg<F> = CallableArg(f: F) | OtherArg

  /** The function built by inner(function_to_wrap). */
  datatype Wrapper<F> = Wrapper(wrapped: F, options: LogOptions)

  /** What logged hands back: the wrapper itself, or inner, the decorator
      that will build it. */
  datatype LoggedResult<F> = Wrapped(wrapper: Wrapper<F>) | Decorator(options: LogOptions)

  function Inner<F>(options: LogOptions, f: F): Wrapper<F> {
    Wrapper(f, options)
  }

  /** logged(*args, ...): a single callable argument is wrapped at once;
      anything else (no argument, several, or a non-callable one) gives the
      decorator. */
  function Logged<F>(args: seq<DecoratorArg<F>>, options: LogOptions): (r: LoggedResult<F>)
    ensures r.Wrapped? <==> |args| == 1 && args[0].CallableArg?
    ensures r.Wrapped? ==> r.wrapper.wrapped == args[0].f && r.wrapper.options == options
    ensures r.Decorator? ==> r.options == options
  {
    if |args| == 1 && args[0].CallableArg? then Wrapped(Inner(options, args[0].f)) else Decorator(options)
  }

  /** `@logged` and `@logged(...)` give the same wrapper. */
  lemma BareAndCalledAgree<F>(f: F, options: LogOptions)
    ensures var called := Logged<F>([], options);
      called.Decorator? && Logged([CallableArg(f)], options) == Wrapped(Inner(called.options, f))
  {
  }

  /** {k: reduced_arg(v) for k, v in kwargs.items()}: the keyword
      arguments (given with the str() of their values, keys distinct) with
      every value reduced. */
  function ReducedKwargs(kwargs: seq<(string, string)>): (r: map<string, string>)
    ensures forall k :: k in r <==> exists i :: 0 <= i < |kwargs| && kwargs[i].0 == k
    decreases |kwargs|
  {
    if |kwargs| == 0 then map[]
    else
      var last := kwargs[|kwargs| - 1];
      var r := ReducedKwargs(kwargs[..|kwargs| - 1]);
      assert forall i :: 0 <= i < |kwargs| - 1 ==> kwargs[..|kwargs| - 1][i] == kwargs[i];
      r[last.0 := ReducedArg(last.1)]
  }

  /** With distinct keys, each keyword keeps its own reduced value. */
  lemma {:induction false} ReducedKwargsValues(kwargs: seq<(string, string)>)
    requires forall i, j :: 0 <= i < j < |kwargs| ==> kwargs[i].0 != kwargs[j].0
    ensures forall i :: 0 <= i < |kwargs| ==> ReducedKwargs(kwargs)[kwargs[i].0] == ReducedArg(kwargs[i].1)
    decreases |kwargs|
  {
    if |kwargs| > 0 {
      var front := kwargs[..|kwargs| - 1];
      ReducedKwargsValues(front);
      forall i | 0 <= i < |kwargs|
        ensures ReducedKwargs(kwargs)[kwargs[i].0] == ReducedArg(kwargs[i].1)
      {
        if i < |kwargs| - 1 {
          assert front[i] == kwargs[i];
        }
      }
    }
  }

  /** The comprehension as written, {k: reduced_arg(v) for k, v in kwargs}:
      it iterates over the keys and unpacks each key string into k and v,
      which raises ValueError for a key that is not two characters long; a
      two-character key maps its first character to its second. */
  function ReducedKwargsAsWritten(kwargs: seq<(string, string)>): (r: Result<map<string, string>>)
    ensures r.Ok? <==> forall i :: 0 <= i < |kwargs| ==> |kwargs[i].0| == 2
    ensures r.Err? ==> r.error == ValueError
    decreases |kwargs|
  {
    if |kwargs| == 0 then Ok(map[])
    else
      var front := kwargs[..|kwargs| - 1];
      assert forall i :: 0 <= i < |front| ==> front[i] == kwargs[i];
      var m :- ReducedKwargsAsWritten(front);
      var key := kwargs[|kwargs| - 1].0;
      if |key| != 2 then Err(ValueError) else Ok(m[[key[0]] := ReducedArg([key[1]])])
  }

  /** The wrapped function: it receives the arguments themselves; here the
      positional ones and the keyword ones as (name, str() of the value)
      pairs. */
  type Call<R> = (seq<string>, seq<(string, string)>) -> Result<R>

  /** The wrapper as written: when reducing, building the logged keyword
      arguments comes before the call and can raise. */
  function WrapperCallAsWritten<R>(w: Wrapper<Call<R>>, args: seq<string>, kwargs: seq<(string, string)>): Result<R> {
    if w.options.reduceLongArguments then
      var _ :- ReducedKwargsAsWritten(kwargs);
      w.wrapped(args, kwargs)
    else w.wrapped(args, kwargs)
  }

  /** The wrapper with the comprehension over kwargs.items(): logging never
      raises, so the wrapper returns exactly what the wrapped function
      returns. */
  function WrapperCall<R>(w: Wrapper<Call<R>>, args: seq<string>, kwargs: seq<(string, string)>): (r: Result<R>)
    ensures r == w.wrapped(args, kwargs)
  {
    if w.options.reduceLongArguments then
      var _ := ReducedKwargs(kwargs);
      w.wrapped(args, kwargs)
    else w.wrapped(args, kwargs)
  }

  /** As written, a reducing wrapper fails before calling the function as
      soon as one keyword name is not two characters long, e.g. `limit`;
      the corrected wrapper calls it. */
  lemma AsWrittenRejectsKeywordArguments<R>(f: Call<R>, args: seq<string>, value: string)
    ensures var w := Inner(LogOptions(false, true), f);
      && WrapperCallAsWritten(w, args, [("limit", value)]) == Err(ValueError)
      && WrapperCall(w, args, [("limit", value)]) == f(args, [("limit", value)])
  {
    var kwargs := [("limit", value)];
    assert |kwargs[0].0| != 2;
  }

  /** Without reduction, or with only two-character keyword names, the
      written wrapper agrees with the corrected one. */
  lemma AsWrittenAgreesOtherwise<R>(w: Wrapper<Call<R>>, args: seq<string>, kwargs: seq<(string, string)>)
    requires !w.options.reduceLongArguments || forall i :: 0 <= i < |kwargs| ==> |kwargs[i].0| == 2
    ensures WrapperCallAsWritten(w, args, kwargs) == WrapperCall(w, args, kwargs)
  {
  }

  // ---------------------------------------------------------------------
  // ForcedMode and with_py3cw
  // ---------------------------------------------------------------------

  datatype ForcedMode = Paper | Real

  /** ForcedMode.__str__: the member's value. */
  function ModeStr(m: ForcedMode): (s: string)
    ensures Lower(s) == s
    ensures ModeFromText(s) == Some(m)
  {
    var s := if m == Paper then "paper" else "real";
    assert Lower(s) == s by {
      forall i | 0 <= i < |s| ensures Lower(s)[i] == s[i] {
      }
    }
    assert Lower(s) != (if m == Paper then "real" else "paper") by {
      assert |"paper"| != |"real"|;
    }
    s
  }

  /** The mode a string form selects: its lower-case form must be "real" or
      "paper"; anything else is not known. */
  function ModeFromText(text: string): Option<ForcedMode> {
    var lowered := Lower(text);
    if lowered == "real" then Some(Real)
    else if lowered == "paper" then Some(Paper)
    else None
  }

  /** The forced_mode argument: the enum or a plain string. */
  datatype ForcedModeArg = ModeEnum(mode: ForcedMode) | ModeText(text: string)

  function ArgText(arg: ForcedModeArg): string {
    match arg
    case ModeEnum(m) => ModeStr(m)
    case ModeText(t) => t
  }

  const ForcedModeHeader := "Forced-Mode"

  /** The headers after the forced-mode step of with_py3cw. */
  function MergedHeaders(headers: map<string, string>, forcedMode: Option<ForcedModeArg>): (r: map<string, string>)
    ensures forall k :: k != ForcedModeHeader ==> (k in r <==> k in headers) && (k in headers ==> r[k] == headers[k])
  {
    if forcedMode.None? then headers
    else
      var m := ModeFromText(ArgText(forcedMode.value));
      if m.None? then headers else headers[ForcedModeHeader := ModeStr(m.value)]
  }

  /** The forced-mode header: set to "real" or "paper" when the string form
      lower-cases to that word, whatever its spelling; untouched for None
      or an unknown mode. */
  lemma ForcedModeSelectsHeader(headers: map<string, string>, forcedMode: Option<ForcedModeArg>)
    ensures forcedMode.Some? && Lower(ArgText(forcedMode.value)) == "real" ==>
      MergedHeaders(headers, forcedMode) == headers[ForcedModeHeader := "real"]
    ensures forcedMode.Some? && Lower(ArgText(forcedMode.value)) == "paper" ==>
      MergedHeaders(headers, forcedMode) == headers[ForcedModeHeader := "paper"]
    ensures (forcedMode.None? || ModeFromText(ArgText(forcedMode.value)).None?) ==>
      MergedHeaders(headers, forcedMode) == headers
  {
  }

  /** The enum and its string form select the same header. */
  lemma EnumAndTextAgree(headers: map<string, string>, m: ForcedMode)
    ensures MergedHeaders(headers, Some(ModeEnum(m))) == MergedHeaders(headers, Some(ModeText(ModeStr(m))))
    ensures MergedHeaders(headers, Some(ModeEnum(m)))[ForcedModeHeader] == ModeStr(m)
  {
  }

  /** `explicit or os.getenv(name)`: an explicit non-empty value wins,
      otherwise the environment's (which may itself be missing or empty). */
  function Credential(explicit: Option<string>, env: Option<string>): (r: Option<string>)
    ensures RequestLogic.Truthy(explicit) ==> r == explicit
    ensures !RequestLogic.Truthy(explicit) ==> r == env
  {
    if RequestLogic.Truthy(explicit) then explicit else env
  }

  /** The headers dict: the caller's own object, updated in place. */
  class HeaderDict {
    var entries: map<string, string>

    constructor(entries: map<string, string>)
      ensures this.entries == entries
    {
      this.entries := entries;
    }
  }

  /** What the wrapped function receives as py3cw: the client's key, secret
      and request options, and the headers object of the buffer. */
  datatype Py3cwBuffer = Py3cwBuffer(key: string, secret: string, requestOptions: map<string, string>, headers: HeaderDict)

  /** The forced-mode step of with_py3cw on the headers dict in use. */
  method SetForcedMode(headers: HeaderDict, forcedMode: Option<ForcedModeArg>)
    modifies headers
    ensures headers.entries == MergedHeaders(old(headers.entries), forcedMode)
  {
    if forcedMode.Some? {
      var lowered := Lower(ArgText(forcedMode.value));
      if lowered == "real" {
        headers.entries := headers.entries[ForcedModeHeader := ModeStr(Real)];
      } else if lowered == "paper" {
        headers.entries := headers.entries[ForcedModeHeader := ModeStr(Paper)];
      }
    }
  }

  /** The wrapper of with_py3cw up to the call of the wrapped function. A
      caller's non-empty headers dict is updated in place, even when the
      call then raises; an empty or missing one is replaced by a new dict. */
  method WithPy3cw(forcedMode: Option<ForcedModeArg>, additionalHeaders: HeaderDict?, apiKey: Option<string>,
                   apiSecret: Option<string>, requestOptions: Option<map<string, string>>,
                   envKey: Option<string>, envSecret: Option<string>) returns (r: Result<Py3cwBuffer>)
    modifies additionalHeaders
    ensures additionalHeaders != null && old(additionalHeaders.entries) != map[] ==>
      additionalHeaders.entries == MergedHeaders(old(additionalHeaders.entries), forcedMode)
    ensures additionalHeaders != null && old(additionalHeaders.entries) == map[] ==>
      additionalHeaders.entries == map[]
    ensures r.Ok? <==> Credential(apiKey, envKey).Some? && Credential(apiSecret, envSecret).Some?
    ensures r.Err? ==> r.error == RuntimeError
    ensures r.Ok? ==>
      && r.value.key == Credential(apiKey, envKey).value
      && r.value.secret == Credential(apiSecret, envSecret).value
      && r.value.requestOptions == (if requestOptions.Some? && requestOptions.value != map[] then requestOptions.value else map[])
      && (if additionalHeaders != null && old(additionalHeaders.entries) != map[]
          then r.value.headers == additionalHeaders
          else fresh(r.value.headers) && r.value.headers.entries == MergedHeaders(map[], forcedMode))
  {
    var options := if requestOptions.Some? && requestOptions.value != map[] then requestOptions.value else map[];
    var headers: HeaderDict;
    if additionalHeaders != null && additionalHeaders.entries != map[] {
      headers := additionalHeaders;
    } else {
      headers := new HeaderDict(map[]);
    }
    SetForcedMode(headers, forcedMode);
    var key := if RequestLogic.Truthy(apiKey) then apiKey else envKey;
    var secret := if RequestLogic.Truthy(apiSecret) then apiSecret else envSecret;
    if key.None? || secret.None? {
      return Err(RuntimeError);
    }
    r := Ok(Py3cwBuffer(key.value, secret.value, options, headers));
  }
}
