# python-three-commas core, modelled in Dafny

This project models three parts of the python-three-commas library, a
wrapper around the 3Commas trading API, and proves properties about them.

- **The endpoint and model generator** (`auto_api_from_swaggerdoc.py`). It
  reads the 3Commas swagger document and writes one Python module per
  `<version>/<endpoint>`. One function per HTTP verb of every path is
  evidently intended. As written, each path contributes only its last
  verb's function (see "## Findings").
  Each generated function calls the `py3cw` request library with an
  entity, an action, `action_id` and `action_sub_id`, and carries a
  docstring listing its parameters. The generator also writes a model
  class per swagger definition, with one `GenericParsedGetSetProxy`
  attribute per property.
- **The model runtime** (`models.py`). It holds the parsing decorators
  (`parsed`, `lazy_parsed`, `lazy_parsed_wip`, `parsed_timestamp`) and the
  dictionary `ThreeCommasDict` that API answers are wrapped in. Models read
  and write their keys through a proxy, and `ThreeCommasModel` refuses any
  attribute that is not a proxy.
- **The decorator utilities** (`sys_utils.py`). `logged` shortens the
  arguments it logs with `reduced_arg`. `with_py3cw` merges the
  `Forced-Mode` header and checks that an API key and secret are present.

Python exceptions are `Err` values of a `Result` type, never preconditions.
Python truthiness is kept exactly: `if x:` on a string means "present and
non-empty".

The code is modelled in the form it takes in the source:

- Loops that build a `code` list are methods with loop invariants. The
  imperative `generate` (`EndpointGenerator.Generate`) is the corrected
  generator, with one append per verb. The written path loop is the
  function `EndpointGenerator.GenerateOutputAsWritten`. Each is
  proved equal to a specification function, and the lemmas are stated
  about those functions.
- The in-place `parameters.sort` of `create_docstring` is a method on a
  class holding the caller's list.
- The `was_parsed` flag of `lazy_parsed_wip` is a field.
- `GenericParsedGetSetProxy.set` updates the shared dictionary object.
- `with_py3cw` updates the caller's headers dictionary in place.

Modules:

- `Wrappers`: `Option`, `Result` and the raised errors.
- `Text`: `str.split`, `str.join`, `replace(c, '')`, `in`, and ASCII case
  mapping.
- `SwaggerPaths`, `RequestLogic`, `Docstrings`, `ModelGenerator` and
  `EndpointGenerator`: the generator.
- `Models`: the model runtime.
- `SysUtils`: the decorator utilities.

Where the checked-in generated modules disagree with the generator's code,
the model follows the code:

- For `/v2/smart_trades/{smart_trade_id}/trades/{id}/close_by_market`, the
  code names the function after the first path variable. That gives
  `post_trades_close_by_market_by_smart_trade_id` (`TwoVariablePathNames`).
  The checked-in module has `post_trades_close_by_market_by_id`.
- The generator writes the import block `from py3cw.request import Py3CW`,
  `from models import *`. The checked-in modules carry other imports. They
  were evidently edited after generation.

One simple description of the path helpers does not hold for every path:
rebuilding a path as `'/' + version + '/' + endpoint + ('/' + rest if
rest)`. A path such as `/a/b/` has an empty rest but a trailing slash, so
that form loses the slash. `SwaggerPaths.Reassemble` proves the exact
reassembly. `SwaggerPaths.ReassembleTruthy` states when the shorter form
holds.

## Model

| member | source | states |
|---|---|---|
| Text.Split | type_generators/auto_api_from_swaggerdoc.py:65 | `str.split` on one separator gives at least one piece, and no piece holds the separator |
| Text.JoinSplit | type_generators/auto_api_from_swaggerdoc.py:73 | joining the pieces of a split with the separator gives back the string |
| Text.SplitJoin | type_generators/auto_api_from_swaggerdoc.py:73 | splitting a join of separator-free pieces gives back the pieces |
| Text.SplitSingle | type_generators/auto_api_from_swaggerdoc.py:18 | a string splits into a single piece exactly when it holds no separator |
| Text.RemoveChar | type_generators/auto_api_from_swaggerdoc.py:19-20 | `replace(c, '')` leaves no `c`, adds no character, and changes nothing when `c` is absent |
| Text.RemoveCharConcat | type_generators/auto_api_from_swaggerdoc.py:19-20 | removing a character distributes over concatenation |
| Text.JoinedPartInJoin | type_generators/auto_api_from_swaggerdoc.py:61 | every joined part occurs as a substring of the join |
| SwaggerPaths.VariableSegments | type_generators/auto_api_from_swaggerdoc.py:18 | the filter keeps only segments containing `{`, and never more segments than it was given |
| SwaggerPaths.StripBraces | type_generators/auto_api_from_swaggerdoc.py:19-20 | a stripped variable name holds neither `{` nor `}` |
| SwaggerPaths.StripBracesOfWrapped | type_generators/auto_api_from_swaggerdoc.py:19-20 | stripping `{name}` gives `name` back |
| SwaggerPaths.GetPathVariables | type_generators/auto_api_from_swaggerdoc.py:17-21 | popping the filtered list twice gives the first and second variable of `PathVariables` |
| SwaggerPaths.PathVariablesInOrder | type_generators/auto_api_from_swaggerdoc.py:17-21 | the first variable is None exactly when no segment has a `{`, otherwise it is the first such segment stripped. The second is None exactly when there is at most one such segment, otherwise it is the second one. Later variables are ignored |
| SwaggerPaths.ApiVersion | type_generators/auto_api_from_swaggerdoc.py:64-65 | the version is a single segment, with no `/` |
| SwaggerPaths.MajorEndpoint | type_generators/auto_api_from_swaggerdoc.py:68-69 | the endpoint is a single segment, with no `/` |
| SwaggerPaths.ApiVersionDefined | type_generators/auto_api_from_swaggerdoc.py:64-69 | `split('/')[1]` raises IndexError exactly when the path has no `/`. Whenever the endpoint exists, so does the version |
| SwaggerPaths.SubPathSegments | type_generators/auto_api_from_swaggerdoc.py:72-73 | the sub-path consists of exactly the segments after index 3 |
| SwaggerPaths.Reassemble | type_generators/auto_api_from_swaggerdoc.py:64-73 | a `/`-rooted path is `'/' + version + '/' + endpoint`, followed by `'/' + sub-path` whenever it has more than three segments |
| SwaggerPaths.ReassembleTruthy | type_generators/auto_api_from_swaggerdoc.py:64-73 | the form that appends `'/' + rest` only for a non-empty rest rebuilds the path exactly when the path has no trailing empty fourth segment |
| RequestLogic.FindAction | type_generators/auto_api_from_swaggerdoc.py:91-96 | the table loop ends with the action of the last entry whose verb is `verb.upper()` and whose sub-path matches, or with the placeholder |
| RequestLogic.LastMatchSpec | type_generators/auto_api_from_swaggerdoc.py:93-96 | there is no match exactly when no entry matches. A match is an entry that matches and that no later entry overrides |
| RequestLogic.ChooseCall | type_generators/auto_api_from_swaggerdoc.py:75-96 | the chosen descriptor is the entity, action and path-variable ids of `CallFor`, or IndexError for a path without version or endpoint |
| RequestLogic.EmitCallLines | type_generators/auto_api_from_swaggerdoc.py:98-109 | the appended lines are the request call of the descriptor: the id lines only for present ids |
| RequestLogic.CreateLogic | type_generators/auto_api_from_swaggerdoc.py:76-111 | the built text equals the request call of the chosen entity, action and ids. IndexError is raised for a path without version or endpoint |
| RequestLogic.EntityChoice | type_generators/auto_api_from_swaggerdoc.py:79-89 | a v2 path is addressed to `smart_trades_v2` when the table lists it. Otherwise a listed endpoint is its own entity. A resolved endpoint missing from the table gives `<py3cw_entity>`. The entity is always a table key or `<py3cw_entity>` |
| RequestLogic.ActionChoice | type_generators/auto_api_from_swaggerdoc.py:91-96 | when the resolved endpoint is in the table and some entry matches the upper-cased verb and the sub-path, the action is that of the last matching entry. With no matching entry, or an unknown entity, the action is `<py3cw_action>`. Any other action comes from a matching entry that no later entry overrides |
| RequestLogic.PathVariablesBecomeIds | type_generators/auto_api_from_swaggerdoc.py:75-107 | `action_id` is set exactly when the first path variable is non-empty, and it is that variable. The same holds for `action_sub_id` and the second variable |
| RequestLogic.IdLines | type_generators/auto_api_from_swaggerdoc.py:101-109 | the call text has an `action_id=str(v),` line exactly when the action id is `v`, and the same holds for `action_sub_id` |
| RequestLogic.PlaceholderInLogic | type_generators/auto_api_from_swaggerdoc.py:101-111 | a placeholder entity or action shows up in the text. A request with no `<` in any name shows neither placeholder |
| Docstrings.RequiredParams | type_generators/auto_api_from_swaggerdoc.py:36 | every parameter placed in the leading group is one whose `required` is True |
| Docstrings.OptionalParams | type_generators/auto_api_from_swaggerdoc.py:36 | no parameter placed in the trailing group has `required` True |
| Docstrings.ParamList.SortByRequiredInPlace | type_generators/auto_api_from_swaggerdoc.py:36 | the in-place sort succeeds exactly when the key comparison is defined, and then leaves the required-first stable order. Otherwise it raises TypeError. The list stays a permutation of itself |
| Docstrings.SortPermutation | type_generators/auto_api_from_swaggerdoc.py:36 | the sorted list is a permutation of the parameters |
| Docstrings.SortOrderedAndStable | type_generators/auto_api_from_swaggerdoc.py:36 | required parameters come before the others, and each group keeps its input order |
| Docstrings.SortFails | type_generators/auto_api_from_swaggerdoc.py:36 | sorting raises exactly when two or more parameters are sorted and one lacks `required` |
| Docstrings.BuildParamLine | type_generators/auto_api_from_swaggerdoc.py:38-55 | the line built field by field is the `:param` line of the parameter |
| Docstrings.BuildParamLines | type_generators/auto_api_from_swaggerdoc.py:37-55 | the loop yields one `:param` line per parameter, in list order |
| Docstrings.ParamLinesAt | type_generators/auto_api_from_swaggerdoc.py:37-55 | there is one `:param` line per parameter, and line i belongs to parameter i |
| Docstrings.ParamFieldsOrder | type_generators/auto_api_from_swaggerdoc.py:47-55 | the fields are REQUIRED, type, `values: [...]` and description, in that order, each only when present |
| Docstrings.BuildDocstringLines | type_generators/auto_api_from_swaggerdoc.py:28-60 | the appended lines are the docstring lines of the sorted parameters |
| Docstrings.CreateDocstring | type_generators/auto_api_from_swaggerdoc.py:24-61 | the result is the docstring of the given parameters, and the caller's list is left sorted in place |
| Docstrings.DocstringCases | type_generators/auto_api_from_swaggerdoc.py:24-36 | the result is None exactly when there are no parameters and no description. It raises exactly when the sort raises |
| Docstrings.DocstringListsRequiredFirst | type_generators/auto_api_from_swaggerdoc.py:28-61 | every parameter gets its line, required parameters first |
| ModelGenerator.BuildAttributeLine | type_generators/auto_api_from_swaggerdoc.py:134-156 | the built line is the proxy declaration of the property's attribute |
| ModelGenerator.FindParsedType | type_generators/auto_api_from_swaggerdoc.py:138-148 | the parsed type is `datetime` for a date-time string example, otherwise the parsing table's entry, or None |
| ModelGenerator.BuildClassLines | type_generators/auto_api_from_swaggerdoc.py:130-161 | the inner loop yields the class lines of one definition |
| ModelGenerator.AppendClasses | type_generators/auto_api_from_swaggerdoc.py:129-161 | the definition loop appends every definition's class lines, in order, after the header |
| ModelGenerator.CreateModels | type_generators/auto_api_from_swaggerdoc.py:114-162 | the emitted text is the header followed by every definition's class, in order |
| ModelGenerator.AttributeLinesAt | type_generators/auto_api_from_swaggerdoc.py:133-158 | there is one attribute line per property, and line k declares property k |
| ModelGenerator.ClassHasOneLinePerProperty | type_generators/auto_api_from_swaggerdoc.py:130-161 | a class is its three header lines, one line per property and two blank lines |
| ModelGenerator.AttributeDeclRules | type_generators/auto_api_from_swaggerdoc.py:134-156 | the attribute name is the JSON name without `?`. `t_initial` is present exactly when the swagger type is. A known swagger type gives its Python type. A date-time example gives `datetime`. Otherwise the parsing table's entry is used, and with no entry there is no `t_parsed` |
| ModelGenerator.DateTimeIsPrefixMatch | type_generators/auto_api_from_swaggerdoc.py:142-143 | the date-time test is a prefix match: text after a match does not matter |
| ModelGenerator.DateTimeExamples | type_generators/auto_api_from_swaggerdoc.py:141-143 | `2018-08-21 08:08:08` and longer texts match. A bare date or a slashed date does not |
| EndpointGenerator.DerivePathNames | type_generators/auto_api_from_swaggerdoc.py:174-185 | popping the plain segments gives version, endpoint and sub-endpoint, with IndexError when version or endpoint is missing. The parameters are `var1[, var2]` |
| EndpointGenerator.BuildFunctionParameters | type_generators/auto_api_from_swaggerdoc.py:183-185 | the parameter list is the first variable or `''`, then `, ` and the second variable only when the second is non-empty |
| EndpointGenerator.AssembleCode | type_generators/auto_api_from_swaggerdoc.py:191-216 | the appended entries are the code list of one function |
| EndpointGenerator.BuildFunctionCode | type_generators/auto_api_from_swaggerdoc.py:186-216 | one verb's code list is built from its logic and its docstring. Logic errors come first |
| EndpointGenerator.CodeShape | type_generators/auto_api_from_swaggerdoc.py:196-216 | a code list has 5 entries, plus 1 for a docstring and 2 for quoting. It starts with the quote line or the def line and ends with three blanks |
| EndpointGenerator.WrappedExactlyWhenNotFound | type_generators/auto_api_from_swaggerdoc.py:196-212 | a request with a placeholder entity or action is commented out between `'''` lines. A request with no `<` starts with its def line |
| EndpointGenerator.AppendChunk | type_generators/auto_api_from_swaggerdoc.py:218 | appending to the defaultdict adds the key at the end when it is new, then appends the text |
| EndpointGenerator.AddOperations | type_generators/auto_api_from_swaggerdoc.py:186-218 | the corrected verb loop, with the append inside it, equals its specification, including the first error |
| EndpointGenerator.BuildStructured | type_generators/auto_api_from_swaggerdoc.py:173-218 | the corrected path loop (one append per verb) equals its specification. Its keys stay distinct and match the dict |
| EndpointGenerator.BuildModuleFiles | type_generators/auto_api_from_swaggerdoc.py:222-239 | one file per module key, in key order. Each is named after its key and holds the import block followed by the functions |
| EndpointGenerator.Generate | type_generators/auto_api_from_swaggerdoc.py:168-239 | the corrected generate writes the models file and the module files of its specification, or raises the first error |
| EndpointGenerator.AddOperationsAppendsTexts | type_generators/auto_api_from_swaggerdoc.py:186-218 | the verb loop builds every verb's text, then appends them all, in order |
| EndpointGenerator.MapResultsAt | type_generators/auto_api_from_swaggerdoc.py:186-216 | building the texts of all verbs, stopping at the first error, gives one text per verb, text k being the one of verb k |
| EndpointGenerator.OneFunctionPerVerb | type_generators/auto_api_from_swaggerdoc.py:186-218 | a path adds one function per verb, in verb order, after what its module already held. Other modules are left alone |
| EndpointGenerator.LastCodeIsLastVerb | type_generators/auto_api_from_swaggerdoc.py:186-216 | as written, after the verb loop `code` holds the last verb's code, or its earlier value when there are no verbs |
| EndpointGenerator.OneFunctionPerPathAsWritten | type_generators/auto_api_from_swaggerdoc.py:186-218 | as written, a path adds exactly one function to its module: the one of its last verb |
| EndpointGenerator.AsWrittenDropsAllButLastVerb | type_generators/auto_api_from_swaggerdoc.py:218 | for a path with two or more generatable verbs, the written loop adds one function where one per verb is intended |
| EndpointGenerator.AsWrittenFailsOnVerblessFirstPath | type_generators/auto_api_from_swaggerdoc.py:186-218 | as written, a first path without verbs raises UnboundLocalError, while the intended loop adds nothing |
| EndpointGenerator.StructuredAsWrittenValid | type_generators/auto_api_from_swaggerdoc.py:173-218 | the written path loop keeps the module keys distinct and in step with the dict, so `GenerateOutputAsWritten` writes one file per module |
| EndpointGenerator.SingleVerbPathAgrees | type_generators/auto_api_from_swaggerdoc.py:186-218 | on a path with one verb, the written and the corrected loops raise the same error or give the same modules |
| EndpointGenerator.AsWrittenAgreesOnSingleVerbPaths | type_generators/auto_api_from_swaggerdoc.py:173-218 | when every path has exactly one verb, the written path loop gives the corrected result |
| EndpointGenerator.GenerateAsWrittenAgreesOnSingleVerbPaths | type_generators/auto_api_from_swaggerdoc.py:168-239 | when every path has exactly one verb, generate as written writes the same files as the corrected generate |
| EndpointGenerator.ModuleFileNameInjective | type_generators/auto_api_from_swaggerdoc.py:235 | different module keys get different file names |
| EndpointGenerator.ModuleFilesWellFormed | type_generators/auto_api_from_swaggerdoc.py:222-239 | every module file gets its own name and starts with the import block |
| EndpointGenerator.TwoVariablePathNames | type_generators/auto_api_from_swaggerdoc.py:177-191 | for `/v/e/{a}/m/{b}/l`, the module is `v/e`, the function is `verb_m_l_by_a`, and it takes `a, b` |
| Models.ParsedOutcomes | src/three_commas/model/models.py:34-40 | a None answer gives None whatever the flag. The raw answer comes back exactly when the effective flag is off. Otherwise the result is `t(result)` or its error |
| Models.ParsedNoneMeansDefault | src/three_commas/model/models.py:38-39 | `parsed=None` behaves as the configured default |
| Models.TimestampIsParsed | src/three_commas/model/models.py:21-27 | `parsed_timestamp` is `parsed` with `strptime` on the fixed pattern and the date-time default: None stays None, and without parsing the string is returned unchanged |
| Models.ConvertAll | src/three_commas/model/models.py:120 | the list comprehension keeps length and order, and converts each element. It raises exactly when some element fails, and then with the first failure's error |
| Models.LazyScalarIsParsed | src/three_commas/model/models.py:112-123 | on a plain type, `lazy_parsed` is `parsed` with the flag always given (True by default) |
| Models.LazyListOutcomes | src/three_commas/model/models.py:118-120 | on `List[E]`, a non-iterable answer raises TypeError. Otherwise the result has one converted element per element, in order, or an error exactly when one fails |
| Models.LazyUnparsedOutcomes | src/three_commas/model/models.py:112-123 | for every target, plain or list, a None answer gives None and `parsed=False` gives the raw answer |
| Models.LazyParsedWip.Call | src/three_commas/model/models.py:84-104 | the flag becomes set on the first parsing call, even when the answer is None or the conversion raises. After that every call returns the raw answer |
| Models.ThreeCommasDict.constructor | src/three_commas/model/models.py:129-132 | `ThreeCommasDict(None)` is empty; otherwise it holds a copy of `d` |
| Models.Of | src/three_commas/model/models.py:135-138 | `of` returns None exactly for None, and otherwise a new dict, even for an empty one |
| Models.OfList | src/three_commas/model/models.py:141-144 | `of_list` returns None exactly for None. Otherwise it returns one new, distinct dict per input, in order, and a None element becomes an empty dict |
| Models.GenericParsedGetSetProxy.Set | src/three_commas/model/models.py:179-180 | `set` writes exactly the proxy's key of the shared dict |
| Models.GenericParsedGetSetProxy.Get | src/three_commas/model/models.py:169-183 | without `t_parsed`, `get` raises TypeError exactly when `parsed` is passed. It returns None exactly for a missing or None value, when the call does not raise |
| Models.ReadAfterSet | src/three_commas/model/models.py:169-183 | after `set(v)`, `get()` on a proxy without `t_parsed` and `get(parsed=False)` on one with it return `v`. `get(parsed=True)` returns `t_parsed(v)` |
| Models.SetLeavesOtherReads | src/three_commas/model/models.py:179-180 | setting one key leaves every other key's reads unchanged |
| Models.ThreeCommasModel.SetAttr | src/three_commas/model/models.py:151-154 | assigning a non-proxy raises RuntimeError and changes nothing. A proxy is stored under the name |
| SysUtils.ReducedArg | src/three_commas/sys_utils.py:40-44 | a text shorter than 100 is kept. A longer one becomes its first 100 characters plus `...`. The result is at most 103 long |
| SysUtils.ReducedArgIdempotent | src/three_commas/sys_utils.py:42-44 | reducing a reduced argument changes nothing |
| SysUtils.Logged | src/three_commas/sys_utils.py:53-72 | a single callable argument is wrapped at once. Any other argument list gives the decorator |
| SysUtils.BareAndCalledAgree | src/three_commas/sys_utils.py:53-72 | `@logged` and `@logged()` build the same wrapper |
| SysUtils.ReducedKwargs | src/three_commas/sys_utils.py:58 | the comprehension over `kwargs.items()` has exactly the keyword names as keys |
| SysUtils.ReducedKwargsValues | src/three_commas/sys_utils.py:58 | each keyword maps to its own reduced value |
| SysUtils.ReducedKwargsAsWritten | src/three_commas/sys_utils.py:58 | the comprehension as written succeeds exactly when every keyword name is two characters long. Otherwise it raises ValueError |
| SysUtils.WrapperCall | src/three_commas/sys_utils.py:55-67 | the wrapper returns exactly what the wrapped function returns |
| SysUtils.AsWrittenRejectsKeywordArguments | src/three_commas/sys_utils.py:56-58 | a reducing wrapper called with `limit=...` raises before the call as written, while the intended wrapper calls the function |
| SysUtils.AsWrittenAgreesOtherwise | src/three_commas/sys_utils.py:56-63 | without reduction, or with two-character keyword names only, the written wrapper gives the wrapped function's result |
| SysUtils.ModeStr | src/three_commas/sys_utils.py:13-18 | `str()` of a mode is its lower-case value, and that text selects the same mode |
| SysUtils.MergedHeaders | src/three_commas/sys_utils.py:108-115 | every header other than `Forced-Mode` keeps its presence and value |
| SysUtils.SetForcedMode | src/three_commas/sys_utils.py:108-115 | the headers dict in use is updated in place to the merged headers of the forced mode |
| SysUtils.ForcedModeSelectsHeader | src/three_commas/sys_utils.py:108-115 | a mode that lower-cases to `real` or `paper` sets that header, whatever its spelling. None or an unknown mode leaves the headers as they were |
| SysUtils.EnumAndTextAgree | src/three_commas/sys_utils.py:109-113 | the enum and its string form set the same header, with the mode's value |
| SysUtils.Credential | src/three_commas/sys_utils.py:118-119 | an explicit non-empty credential wins. Otherwise the environment's value is used |
| SysUtils.WithPy3cw | src/three_commas/sys_utils.py:104-125 | RuntimeError is raised exactly when the key or the secret is still missing. A non-empty caller headers dict is updated in place, even when the call raises. Otherwise a new dict is used. The request options are the caller's if non-empty, else a new empty dict |

## Left out

- File and JSON input/output in `generate` and `create_models` is not modelled. The model covers the emitted texts and the file names.
- The imported `API_METHODS` and `PARSING_MAPPING` tables are parameters. Their contents are not part of this model.
- The swagger document is typed. Every path item, operation, definition and property is assumed to be a JSON object. A missing `parameters` list is the empty list, which the source treats alike.
- The AttributeError raised for a missing `definitions` key (auto_api_from_swaggerdoc.py:129), a missing `paths` key (:173) or a definition without `properties` (:133) is not modelled. The model's document always has these lists, so where the source raises, the model treats the missing list as empty.
- `create_docstring` sorts the swagger document's own list in place. `EndpointGenerator.BuildFunctionCode` sorts a fresh copy, because `generate` never reads the list again.
- `Docstrings.ParamList.SortByRequiredInPlace`: on TypeError the model does not say what partial order Python's sort leaves in the list. It states only that the list is still a permutation.
- `Docstrings.ParamFieldsOrder`: `REQUIRED` leads whenever the parameter is required. The converse is not stated, because a type may itself be the text `REQUIRED`.
- `str.upper()`, `str.lower()` and the regex `\d` are modelled on ASCII. This is exact for ASCII input only. Non-ASCII characters whose Python case mapping yields ASCII letters are not modelled. For example, `'ſ'.upper()` is `'S'` and `'ı'.upper()` is `'I'`, so `"poſt".upper() == "POST"` matches a `POST` entry where the model picks the placeholder. Unicode digits in a date example are not modelled either.
- Enum values of a parameter are given by their Python `repr` texts.
- `ThreeCommasParser.get_setter_with_getter` and the `__repr__` methods are not modelled. They are debug printing and display.
- Logging is not modelled. This covers the logger choice, stack-frame introspection and the logged message texts. `reduced_arg` and the comprehension that feeds the log are modelled.
- `Py3CW` construction and `Py3cwBuffer.request` are not modelled. `SysUtils.WithPy3cw` returns what the wrapped function would receive.
- The environment and the configuration defaults are inputs.
- `datetime.strptime` and Python type constructors are function parameters. A failing conversion raises `ConversionError`.
- The `typing.List[...]` test on `str(t)` is modelled as the choice between `Scalar` and `ListOf`.
- `ThreeCommasModel` holds its dict as a field instead of inheriting from it.
- `t_initial` is stored, not used.
- Only the `parsed` keyword of `get` is modelled. Positional arguments passed to `get` are not.
- The key order of Python dicts is modelled only where it is observable: the module order of `structured_code`.

## Findings

| source | as written | input that shows it | evidently intended | confidence | as-written member | corrected member |
|---|---|---|---|---|---|---|
| type_generators/auto_api_from_swaggerdoc.py:218 | The append to `structured_code` sits after the verb loop. Each path therefore contributes only its last verb's function. A path with no verbs re-appends the previous path's code, and raises UnboundLocalError when it is the first path | a path with two verbs (for example `get` and `delete`) whose logic and docstring both build. The checked-in `src/three_commas/api/v2/smart_trades.py` has exactly one function per path | one function appended per verb, which is why a name, logic and docstring are built for every verb | medium, not executed | EndpointGenerator.AsWrittenDropsAllButLastVerb | EndpointGenerator.OneFunctionPerVerb |
| src/three_commas/sys_utils.py:58 | `{k: reduced_arg(v) for k, v in kwargs}` iterates over the keyword names and unpacks each name into two characters | a function decorated with `logged(reduce_long_arguments=True)` called with `limit=10` raises ValueError before it runs | `kwargs.items()`, so that the wrapper logs the reduced values and returns the function's result | high, not executed | SysUtils.AsWrittenRejectsKeywordArguments | SysUtils.WrapperCall |
