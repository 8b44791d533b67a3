# crud_ui request lifecycle, modelled in Dafny

crud_ui mounts a CRUD admin interface on an Express router from one options
object. This project models the part that turns an HTTP request into a
response:

- the option classes (`CUIOptions`, `CUIField`, `CUIActions`, `CUITweaks`,
  `CUINavigation`, `CUIRoutes`), which validate and coerce what the user passes
  in and fill in the defaults;
- the request context (`CUIContext`) and its `url()`;
- the route handlers (`indexPage`, `createPage`, `createAction`, `editPage`,
  `editAction`, `detailPage`, `deleteAction`), and above all
  `coerceAndValidateEditPayload`, which turns a submitted form into a payload or
  a `CUIValidationError`;
- the response wrapper, which casts what a handler returns, stores its flash
  message, then redirects, sends HTML or fails;
- the three middlewares: the flash manager, the CSRF check (a double-submit
  cookie in the TypeScript tree, a session-bound token in the JavaScript tree)
  and the in-memory session store of the JavaScript tree;
- the error classes and the helpers in `tools` (assertions, `safeAssign`,
  `getOrCall`, `extractCookie`, `deslugify`, the escaping functions, `minInProd`).

The repository has a TypeScript tree and an older JavaScript tree. Where they
agree, one definition serves both. Where they differ, a `Tree` parameter selects
the behaviour, or there are two members, and the table cites the file each one
follows.

JavaScript values are the datatype `Js.Value`. Arrays, objects and functions
carry an identity, so `===` compares them by reference. User code (actions,
views, texts, validators, a `values` function) is an oracle, `Tools.Env`,
called through `Tools.Call`. A thrown exception is the `Failure` of a
`Result`. The stores the middlewares keep (flash entries, sessions) are classes
whose methods update their fields in place, and so are the request (`req`) and
the response effects (`res`). Each method's `ensures` ties the new state to a
function of the old state, and the lemmas are stated about those functions.

## Model

| member | source | states |
|---|---|---|
| Tools.Capitalize | src/tools.ts:3-5 | throws a TypeError exactly when the string is empty; otherwise the result has the same length, its first character upper-cased and the rest unchanged |
| Tools.Uncapitalize | src/tools.ts:7-9 | throws a TypeError exactly on the empty string; otherwise only the first character is lower-cased |
| Tools.CapitalizeIdempotent | src/tools.ts:3-5 | capitalising a capitalised string changes nothing |
| Tools.UncapitalizeUndoesCapitalize | src/tools.ts:3-9 | a string starting with a lower-case letter comes back unchanged from capitalize then uncapitalize |
| Tools.DeslugifyPlain | src/tools.js:25-27 | every `_` and `-` becomes a space and every other character stays, so the length is kept |
| Tools.DeslugifyPlainIdempotent | src/tools.js:25-27 | the result has no separator left, so deslugifying it again changes nothing |
| Tools.EnsureLeadingChar | src/tools.ts:146-148 | a non-string is returned unchanged; a string either stays or gains the prefix; with a one-character prefix the result starts with it; a string already starting with it is unchanged |
| Tools.EnsureLeadingCharIdempotent | src/tools.ts:146-148 | with a one-character prefix, applying the function twice is applying it once |
| Tools.GetOrCall | src/tools.ts:133-141 | a non-function is its own result; a function is called with the arguments |
| Tools.Call | src/tools.ts:133-141 | calling a non-function raises a TypeError; a user function is the oracle's answer; a record-id getter reads its key of a truthy argument, else `null`; a wrapped item returns it |
| Tools.Index | src/web/handlers.ts:30 | reading a property of `undefined` or `null` raises a TypeError; otherwise it is the own property |
| Tools.AssertEqual | src/tools.ts:53-57 | passes exactly when the value is `===` the expected one; otherwise a TypeError naming the identifier, the expected and the actual value |
| Tools.AssertProvided | src/tools.ts:59-63 | fails exactly on `undefined` (not on `null`), with "<identifier> must be provided" |
| Tools.TypeName | src/tools.ts:82 | the name is "array" exactly for arrays |
| Tools.AssertType | src/tools.ts:75-89 | passes exactly when the value is `undefined` or its type name is among the allowed ones; the TypeError lists them joined by " or " |
| Tools.AssertMember | src/tools.ts:91-103 | passes exactly when the value's string form is a key of the hash or a name every object inherits (the `in` operator); the TypeError lists the keys |
| Tools.MemberAcceptsInheritedKeys | src/tools.ts:91-92 | "toString" passes as a member of any hash that lacks it, while an ordinary missing name fails |
| Tools.RunCheck | src/tools.ts:105-121 | each asserter call fails only with a TypeError and passes exactly when its assertion on `object[key]` holds |
| Tools.RunChecks | src/tools.ts:105-121 | a run of asserter calls fails only with a TypeError |
| Tools.RunChecksPass | src/tools.ts:105-121 | a sequence of asserter calls passes exactly when each passes, and a failure is one of the calls' own |
| Tools.RunChecksAppend | src/tools.ts:105-121 | running two sequences of asserter calls in a row is the first, then the second only if the first passed |
| Tools.RunChecksFrame | src/tools.ts:105-121 | the asserter calls read only the keys they name |
| Tools.LastIndexOf | src/tools.js:199 | the index of the last occurrence, or -1 exactly when the character is absent |
| Tools.MinInProd | src/tools.js:198-205 | outside production the name is unchanged; in production ".min" is inserted at one position, all characters kept |
| Tools.MinInProdAgreesWithDot | src/types/tweaks.ts:7-14 | for a name with a dot the corrected function equals the code as written and adds exactly four characters |
| Tools.MinInProdDotless | src/tools.js:198-205 | for a dotless name the corrected function appends ".min" |
| Tools.MinInProdAsWrittenMangles | src/tools.js:199-203 | as written, "abc" becomes ".minc" in production |
| Tools.LastDefinedUntouched | src/tools.ts:197-207 | a key that no source defines keeps its value |
| Tools.SafeAssigned | src/tools.ts:191-212 | the target gains no key |
| Tools.SafeAssignedOne | src/tools.ts:191-212 | with one source, each key of the target takes the source's own value when it is defined and keeps its own otherwise |
| Tools.SafeAssign | src/tools.ts:191-212 | the loop over the sources and their keys leaves exactly `SafeAssigned` of the target |
| Tools.ObjectAssign | src/types/fields.js:136 | every own property of the source is copied, `undefined` included, and the keys are the union |
| Tools.Enumize | src/tools.ts:164-172 | the keys are exactly the string forms of the items, each mapped to itself |
| Errors.Code | src/types/errors.ts:4-10 | an error has a code exactly when it is a `CUIError` |
| Errors.NewCUIError | src/types/errors.ts:6-9 | the result is a `CUIError` with the message, and its code defaults to 500 |
| Errors.AssertActionSupported | src/types/errors.ts:25-29 | throws exactly when `handlers[op]` is not a function, with a `CUIActionNotSupportedError` of code 500 |
| Validation.FullMessage | src/types/errors.ts:54-56 | throws exactly when the field title is empty; otherwise the capitalised title, a space, then the message |
| Validation.FaultsNamed | src/types/errors.ts:85-89 | the faults grouped under one name are drawn from the given faults |
| Validation.FaultsNamedMembers | src/types/errors.ts:85-89 | the faults grouped under a name are exactly the faults about that field |
| Validation.FieldNames | src/types/errors.ts:85-89 | the names are exactly the field names the faults carry |
| Validation.GroupFromKeys | src/types/errors.ts:85-89 | the reduce's lookup gains exactly the field names of the faults |
| Validation.GroupFromValue | src/types/errors.ts:85-89 | each entry is its initial list followed by the faults about that field, in order |
| Validation.ByFieldNameGroups | src/types/errors.ts:85-89 | the corrected grouping `ByFieldName` (the reduce from an empty lookup) lists exactly the fields that have faults, each with its faults in order and none empty |
| Validation.FaultsNamedCounts | src/types/errors.ts:85-89 | each fault occurs in its field's group as often as in the list |
| Validation.ByFieldNameLossless | src/types/errors.ts:85-89 | the grouping loses no fault and puts none in another field's group |
| Validation.GroupFromAsWrittenAgrees | src/types/errors.ts:85-89 | the reduce as written fails exactly when a field is named after an inherited `Object.prototype` member, and otherwise equals the corrected grouping |
| Validation.ByFieldNameAsWrittenFails | src/types/errors.js:89-93 | the same, for the whole `byFieldName` |
| Validation.ConstructorFieldBreaksGrouping | src/types/errors.ts:85-89 | one fault on a field called "constructor" makes the code as written throw, while the corrected grouping lists it |
| Validation.NewValidationError | src/types/errors.ts:68-92 | code 400 and the payload kept; the message is generic for no faults, the string itself, the single fault's full message, or a count; throws exactly when the single fault's title is empty; `byFieldName` is the corrected grouping |
| Cookies.IndexOf | src/tools.ts:246 | `indexOf`: the first position where the name occurs, or a negative number exactly when it does not occur |
| Cookies.IndexOfFrom | src/tools.ts:246 | the search from a position finds the first occurrence at or after it, or -1 when there is none |
| Cookies.Scan | src/tools.ts:251-258 | a scan loop stops at the first occurrence of its character at or after the start, or at the end of the string |
| Cookies.ScanIsFirst | src/tools.ts:251-258 | any position satisfying the scan's stopping condition is the position the scan finds |
| Cookies.ExtractCookieSpec | src/tools.ts:241-261 | no value exactly when the header is missing or empty or the name does not occur in it |
| Cookies.ExtractCookie | src/tools.ts:241-261 | the two scanning loops compute exactly `ExtractCookieSpec` |
| Cookies.ExtractedValueShape | src/tools.ts:251-260 | an extracted value holds no ';' and, unless empty, follows an '=' and runs up to a ';' or the end of the header |
| Cookies.ExtractCookieFindsFirstOccurrence | src/tools.ts:246-260 | when the first occurrence of the name is followed by "=" and a value ending at ';' or the end, that value is extracted |
| Cookies.ExtractCookieRoundTrip | src/tools.ts:241-261 | the header "name=value" yields the value back |
| Escaping.EscapeString | src/tools.ts:219-228 | the result is no shorter than the input and holds none of `<`, `>`, `"` or `'` |
| Escaping.UnescapeStep | src/tools.ts:222-228 | decoding one escaped character gives back that character |
| Escaping.EscapeRoundTrip | src/tools.ts:219-228 | `Escaping.EscapeHTML` (the string form of the value with the five characters replaced by entities) loses nothing: decoding the five entities gives back the original string |
| Escaping.EscapePlainIsIdentity | src/tools.ts:219-220 | a string without special characters is unchanged |
| Escaping.EscapeScript | src/tools.ts:234-236 | a falsy script gives ''; a truthy string gives its global replace `EscapeScriptString`, in which no "</script" survives; a truthy non-string throws a TypeError |
| Escaping.EscapeScriptKeepsPrefix | src/tools.ts:235 | the text before the first "</script" is copied unchanged |
| Escaping.EscapeScriptPlain | src/tools.ts:235 | a script without "</script" is left exactly as it is |
| Escaping.EscapeScriptFirst | src/tools.ts:235 | the first "</script" becomes "</scri\\pt", the text before it is kept and the replace carries on after it, left to right and without overlap |
| Escaping.PrefixWithoutOpenIsKept | src/tools.ts:235 | a prefix free of '<' of the escaped script was a prefix of the original |
| Escaping.NoClosingTagSurvives | src/tools.ts:235 | the replace leaves no "</script" in its result |
| Deslugify.UpperRun | src/tools.ts:26 | the run `[A-Z]+` starting at a position: upper-case letters only, maximal |
| Deslugify.LowerRun | src/tools.ts:26 | the run `[a-z]+` starting at a position: lower-case letters only, maximal |
| Deslugify.MatchAt | src/tools.ts:26 | a match of the word pattern at a position is non-empty, made of letters, and followed by an upper-case letter or a word boundary |
| Deslugify.TrimStart | src/tools.ts:34 | drops exactly the leading whitespace |
| Deslugify.TrimEnd | src/tools.ts:34 | drops exactly the trailing whitespace |
| Deslugify.Trim | src/tools.ts:34 | the result neither starts nor ends with whitespace |
| Deslugify.Squash | src/tools.ts:24-34 | removing the spaces never lengthens a string |
| Deslugify.SquashAppend | src/tools.ts:24-34 | removing spaces distributes over concatenation |
| Deslugify.LowerAppend | src/tools.ts:30 | lower-casing distributes over concatenation |
| Deslugify.LowerIdempotent | src/tools.ts:30 | lower-casing twice is lower-casing once |
| Deslugify.SquashTrimStart | src/tools.ts:34 | trimming the start removes only whitespace |
| Deslugify.SquashTrimEnd | src/tools.ts:34 | trimming the end removes only whitespace |
| Deslugify.SquashLowerAppend | src/tools.ts:24-34 | lower-casing then removing spaces distributes over concatenation |
| Deslugify.SquashLowerReplacement | src/tools.ts:26-33 | a matched word's replacement (maybe lower-cased, plus a space) has the same letters up to case |
| Deslugify.ReplaceWordsUnfold | src/tools.ts:26-33 | the replace emits what it produces for the current position and continues where the match (or the skipped character) ends, no longer first after a match |
| Deslugify.EmittedKeepsLetters | src/tools.ts:26-33 | what is emitted for one position holds, up to white space and case, exactly the characters it consumed |
| Deslugify.StepCase | src/tools.ts:26-33 | one step of the scan keeps the letters up to case, given the rest of the scan keeps them |
| Deslugify.ReplaceWordsKeepsLetters | src/tools.ts:26-33 | the word replace keeps every non-space character up to case |
| Deslugify.LowerSquashCommute | src/tools.ts:24-34 | lower-casing and removing spaces commute |
| Deslugify.DeslugifyKeepsLetters | src/tools.ts:22-35 | up to case and spaces, `Deslugify.Deslugify` as written gives the same text as the JavaScript deslugify |
| Deslugify.DeslugifyShape | src/tools.ts:22-35 | the result of `Deslugify.Deslugify` is trimmed and holds no `_` or `-` |
| Deslugify.DeslugifyDoublesSpace | src/tools.ts:22-35 | as written, the slug `a_b` deslugifies to `a  b`, with two spaces between the words |
| Deslugify.Collapse | src/tools.ts:19-20 | collapsing runs of spaces keeps the first and last character and leaves no two spaces in a row |
| Deslugify.SquashCollapse | src/tools.ts:19-20 | collapsing runs of spaces removes spaces only |
| Deslugify.DeslugifySpaced | src/tools.ts:19-35 | the corrected deslugify is trimmed and never has two spaces in a row |
| Deslugify.DeslugifySpacedKeepsLetters | src/tools.ts:19-35 | up to case and spaces, the corrected deslugify gives the same text as the JavaScript deslugify |
| Deslugify.DeslugifySpacedSingleSpace | src/tools.ts:19-20 | the corrected deslugify turns `a_b` into `a b`, one space between the words |
| Deslugify.NoSeparatorsAfterReplace | src/tools.ts:26-33 | the word replace introduces no `_` or `-` |
| Actions.Defaults | src/types/actions.js:11-50 | a fresh actions object holds exactly the five callbacks, all undefined |
| Actions.Construct | src/types/actions.ts:47-49 | TypeScript keeps only the declared keys; the JavaScript `Object.assign` also adds the source's own extra keys (src/types/actions.js:51) |
| Actions.ValidateExactly | src/types/actions.ts:51-69 | `Actions.Validate` passes iff single-record mode has `getSingle`, list mode has `getList` (and `getSingle` when `update` is truthy), and both getters are functions or undefined |
| Actions.ListModesCanList | src/types/actions.js:60-71 | in list mode a validated actions object has a `getList` function |
| Actions.ValidateFailsWithTypeError | src/types/actions.js:54-72 | every validation failure is a TypeError raised by one of the listed checks |
| Routes.Defaults | src/types/routes.ts:6-22 | the singleRecordMode routes exist only in the TypeScript tree; the common routes are present in both (src/types/routes.js:7-20) |
| Routes.Construct | src/types/routes.ts:24-26 | TypeScript keeps exactly the declared route keys; JavaScript adds the source's own keys (src/types/routes.js:22) |
| Routes.DefaultEditRoutes | src/types/routes.ts:12-22 | the default edit and delete routes yield `/edit/` or `/delete/` followed by the URI-encoded id |
| Routes.DefaultDetailRoutes | src/types/routes.ts:15-17 | the default detail routes yield `/detail/` followed by the URI-encoded id, and `/edit` after it for the two edit routes |
| Routes.SourceOverrides | src/types/routes.ts:24-26 | a declared route is the source's own value when the source defines it, else the default |
| Fields.Defaults | src/types/fields.ts:18-152 | a fresh field holds exactly the declared keys; the five `allow*` flags are true, the rest undefined |
| Fields.Construct | src/types/fields.ts:154-156 | TypeScript keeps only the declared keys; the JavaScript `Object.assign` adds the source's own keys (src/types/fields.js:136) |
| Fields.DefaultType | src/types/fields.ts:161-164 | a falsy `type` becomes `string`; a truthy one and every other key are kept |
| Fields.TypeAndNameChecks | src/types/fields.ts:165-171 | the checks cover `type` membership, `name` provided and a string, and `values` being an array or function only for select fields |
| Fields.DerivedTitle | src/types/fields.ts:174 | the derived title is non-empty, and deriving it can only fail with a TypeError |
| Fields.DefaultTitle | src/types/fields.ts:173-175 | an undefined title becomes the capitalised deslugified name; a defined one and every other key are kept |
| Fields.DefaultLabel | src/types/fields.ts:178-180 | an undefined label becomes the title; a defined one and every other key are kept |
| Fields.Validate | src/types/fields.ts:158-193 | every validation failure is a TypeError |
| Fields.NamedAfterChecks | src/types/fields.ts:170-171 | once the name checks pass, the name is a string |
| Fields.Field.FromSafeAssign | src/types/fields.ts:154-156 | the TypeScript constructor's properties are the defaults overridden by the source's declared keys |
| Fields.Field.FromObjectAssign | src/types/fields.js:136 | the JavaScript constructor's properties are the defaults overridden by all of the source's own keys |
| Fields.Field.ValidateAndCoerce | src/types/fields.ts:158-193 | the in-place validation returns the verdict and leaves exactly the properties `Validate` computes |
| Fields.ValidateSteps | src/types/fields.js:139-174 | validation runs type default, type and name checks, title default, title check, label default and the remaining checks, stopping at the first failure |
| Fields.FirstChecksShape | src/types/fields.ts:165-171 | after the first checks the type is a known field type (or an inherited key), the name is a string, and a select field's `values` is an array, a function or undefined |
| Fields.RestChecksShape | src/types/fields.ts:181-192 | after the remaining checks the label is a string or undefined and every `allow*` flag is a boolean or undefined |
| Fields.ValidatedShape | src/types/fields.ts:158-193 | a validated field has a truthy known type, string name, title and label, well-typed select values and boolean-or-undefined flags |
| Fields.TitleAndLabelDefaults | src/types/fields.ts:173-180 | after a pass the title is the given one or the derived one, and the label the given one or the title |
| Fields.ValidateFrame | src/types/fields.ts:158-193 | validation only ever changes `type`, `title` and `label`, and only the ones that were missing |
| Fields.ValidateIdempotent | src/types/fields.ts:158-193 | validating a validated field again passes and changes nothing |
| Fields.SecondRun | src/types/fields.ts:158-193 | a field whose checks pass and whose type, title and label are already set validates unchanged |
| Fields.NamelessFieldRejected | src/types/fields.ts:170 | a field without a name is rejected |
| Fields.DeslugifyEmpty | src/tools.ts:22-35 | deslugifying the empty name gives the empty string in both trees |
| Fields.EmptyNameNeedsTitle | src/types/fields.ts:173-174 | an empty name with no title is rejected, because its derived title cannot be capitalised |
| Tweaks.Defaults | src/types/tweaks.ts:26-71 | the TypeScript defaults: summary and CSRF on, field `__cui_csrf__`, cookies `CUI_csrf` and `CUI_flash`, flash lifetime 60000 ms |
| Tweaks.Construct | src/types/tweaks.ts:73-75 | TypeScript keeps exactly the declared keys (JavaScript declares only the summary flag and assigns the source, src/types/tweaks.js:17-19) |
| Tweaks.WrapItem | src/types/tweaks.ts:84-89 | each list entry becomes a function; a function is kept as it is |
| Tweaks.Wrapped | src/types/tweaks.ts:84-89 | the mapped list has the same length and wraps each entry in place |
| Tweaks.WrapAll | src/types/tweaks.ts:84-89 | the `.map` loop builds exactly the wrapped list |
| Tweaks.WrapKey | src/types/tweaks.ts:82-90 | a non-array asset list fails with a TypeError; an array is replaced by a fresh array of the wrapped entries |
| Tweaks.WrapKeys | src/types/tweaks.ts:82-90 | wrapping the asset lists can only fail with a TypeError |
| Tweaks.Validate | src/types/tweaks.ts:77-103 | validation failures are TypeErrors (the JavaScript tree checks only the summary flag, src/types/tweaks.js:22-26) |
| Tweaks.Tweaks.constructor | src/types/tweaks.ts:73-75 | the constructed properties are `Construct` of the source |
| Tweaks.Tweaks.ValidateAndCoerce | src/types/tweaks.ts:77-103 | the in-place validation returns the verdict and leaves exactly the properties `Validate` computes |
| Tweaks.WrappedCallsAgree | src/types/tweaks.ts:84-89 | calling a wrapped entry gives what `getOrCall` gives on the original entry |
| Tweaks.WrapKeyShape | src/types/tweaks.ts:83-89 | after wrapping, the list keeps its length, holds only functions, and no other key changes |
| Tweaks.WrapAssets | src/types/tweaks.ts:82-90 | the CSS list is wrapped first and a failure there stops before the JS list |
| Tweaks.LateChecksShape | src/types/tweaks.ts:92-102 | after the late checks the CSRF flag is a boolean, the field and cookie names strings and the lifetime a number |
| Tweaks.LateChecksExactly | src/types/tweaks.ts:92-102 | the late checks pass exactly when the CSRF flag is a boolean, the field and cookie names strings and the lifetime a number |
| Tweaks.LateChecksPassOnDefaults | src/types/tweaks.ts:92-102 | the late checks pass on the declared default values |
| Tweaks.ValidatedShape | src/types/tweaks.ts:77-103 | a validated TypeScript tweaks object has function-only asset lists and well-typed CSRF and flash settings |
| Tweaks.WrapKeysFrame | src/types/tweaks.ts:82-90 | wrapping touches no key outside the asset lists |
| Tweaks.ValidateTsPasses | src/types/tweaks.ts:77-103 | a summary flag that checks, wrappable lists and passing late checks make validation pass |
| Tweaks.CsrfCookieNameUnchecked | src/types/tweaks.ts:77-103 | `csrfCookieName` is never checked: defaults with any cookie name validate |
| Tweaks.DefaultsValid | src/types/tweaks.ts:26-103 | the declared defaults pass validation |
| Navigation.ItemDefaults | src/types/navigation.ts:5-36 | a fresh item holds exactly its tree's declared keys (the JavaScript item has no `icon`, src/types/navigation.js:9-28) |
| Navigation.ConstructItem | src/types/navigation.ts:38-40 | TypeScript keeps exactly the declared item keys |
| Navigation.ValidateItem | src/types/navigation.ts:42-58 | item validation failures are TypeErrors |
| Navigation.Cast | src/types/navigation.ts:60-65 | the cast result is an item of the tree's class whose properties are the given item's, or those of a new item built from it |
| Navigation.CastAndValidate | src/types/navigation.ts:99 | casting and validating succeeds iff the item is acceptable, fails with the item's own validation error, and on success yields the cast item |
| Navigation.ItemError | src/types/navigation.ts:106-109 | a failing item is reported as a TypeError |
| Navigation.MapPrefix | src/types/navigation.ts:103-111 | mapping the first `k` items fails only with a TypeError and otherwise yields `k` items |
| Navigation.SideStep | src/types/navigation.ts:101-113 | one side's rewrite fails only with a TypeError |
| Navigation.SideSteps | src/types/navigation.ts:101-113 | the sides' rewrites fail only with a TypeError |
| Navigation.Validate | src/types/navigation.ts:90-114 | navigation validation failures are TypeErrors |
| Navigation.Construct | src/types/navigation.ts:86-88 | TypeScript keeps exactly the declared navigation keys |
| Navigation.MapItems | src/types/navigation.ts:103-111 | the `.map` loop computes the whole-list mapping |
| Navigation.MapSide | src/types/navigation.ts:102-112 | the per-side method computes the side step: a falsy side is left alone, a list is mapped |
| Navigation.MapPrefixStaysFailed | src/types/navigation.ts:103-111 | once an item fails, later items do not change the error |
| Navigation.Navigation.constructor | src/types/navigation.ts:86-88 | the constructed properties are `Construct` of the source |
| Navigation.Navigation.ValidateAndCoerce | src/types/navigation.ts:90-114 | the in-place validation returns the verdict and leaves exactly the properties `Validate` computes |
| Navigation.TypeCheckExactly | src/tools.ts:75-89 | a single-type check passes iff the key is undefined or holds that type |
| Navigation.ItemChecksExactly | src/types/navigation.ts:45-49 | the item's type checks pass iff every listed key is undefined or of its declared type |
| Navigation.ValidateItemExactly | src/types/navigation.ts:42-58 | an item validates iff its keys are well typed and it has a truthy title or render |
| Navigation.CastIdempotent | src/types/navigation.ts:60-65 | casting an item already of the class returns it unchanged and creates nothing |
| Navigation.MapPrefixPasses | src/types/navigation.ts:103-111 | the mapping succeeds iff every item is acceptable |
| Navigation.MapPrefixValues | src/types/navigation.ts:103-111 | each mapped entry is the cast of the item at the same index |
| Navigation.MapPrefixFailure | src/types/navigation.ts:104-110 | a failure names the first failing item's index and side and carries its own message |
| Navigation.SideStepShape | src/types/navigation.ts:101-113 | after a side step that side is validated and no other key changed |
| Navigation.SidesUnrolled | src/types/navigation.ts:101 | the left side is processed before the right, and a left failure stops the run |
| Navigation.ValidatedShape | src/types/navigation.ts:90-114 | a validated navigation has a validated brand item and validated sides |
| Navigation.BrandRequired | src/types/navigation.ts:93 | a missing brand fails with the "must be provided" TypeError and changes nothing |
| Navigation.UntitledBrandRejected | src/types/navigation.ts:51-55 | a brand with neither a title nor a render function fails with the tree's own message (src/types/navigation.js:41-43) |
| Options.Defaults | src/types/options.ts:27-101 | fresh options hold exactly the declared keys, all undefined |
| Options.Construct | src/types/options.ts:103-105 | TypeScript keeps exactly the declared keys; the JavaScript `Object.assign` adds the source's own keys (src/types/options.js:105) |
| Options.RecordGetter | src/types/options.ts:126-130 | only a string `recordId` is replaced by a getter; anything else is left alone |
| Options.Head | src/types/options.ts:110-134 | the name, mode, fields and record-id steps fail only with TypeErrors |
| Options.FieldError | src/types/options.ts:142-144 | a field's own failure is rethrown as a TypeError |
| Options.FieldAt | src/types/options.ts:136-146 | one entry becomes a validated new field iff it is an object whose field validates; a non-object fails the object assertion, a bad field names its index |
| Options.MapFields | src/types/options.ts:136-146 | mapping the first `k` entries fails only with a TypeError and otherwise yields `k` fields |
| Options.FieldsStep | src/types/options.ts:136-146 | the field step fails only with a TypeError and changes no key but `fields` |
| Options.CastTo | src/tools.ts:153-158 | `cast` keeps an instance of the class and otherwise builds a new one from the value |
| Options.TweaksStep | src/types/options.ts:148-149 | the tweaks step leaves a validated `CUITweaks` instance and changes no other key |
| Options.ActionsStep | src/types/options.ts:151-152 | the actions step leaves a `CUIActions` instance that validates for the mode, and changes no other key |
| Options.NavigationStep | src/types/options.ts:154-158 | a falsy navigation is left alone; a truthy one must be an object and becomes a validated navigation instance of the tree's class |
| Options.NavigationStepAsWritten | src/types/options.js:154-159 | as written, the JavaScript tree fails on every truthy navigation; otherwise it agrees with the corrected step |
| Options.CastsStep | src/types/options.ts:160-163 | views, texts, icons and routes become instances of their classes and nothing else changes |
| Options.Tail | src/types/options.ts:165-181 | the defaults for `onError`, `debugLog` and `isProduction` leave a handler, a truthy logger and a boolean flag, and touch nothing else |
| Options.FromCasts | src/types/options.ts:160-181 | the steps from the casts on only change the cast keys and the tail keys |
| Options.FromNavigation | src/types/options.ts:154-181 | the steps from navigation on only change navigation and the later keys |
| Options.FromActions | src/types/options.ts:151-181 | the steps from actions on only change actions and the later keys |
| Options.FromTweaks | src/types/options.ts:148-181 | the steps from tweaks on only change tweaks and the later keys |
| Options.FromFields | src/types/options.ts:136-181 | the steps from the field list on only change the fields and the later keys |
| Options.Validate | src/types/options.ts:107-182 | every validation failure is a TypeError |
| Options.MakeField | src/types/options.ts:137-145 | the callback method computes the one-entry step |
| Options.MapFieldAt | src/types/options.ts:136-146 | one loop iteration extends the mapping by one entry, and a failure is final |
| Options.MapFieldList | src/types/options.ts:136-146 | the `.map` loop computes the whole-list mapping |
| Options.Options.constructor | src/types/options.ts:103-105 | the constructed properties are `Construct` of the source |
| Options.Options.CheckHead | src/types/options.ts:110-134 | the in-place head steps pass iff `Head` succeeds and leave its properties |
| Options.Options.CheckNavigation | src/types/options.ts:154-158 | the in-place navigation step passes iff `NavigationStep` succeeds and leaves its properties |
| Options.Options.CheckTail | src/types/options.ts:165-181 | the in-place tail steps pass iff `Tail` succeeds and leave its properties |
| Options.Options.ValidateAndCoerce | src/types/options.ts:107-182 | the in-place validation passes iff `Validate` succeeds and leaves exactly its properties |
| Options.Options.CheckFromFields | src/types/options.ts:136-182 | the in-place steps from the field list on pass iff `FromFields` succeeds and leave its properties |
| Options.Options.CheckFromNavigation | src/types/options.ts:154-182 | the in-place steps from the navigation on pass iff `FromNavigation` succeeds and leave its properties |
| Options.MapFieldsInto | src/types/options.ts:136-146 | the method computes the field step |
| Options.MapFieldsStaysFailed | src/types/options.ts:136-146 | once an entry fails, later entries do not change the error |
| Options.MapFieldsNext | src/types/options.ts:136-146 | the mapping of `k+1` entries extends that of `k` by the next entry's field, or stops at its failure |
| Options.HeadShape | src/types/options.ts:119-134 | after the head steps `fields` is an array of at least one entry |
| Options.NameChecksExactly | src/types/options.ts:110-111 | the name checks pass exactly on a string name |
| Options.ModeAndFieldsExactly | src/types/options.ts:116-120 | the mode and field-list checks pass exactly on an undefined or string mode that the `in` test accepts (one of the modes, or a name the modes object inherits) and an array of fields |
| Options.HeadExactly | src/types/options.ts:110-130 | after the head steps the name is a string, the mode the given one or `detail_list`, and `recordId` the given function or a getter for the given key or `id`; nothing else changes |
| Options.NameRequired | src/types/options.ts:110 | missing `name` fails with "Option \"name\" must be provided" |
| Options.HeadNameRequired | src/types/options.ts:110 | the head steps fail first on a missing name |
| Options.EmptyFieldsRejected | src/types/options.ts:132-134 | an otherwise valid head with an empty field list fails with the "at least one field" TypeError |
| Options.HeadEmptyFields | src/types/options.ts:132-134 | the head steps reject an empty field list |
| Options.MapFieldsPasses | src/types/options.ts:136-146 | the mapping succeeds iff every entry becomes a field |
| Options.MapFieldsValues | src/types/options.ts:136-146 | each mapped field has the properties its entry's validation leaves |
| Options.MapFieldsFailure | src/types/options.ts:136-146 | a failure comes from the first bad entry: its object assertion error, or its validation error prefixed with its index |
| Options.FieldsStepShape | src/types/options.ts:136-146 | after the field step every entry is a validated `CUIField` built from the entry at the same index, and validating it again changes nothing |
| Options.TailExactly | src/types/options.ts:165-181 | the tail gives the default or given `onError`, a console logger for `true`, a no-op for falsy, the given logger otherwise, and succeeds iff the production flag is a boolean |
| Options.CastsLeave | src/types/options.ts:160-181 | after the casts and tail the four helpers are instances and the tail keys are set |
| Options.NavigationLeaves | src/types/options.ts:154-158 | after the navigation step the navigation is falsy or a navigation instance |
| Options.ActionsLeave | src/types/options.ts:151-152 | after the actions step the actions validate for the mode |
| Options.TweaksLeave | src/types/options.ts:148-149 | after the tweaks step the tweaks are a `CUITweaks` instance |
| Options.FieldsLeave | src/types/options.ts:136-146 | after the field step every field is a validated `CUIField` and the count is kept |
| Options.HeadFailureEndsRun | src/types/options.ts:107-134 | a head failure is the whole validation's failure |
| Options.ValidatedHead | src/types/options.ts:110-130 | validated options keep the head's name, mode and record-id getter |
| Options.ValidatedShape | src/types/options.ts:107-182 | validated options hold a non-empty list of validated fields, validated tweaks and actions, a valid navigation if any, the four helper instances and the tail settings |
| Options.ValidatedMode | src/types/options.ts:113-115 | the validated mode is the given truthy mode or `detail_list` |
| Options.ValidatedActions | src/types/options.ts:151-152 | validated options hold actions that validate for the final mode |
| Options.NavigationAsWrittenThrows | src/types/options.js:7 | as written, the JavaScript tree throws "CUINavigation is not a constructor" on any object navigation |
| Options.NavigationAsWrittenRejects | src/types/options.js:154-159 | every navigation the corrected step accepts, the as-written step rejects |
| Options.ModeGetters | src/types/options.ts:184-190 | through `Options.SingleRecord` and `Options.ListAvailable`, which the getters `Options.Options.IsSingleRecordMode` and `Options.Options.HasList` return: single-record options have a `getSingle` function, list options a list getter, and the default mode is not single-record |
| Options.ActionsGetters | src/types/actions.ts:51-69 | validated actions have `getSingle` as a function in single-record mode and a truthy `getList` otherwise |
| Options.RecordIdGetter | src/types/options.ts:122-130 | the derived getter reads the configured key (or `id`) of a truthy record and gives `null` for a falsy one |
| Context.IdParam | src/types/context.ts:60 | the id parameter is the request's truthy `params.id`, and `null` when the params or the id are falsy |
| Context.Body | src/types/context.ts:61 | the body is the request's truthy body, else `null` |
| Context.New | src/types/context.ts:58-67 | the context keeps the options, route name, URLs and CSRF token, and takes the id, body and flash through their defaults |
| Context.PathText | src/types/context.ts:73 | a string path gains a leading `/` only when it lacks one |
| Context.QueryText | src/types/context.ts:74-80 | a falsy query adds nothing; a string query gains a leading `?` only when it lacks one; an object query is `?` and its encoding |
| Context.UrlTextParts | src/types/context.ts:72-82 | `Context.UrlText`, which `Context.Url` passes to `encodeURI`, is the base URL, then the path starting with `/`, then a `?` exactly when a query is given |
| Context.UrlPathNormalised | src/types/context.ts:73 | a path that already starts with `/` gives the same URL as the bare path |
| Context.UrlQueryNormalised | src/types/context.ts:76 | a query string that already starts with `?` gives the same URL as the bare query |
| FlashStore.Consume | src/web/flash_manager.ts:45-53 | consuming a key removes exactly that key and yields its data iff it was stored |
| FlashStore.FlashManager.constructor | src/web/flash_manager.ts:10-22 | a new manager keeps the cookie name and lifetime and starts with no flashes |
| FlashStore.FlashManager.CleanOldFlashes | src/web/flash_manager.ts:24-33 | the sweep leaves exactly the entries no older than the lifetime |
| FlashStore.FlashManager.CleanOldFlashesAsWritten | src/web/flash_manager.js:22-31 | the JavaScript sweep as written leaves the store unchanged |
| FlashStore.FlashManager.Middleware | src/web/flash_manager.ts:38-56 | without a (non-empty) cookie nothing changes; otherwise the key is consumed, its data becomes the request's flash and the cookie is cleared |
| FlashStore.FlashManager.SetFlash | src/web/flash_manager.ts:62-74 | storing sweeps, adds the data under the new key stamped now, and sends the key as the cookie |
| FlashStore.FlashManager.SetFlashAsWritten | src/web/flash_manager.js:65-77 | the JavaScript store as written adds the entry without sweeping anything |
| FlashStore.SweptExactly | src/web/flash_manager.ts:26-31 | a key survives the sweep `FlashStore.Swept` iff it is stored and its age is at most the lifetime, with its entry unchanged |
| FlashStore.StoredAddsOne | src/web/flash_manager.ts:62-66 | `FlashStore.Stored`, storing under a fresh key keeps the surviving entries and adds exactly the new one |
| FlashStore.NewEntryNotSwept | src/web/flash_manager.ts:63-66 | the entry just stored is present with its data |
| FlashStore.ConsumeOnce | src/web/flash_manager.ts:45-53 | a stored flash is consumed once: the first read yields it, a second read yields nothing |
| FlashStore.ConsumeTouchesOnlyKey | src/web/flash_manager.ts:47 | consuming one key leaves every other entry as it was |
| FlashStore.OutdatedSurvivesAsWritten | src/web/flash_manager.js:24-25 | an outdated entry survives the as-written sweep but not the corrected one |
| Csrf.DoubleSubmitCheck | src/web/csrf_middleware.ts:21-28 | only POST, PUT and DELETE are checked; a request without a body throws a TypeError, and a failed comparison is a 403 CSRF error |
| Csrf.DoubleSubmit | src/web/csrf_middleware.ts:17-45 | the middleware's verdict is the check's; on success the request's token is the cookie, or a fresh token that is also set as the cookie; on failure nothing changes |
| Csrf.ReadsAlwaysPass | src/web/csrf_middleware.ts:22 | requests other than POST, PUT and DELETE always pass |
| Csrf.DoubleSubmitPassesIff | src/web/csrf_middleware.ts:23-24 | a mutating request with a body passes iff the cookie is non-empty and the submitted field equals it |
| Csrf.NoCookieNoMutation | src/web/csrf_middleware.ts:24 | without a CSRF cookie no mutating request passes |
| Csrf.SessionBound | src/web/csrf_middleware.js:20-37 | without a session the middleware throws; reads pass; a rejection is the CSRF error |
| Csrf.SessionBoundPassesIff | src/web/csrf_middleware.js:28-34 | a mutating request with a body passes iff the submitted field is truthy and equals the session's token |
| Sessions.Resolve | src/web/session_middleware.js:91-108 | a non-empty known key yields its stored session; otherwise a new session keyed by a fresh token, created now, with a fresh CSRF token and a null back URL |
| Sessions.SessionStore.constructor | src/web/session_middleware.js:55-62 | a new store keeps the cookie name and lifetime, holds no sessions and records now as the last cleanup |
| Sessions.SessionStore.CleanExpiredSessions | src/web/session_middleware.js:69-79 | the sweep leaves exactly the sessions not seen for longer than the lifetime |
| Sessions.SessionStore.Middleware | src/web/session_middleware.js:87-135 | the request's session is the resolved one seen now, stored under its key; a cookie is set only for a new session; the sweep runs only when more than five minutes have passed since the last one |
| Sessions.SessionStore.Touch | src/web/session_middleware.js:94-127 | the request's session is the one stored under the cookie's key, or a new one with the given token if there is none, last seen now and stored under its key; a cookie is set exactly when the session is new; the store stays valid |
| Sessions.ResolveKeyed | src/web/session_middleware.js:95-108 | a found session is the one under the cookie's key; a new one carries the fresh key and CSRF token |
| Sessions.UnexpiredExactly | src/web/session_middleware.js:71-77 | a session survives the sweep `Sessions.Unexpired` iff its idle time is at most the lifetime, and it is kept unchanged |
| Sessions.CurrentSessionSurvives | src/web/session_middleware.js:125-131 | the session just seen always survives the sweep that follows it |
| Sessions.ExpiredButUnsweptIsReused | src/web/session_middleware.js:95-98 | an expired session that has not been swept yet is still reused |
| Responses.Cast | src/types/responses.ts:17-19 | a string becomes an HTML response, another falsy value the empty object, and anything else is kept; casting twice changes nothing more |
| Responses.FlashOf | src/types/responses.ts:56-58 | the flash stored for a response is its `flash` property when that is truthy, and none for the empty object |
| Responses.Emitted | src/types/responses.ts:60-68 | a redirect response redirects, an HTML response sends its HTML, and anything else is the 500 "Invalid handler response" error |
| Responses.HandleRequest | src/types/responses.ts:46-71 | the TypeScript wrapper records the route name (the JavaScript one does not, src/types/responses.js:47-72); a handler failure is passed on with nothing stored or sent; otherwise a truthy flash is stored through each tree's own `setFlash` (`Responses.StoredIn`) and its cookie set before the response is emitted |
| Responses.StoredIn | src/types/responses.js:56-58 | storing a flash puts exactly the new entry, stamped now, under the token and adds no other key; the TypeScript tree sweeps first, the JavaScript tree keeps the store as it was (src/web/flash_manager.js:65-67) |
| Responses.StoredInOutdated | src/web/flash_manager.js:22-31 | an outdated entry is dropped when the TypeScript wrapper stores a flash and kept unchanged when the JavaScript one does |
| Responses.CastIdempotent | src/types/responses.ts:17-19 | casting a cast response gives it back |
| Responses.StringIsSent | src/types/responses.ts:18 | a string result is sent as HTML with no flash |
| Responses.FalsyIsInvalid | src/types/responses.ts:18 | a falsy non-string result is rejected with a 500 error and stores no flash |
| Responses.PlainObjectFlashStored | src/types/responses.ts:56-68 | a plain object with a truthy flash gets the flash stored and is still rejected |
| Handlers.Nulled | src/web/handlers.ts:33-36 | a falsy value of a select field with a null option becomes `null`; any other value is kept |
| Handlers.Member | src/web/handlers.ts:37-43 | a value passes the options check iff some option matches it; a non-list raises a TypeError; a miss is the "Invalid … value" error |
| Handlers.SelectValue | src/web/handlers.ts:32-44 | a null or unconstrained select value is accepted as is; otherwise the options (a list, or the function's result) must contain it |
| Handlers.SelectValueAsWritten | src/web/handlers.js:37-48 | as written, the JavaScript select check only ever accepts the nulled value |
| Handlers.SelectAgreesOnLists | src/web/handlers.js:43 | when `values` is absent or a list, the as-written check agrees with the corrected one |
| Handlers.ValuesFunctionBreaksSelect | src/web/handlers.js:43 | with `values` given as a function, the as-written check raises a TypeError on a value the corrected one accepts |
| Handlers.Normalised | src/web/handlers.ts:76-82 | a validator's truthy string result becomes one message, an array its messages, and anything else none |
| Handlers.SlotMessages | src/web/handlers.ts:68-88 | an absent validator gives no messages; a function is called with the context, value and body; a schema goes through the single-value validator |
| Handlers.FaultsFor | src/web/handlers.ts:90-101 | one fault per message, each naming the field, its title and the value |
| Handlers.DoValidate | src/web/handlers.ts:68-102 | the push loop appends exactly the slot's faults, in message order, or passes the validator's failure on |
| Handlers.FieldValue | src/web/handlers.ts:30-49 | a missing body raises a TypeError; a boolean field takes the truthiness of the submitted value, a select field its nulled value, any other field the value itself |
| Handlers.FieldFaults | src/web/handlers.ts:51-56 | a field's faults are those of `validate` followed by those of `validateCreate` or `validateEdit` |
| Handlers.CoerceField | src/web/handlers.ts:20-58 | a field that is not editable in this mode is skipped; otherwise its value and faults are computed, or the first failure is passed on |
| Handlers.CoerceAndValidate | src/web/handlers.ts:16-66 | a non-list of fields raises a TypeError; a fold failure is passed on; no faults give the payload; faults give a 400 `CUIValidationError` carrying exactly those faults and the payload, except that a single fault whose field title is empty makes the error's `fullMessage` throw, so the result is then a TypeError |
| Handlers.CoerceOne | src/web/handlers.ts:20-58 | one loop iteration applies the field's outcome to the accumulated payload and faults |
| Handlers.ValidateBoth | src/web/handlers.ts:51-56 | the two validator slots append to the faults so far exactly the field's faults, or pass the first failure on |
| Handlers.CoerceLoop | src/web/handlers.ts:20-59 | the `for` loop ends with the fold of the field step over all fields: the first failure, or the payload and faults of every field |
| Handlers.FieldStepSkips | src/web/handlers.ts:21-28 | the field step skips a field exactly when it is not editable in this mode |
| Handlers.CoerceFieldsStaysFailed | src/web/handlers.ts:20-59 | once a field fails, later fields do not change the error |
| Handlers.CoerceAndValidateEditPayload | src/web/handlers.ts:16-66 | the loop computes the specification of the whole coercion |
| Handlers.PayloadKeys | src/web/handlers.ts:58 | for any field step that skips exactly the fields not editable in this mode (as `FieldStepSkips` gives for the real one), the payload's keys are exactly the names of the fields edited |
| Handlers.FaultsInFieldOrder | src/web/handlers.ts:51-56 | the faults of earlier fields come first |
| Handlers.PayloadValue | src/web/handlers.ts:58 | for such a field step, an edited field's payload entry is its own coerced value, unless a later field has the same name |
| Handlers.ResultToFlash | src/web/handlers.ts:108-119 | a falsy result or `true` gives no flash; a string is the message; anything else is passed to the message maker |
| Handlers.IndexPage | src/web/handlers.ts:123-140 | the page loads one record in single-record mode and the list otherwise, rejects falsy data with "Invalid data", and renders the matching view (the JavaScript tree reads the mode from a tweak, src/web/handlers.js:129-146) |
| Handlers.CreatePage | src/web/handlers.ts:142-144 | the create page renders the edit view with no record |
| Handlers.ShowRecord | src/web/handlers.ts:175-185 | the edit and detail pages, `EditPage` and `DetailPage` (also src/web/handlers.ts:228-238), load the record by id, answer a missing one with the 404 "not found" text, and otherwise render the view |
| Handlers.CreateAction | src/web/handlers.ts:146-173 | an unsupported create is refused; the attempt (`CreateAttempt`: coerce and validate, then `actions.create`) either fails or gives the record; a created record redirects to the index with its flash; a validation error redirects back to the create page carrying it; other errors are passed on |
| Handlers.UpdatedTarget | src/web/handlers.ts:199-207 | after an update the target is the detail page when editing from the detail view, else the index |
| Handlers.InvalidTarget | src/web/handlers.ts:209-224 | after a validation error the target is the single-record edit page, the detail edit page or the edit page |
| Handlers.EditAction | src/web/handlers.ts:187-226 | an unsupported update is refused; the attempt (`EditAttempt`: coerce and validate, then `actions.update`, with the id outside single-record mode) either fails or gives the result; a success redirects to the updated target with its flash; a validation error redirects to the invalid target carrying it; other errors are passed on |
| Handlers.DeleteAction | src/web/handlers.ts:240-251 | an unsupported delete is refused; a deletion redirects to the index with its flash; errors are passed on |
| Handlers.CreateValidationRedirects | src/web/handlers.ts:161-167 | an invalid create payload redirects to the create page with the validation error as the flash |
| Handlers.DefaultRouteTargets | src/web/handlers.ts:199-224 | with the default routes the targets are `/`, `/detail/<id>`, `/edit/<id>`, `/detail/<id>/edit` or `/edit` |

## Left out

- Promises and `async` ordering: every handler, middleware and the response wrapper are synchronous here, and a rejected promise or a thrown exception is the `Failure` of a `Result`. The `next()` callback is the returned verdict (`Http.Exit`, or the `Option<Error>` of `Responses.HandleRequest`).
- User code and library code are oracles of `Tools.Env`: actions, views, texts, icons, validators, `values` functions, `encodeURI`, `querystring.encode` and validate.js's `single`. The view, text and icon classes are not part of this model; options only cast them into instances.
- `randomToken` (crypto) and the clock (`Date.now()`, `new Date()`) are parameters of the operations that use them (`token`, `csrf`, `now`). The source reads the clock twice in `setFlash`, once for the sweep (src/web/flash_manager.ts:25) and once for the new entry's stamp (src/web/flash_manager.ts:66); the JavaScript file does the same. The model gives both the one instant `now`.
- The debug log, `console.log` and `console.error` calls, and the `CUI_tabsession` cookie that the session middleware only prints, are left out. The default `onError` and `debugLog` are the opaque functions `ErrorLogger`, `MessageLogger` and `NoOp`.
- The cookie options passed to `res.cookie` (`httpOnly`, `sameSite`) and the `Content-Type` header are not modelled. An effect records only the cookie name and value, the redirect target, or the HTML.
- `pluralize` and `singularize` wrap an external library, and `enumValues` and `isObject` have no caller in the modelled core. All four are left out.
- Numbers are `Num(int)`. NaN, fractions and `Date` objects are not modelled: timestamps are integers of milliseconds.
- The context handle that user callbacks receive (`Context.Context.Handle`) carries the request properties the context copied, but not the options or the flash.
- The `this` of a validator called as `validate.call(field, …)` is not passed to the oracle. `Tools.Call` receives only the arguments.
- The session object the middleware hands to the request is a value copy of the stored one, so later changes through `req.session` do not reach the store. The session's `flash` slot is never used by the core and is left out.
- A failing `_validateAndCoerce` leaves the object partly updated in the source. The methods here return the verdict and state exactly what the corresponding function leaves, including on failure.
- In the JavaScript tree, `indexPage` and `editAction` read the single-record flag from `ctx.tweaks.singleRecordMode`. The tweaks never set it, so those handlers always behave as in list mode. This is modelled as written (`Handlers.SingleRecordMode`).
- `CUIValidationFault.cast` and its constructor are not separate members: a fault is the value `Errors.Fault`, which holds the field's name and title rather than the whole field object.
- Handlers.FieldValue: the select-value check uses the corrected `Handlers.SelectValue` in both trees, so `Handlers.CreateAction` and `Handlers.EditAction` with the JavaScript tree do not run src/web/handlers.js:43 as written. The as-written check is only `Handlers.SelectValueAsWritten`, which is compared with the fix in `Handlers.SelectAgreesOnLists` and `Handlers.ValuesFunctionBreaksSelect`.
- Validation.NewValidationError: `byFieldName` is the corrected `Validation.ByFieldName`, not the plain-object reduce of src/types/errors.ts:85-89 as written. That reduce is only `Validation.GroupFromAsWritten`, which `Validation.GroupFromAsWrittenAgrees` compares with the fix.
- Tools.Call: the production-name closure runs the corrected `Tools.MinInProd`. Both `minimizeInProduction` in src/types/tweaks.ts:7-14 and the one in src/tools.js:198-205 mangle a dotless name. The as-written version is only `Tools.MinInProdAsWritten`.
- Tools.Capitalize, Tools.Uncapitalize: case mapping (`Js.ToUpper`, `Js.ToLower`) covers ASCII letters only, and a string is a sequence of characters, not of UTF-16 code units. The source's `toUpperCase` also maps letters such as `é` to `É`, turns `ß` into `SS` (which changes the length), and `str[0]` of a character outside the Basic Multilingual Plane is a lone surrogate. None of this is modelled. The same applies to whatever is built from these functions: the lower-casing in `Deslugify.Deslugify`, the derived field titles (`Fields.DerivedTitle`) and `Validation.FullMessage`.
- Fields.DerivedTitle: in the TypeScript tree a title derived from the name uses the corrected `Deslugify.DeslugifySpaced`, one space between words, not `Deslugify.Deslugify` as written (src/tools.ts:22-35), which leaves two.
- Options.NavigationStepAsWritten: only the navigation step of the JavaScript options validation is modelled as written. The whole-run validation (`Options.Validate`) uses the corrected step.
- `Routes.ROUTE_NAMES` (src/types/routes.js:29-32) is a lookup from each route name to itself and is left out.

## Findings

| source | as written | input that shows it | evidently intended | confidence | as-written member | corrected member |
|---|---|---|---|---|---|---|
| src/web/flash_manager.js:24-25 | `for … in` over `_flashes.entries()` enumerates nothing, so the sweep never deletes an entry; its age test also subtracts the timestamp twice | a store holding an entry stamped at 0, with `now` 120000 and `maxAge` 60000: the entry survives `setFlash` | delete the entries older than `maxAge`, as src/web/flash_manager.ts:24-33 does | high (not executed) | FlashStore.OutdatedSurvivesAsWritten | FlashStore.FlashManager.CleanOldFlashes |
| src/web/handlers.js:43 | calls `field.values.some` without `getOrCall`, although a select field's `values` may be a function (src/types/fields.js:147-149) | a select field whose `values` is a function returning a list that contains the submitted value: a TypeError instead of success | call the function first, as src/web/handlers.ts:38 does | high (not executed) | Handlers.ValuesFunctionBreaksSelect | Handlers.SelectValue |
| src/types/errors.ts:85-89 | groups the faults in a plain object literal, so a field named like an `Object.prototype` member reads the inherited value, which has no `push` | a single fault on a field named `constructor`: the `CUIValidationError` constructor throws a TypeError | a grouping keyed by the field's own name | medium (not executed) | Validation.ConstructorFieldBreaksGrouping | Validation.ByFieldName |
| src/tools.js:198-205 | `lastIndexOf('.')` is -1 for a name without a dot, so the name is cut to the empty string and its last character | the name `abc` in production becomes `.minc` | leave a dotless name whole and append `.min` | medium (not executed) | Tools.MinInProdAsWrittenMangles | Tools.MinInProd |
| src/types/tweaks.ts:7-14 | the TypeScript `minimizeInProduction` has the same `lastIndexOf`, `substring` and `slice` code as src/tools.js:198-205 | the name `abc` in production becomes `.minc` | leave a dotless name whole and append `.min` | medium (not executed) | Tools.MinInProdAsWrittenMangles | Tools.MinInProd |
| src/types/options.js:7 | imports `CUINavigation` from a module that exports only `CBQNavigation`, so `new CUINavigation(…)` at src/types/options.js:157 throws | any options object with a truthy navigation object: "CUINavigation is not a constructor" | build and validate a `CBQNavigation` | high (not executed) | Options.NavigationAsWrittenRejects | Options.NavigationStep |
| src/tools.ts:22-35 | every matched word gets a space appended, and the space the first replace put between two words stays, so the trimmed result has two spaces between words | the slug `a_b` deslugifies to `a  b`, and the field name `first_name` gets the title `First  name` | one space between words, as the doc comment at src/tools.ts:19-20 says (`string_with_things` to `string with things`) | medium (not executed) | Deslugify.DeslugifyDoublesSpace | Deslugify.DeslugifySpaced |
