# Gel expression core in Dafny

Gel (`gel.0.2.0.js`) evaluates small prefix-notation expressions such as
`(map items {x (+ x 1)})` against a scope of injected values. It runs in
three stages:

- **Tokeniser.** Converters are tried in order: nests `( ) { } .`, then
  primitives (delimiter, double- and single-quoted strings, numbers),
  then identifiers. An identifier spelled `true`, `false`, `null` or
  `undefined` is reclassified as a keyword token.
- **Parser.** One loop walks the token list. A delimiter removes itself.
  A period takes the token before it as its target and the token after it
  as its member. A parenthesis or brace opener takes everything up to its
  matching closer as its (parsed) children.
- **Evaluator.** Each token kind has its own `evaluate`:
  - a parenthesis group calls its first child with the others as
    arguments, in a fresh child scope;
  - a brace group is a function literal whose last child is the body;
  - a period reads an own property of its target;
  - strings, numbers, identifiers and keywords give their values.

  Builtins receive an argument cursor (`callWith`'s `args`: `next`, `get`,
  `all`, `raw`, `hasNext`) that evaluates argument tokens lazily.

`gel.evaluate` builds a scope holding the functions registry overlaid
with the injected properties. It tokenises, parses and evaluates every
top-level token, and returns the last one's result.

The project has these modules:

- `Errors`, `Syntax`: the failure values and the token record.
- `Scanners`, `Tokeniser`: the converters and the tokenise loop.
- `Parser`: the nesting, period and delimiter parse functions and the
  parse loop.
- `Numbers`, `Values`: number text, values, and the host's property reads
  and conversions.
- `Scopes`: `Scope` as a class whose `get`, `set` and `add` act on a table
  chain.
- `Semantics`: the evaluator as total functions. The scope chain is passed
  as a value. Every call spends one unit of `fuel`.
- `Interpreter`: the evaluator as the source writes it. It has an
  `ArgCursor` class with a mutable `argIndex`, `Scope` objects and the
  builtins' own loops. Each method is proved equal to its `Semantics`
  function.
- `Session`: `gel.evaluate`.
- `CursorLaws`, `CallLaws`, `CollectionLaws`: the laws of the cursor, of
  calls and of the collection builtins, stated over `Semantics`.

Host behaviour outside the model stops evaluation with `Unsupported`
rather than guessing a value. This covers:

- coercions of objects, and strings used as numbers;
- prototype members, including an identifier that `Scope.get`'s `in`
  test answers from `Object.prototype`;
- a call of an object's own `hasOwnProperty` function;
- a parameter, an injected property or a written key named `__proto__`,
  which the host would take as a new prototype;
- reference identity;
- fractional numbers.

## Model

| member | source | states |
|---|---|---|
| Syntax.Leaf | gel.0.2.0.js:10-14 | A converter's token carries its kind, its text and its consumed length, and has no children, target or member yet |
| Syntax.Restore | gel.0.2.0.js:160-163 | Putting back the backslash before each terminal lengthens the text by exactly the number of terminals in it |
| Scanners.NestToken | gel.0.2.0.js:178-182 | A nest token exists exactly when the first character is one of the kind's characters, and is that one character |
| Scanners.ScanDelimiter | gel.0.2.0.js:248-255 | A delimiter token exists exactly when the text starts with whitespace or a comma; it is the maximal such run, copied from the front |
| Scanners.StringTailRestores | gel.0.2.0.js:155-164 | A successful scan ends at a terminal inside the text, and restoring the collapsed escapes gives back the text between the terminals; its only failure is the unclosed-string error |
| Scanners.ScanEscape | gel.0.2.0.js:161-164 | Collapsing an escaped terminal keeps the scan's loop invariant, with one more escape counted |
| Scanners.ScanEnd | gel.0.2.0.js:166-170 | At the closing terminal the token is the collapsed text up to it, with length index + escapes + 1 |
| Scanners.StringTokenShape | gel.0.2.0.js:151-173 | A string token starts and ends with its terminal, spells exactly the text it consumed once escapes are restored, and its length exceeds its text by the number of escapes; no token exactly when the text does not start with the terminal |
| Scanners.ClosedString | gel.0.2.0.js:166-170 | The token built from a scan that closed inside the text has the shape above |
| Scanners.DetectString | gel.0.2.0.js:151-173 | The in-place collapsing loop computes the recursive scan's token or its unclosed-string error |
| Scanners.ScanNumber | gel.0.2.0.js:280-307 | The special words win first; otherwise the token is the longest run of number characters, copied from the front, and kept only when it parses |
| Scanners.NameLength | gel.0.2.0.js:331-337 | The match of `[$A-Za-z_][0-9A-Za-z_$]*` is non-empty exactly when the first character can start a name, and is maximal |
| Scanners.IdentifierToken | gel.0.2.0.js:316-338 | An identifier token is copied from the front of the text; none exactly when there is neither an operator character nor a name start |
| Scanners.ScanIdentifier | gel.0.2.0.js:316-338 | A leading operator character yields the maximal operator run; otherwise the longest name; none exactly when neither begins the text |
| Scanners.KeywordToken | gel.0.2.0.js:349-385 | An identifier becomes a keyword token exactly when its text is `true`, `false`, `null` or `undefined`, keeping its text, with kind Boolean, Null or Undefined |
| Tokeniser.Recognised | gel.0.2.0.js:174-338 | Any converter's token consumes a non-empty prefix of the text that its source spells exactly; a converter fails only on an unclosed string |
| Tokeniser.StringConsumes | gel.0.2.0.js:262-278 | A string converter's token consumes the text it was made from |
| Tokeniser.FirstRecognised | gel.0.2.0.js:811-819 | `scanForToken` returns the first converter's token; no token means every converter of the group declined |
| Tokeniser.Reclassify | gel.0.2.0.js:854 | Reclassification keeps the text; a non-keyword identifier is unchanged; the consumed length is kept |
| Tokeniser.NextToken | gel.0.2.0.js:839-857 | One pass (nests, primitives, identifiers) yields a token that consumes a non-empty prefix of the remaining text |
| Tokeniser.IdentifierGroup | gel.0.2.0.js:851 | The identifier group answers as its single converter does |
| Tokeniser.TokensRoundTrip | gel.0.2.0.js:821-874 | Tokenising loses no text: the tokens' sources concatenate to the expression, their lengths sum to its length, and each consumes at least one character; empty input gives no tokens |
| Tokeniser.TokensFailure | gel.0.2.0.js:864-867 | A failure is UnparseableToken at a non-empty suffix where no converter makes a token, or an unclosed string |
| Tokeniser.ReclassifyKeepsText | gel.0.2.0.js:854 | A reclassified identifier keeps text and length, and changes kind exactly for the four reserved words |
| Tokeniser.Recognise | gel.0.2.0.js:174-338 | One converter's `tokenise`, as a method, equals the converter specification |
| Tokeniser.ScanForToken | gel.0.2.0.js:811-819 | The for-in over a group's converters returns the first token found |
| Tokeniser.NextTokenOf | gel.0.2.0.js:839-857 | The loop body's three scans equal the one-pass specification |
| Tokeniser.TokensStep | gel.0.2.0.js:858-863 | Pushing a token and slicing it off the expression keeps the loop invariant |
| Tokeniser.Tokenise | gel.0.2.0.js:821-874 | The do-while consuming the expression token by token computes the token list, or the error, of the specification |
| Parser.Delta | gel.0.2.0.js:75-80 | A token moves the depth by +1 exactly when it is the opener, by -1 exactly when it is the closer, and otherwise not at all |
| Parser.CloserFrom | gel.0.2.0.js:71-80 | The scan's answer is a closer at or after the start; running out of tokens is BadNesting |
| Parser.MatchingCloser | gel.0.2.0.js:71-80 | The closer found is the first position where the net depth, counting the opener, returns to zero; failure means it never does |
| Parser.FindCloser | gel.0.2.0.js:68-84 | The counting loop computes the matching closer, or BadNesting |
| Parser.ParseStep | gel.0.2.0.js:876-878 | Each step's index adjustment keeps the next index inside the list, and the list never grows |
| Parser.PeriodStep | gel.0.2.0.js:227-231 | Past the front, the period takes the token before it as its target and the token after it (or nothing) as its member; the rest of the list is unchanged. At the front, the splice at index -1 takes the last token and then the period itself, so the list loses its first and last tokens. The index steps back by one |
| Parser.NestStep | gel.0.2.0.js:65-99 | A successful nest step keeps the opener at its index and shortens the list; a closer reached as a parse entry point, or an opener without a matching closer, is BadNesting |
| Parser.NestStepShape | gel.0.2.0.js:87-90 | A successful nest step starts at an opener with a matching closer; the tokens between them, parsed, become its children and the closer disappears |
| Parser.ParseClean | gel.0.2.0.js:256-259 | Parsing raw tokens leaves no delimiter anywhere in the tree, except as a period's unparsed member |
| Parser.ParseKeepsOrder | gel.0.2.0.js:65-99 | For period-free input, writing each nest's closer back after its children spells the non-delimiter tokens in their original order |
| Parser.ParseAt | gel.0.2.0.js:877 | A token's own parse function equals its parse step |
| Parser.ParsePeriod | gel.0.2.0.js:227-231 | The two splices equal the period step, including the splice at index -1 when the period comes first |
| Parser.ParseNest | gel.0.2.0.js:65-99 | The nesting parser's splices equal the nest step |
| Parser.ParseTokens | gel.0.2.0.js:876-879 | The parse loop, adding each adjustment plus one to the index, computes the parsed tree |
| Numbers.Decimal | gel.0.2.0.js:648 | The key a for-in gives an array index is its decimal text: non-empty digits without a leading zero |
| Numbers.ArrayIndexDecimal | gel.0.2.0.js:629-638 | A key names array index n exactly when it is n's decimal text |
| Numbers.NumberValue | gel.0.2.0.js:309-311 | `parseFloat` of a token without a minus sign is never a negative integer |
| Numbers.NumberValueDecimal | gel.0.2.0.js:309-311 | A decimal parses to its value, and with a minus sign to its negation |
| Numbers.RelativeIndex | gel.0.2.0.js:602-617 | A relative position is clamped to 0..length, kept when in range, and counted from the end when negative |
| Values.StrictEquals | gel.0.2.0.js:444-452 | `===` is equality of values with NaN unequal to itself; comparing two arrays, two objects or two functions needs reference identity |
| Values.SetField | gel.0.2.0.js:483-489 | Writing a property replaces an existing key in place or appends a new one; only `__proto__` fails |
| Values.Member | gel.0.2.0.js:629-638 | Reading a property of undefined or null is a TypeError; arrays give their items and length, objects their own properties |
| Values.Inherited | gel.0.2.0.js:629-638 | A name that is not an own property reads as undefined, unless a prototype member answers it |
| Values.OwnMember | gel.0.2.0.js:232-243 | The `hasOwnProperty` read agrees with the plain read whenever it finds something; an object whose own `hasOwnProperty` is not a function is a TypeError, and one whose own `hasOwnProperty` is a function is Unsupported |
| Values.Entries | gel.0.2.0.js:497-514 | A for-in visits an object's own properties in order, and an array's items under their decimal indices |
| Values.Indexed | gel.0.2.0.js:755-770 | A counting loop over an array visits its items; over undefined or null it fails |
| Values.ApplyArgs | gel.0.2.0.js:802-807 | `apply` passes an array's items; undefined or null fails |
| Values.Reverse | gel.0.2.0.js:781-788 | `reverse` puts item k at position length - 1 - k |
| Scopes.Lookup | gel.0.2.0.js:28-33 | A name resolves to its binding in the innermost table that holds it, and to undefined when no table does |
| Scopes.LookupAsWritten | gel.0.2.0.js:28-33 | With the `in` test as written, a prototype name missing from the innermost table stops the search there |
| Scopes.PrototypeNamesShadowOuterBindings | gel.0.2.0.js:28-33 | A `constructor` binding in an outer scope is hidden from an inner scope by the prototype's `constructor` |
| Scopes.AddAll | gel.0.2.0.js:38-43 | After `add`, the table binds exactly its old names and the object's names |
| Scopes.AddAllLastWins | gel.0.2.0.js:38-43 | After `add`, a name holds the value of the last property that carries it |
| Scopes.AddAllKeeps | gel.0.2.0.js:38-43 | A name that no added property carries keeps its old binding |
| Scopes.Scope.Chain | gel.0.2.0.js:24-27 | A scope's tables are its own followed by its outer scope's |
| Scopes.Scope.constructor | gel.0.2.0.js:24-27 | A new scope has an empty table in front of its outer scope's chain |
| Scopes.Resolve | gel.0.2.0.js:340-342 | An identifier's value: outside the prototype names it is the innermost binding; a prototype name that the innermost table lacks is Unsupported, and one it binds gives that binding |
| Scopes.Scope.Get | gel.0.2.0.js:28-33 | `get` applies the `in` test table by table, as the as-written search does; outside the prototype names it finds the innermost binding |
| Scopes.Scope.Set | gel.0.2.0.js:34-37 | `set` binds the name in this scope only; every other name reads as before |
| Scopes.Scope.Add | gel.0.2.0.js:38-43 | `add` copies every property into this scope's table; outer scopes are untouched |
| Semantics.Literal | gel.0.2.0.js:202-203 | A function literal's parameters are every child but the last, and its body is the last child; an empty literal has no body |
| Semantics.Unquoted | gel.0.2.0.js:266-268 | A string's value is its text without the two terminals |
| Semantics.MemberOf | gel.0.2.0.js:232-243 | A period on a non-object gives undefined; on an array with a member it succeeds; on an object it succeeds exactly when the object has no own `hasOwnProperty`, and then gives the own property or undefined; without a member it is a TypeError |
| Semantics.Eval | gel.0.2.0.js:174-385 | An identifier outside the prototype names evaluates to its innermost binding, and an identifier fails only as Unsupported on a prototype name; a function literal always gives a closure, and a string always gives a string |
| Semantics.CallWith | gel.0.2.0.js:101-148 | Calling anything but a function is a TypeError; a call with no fuel left is OutOfFuel |
| Semantics.Next | gel.0.2.0.js:129-138 | A successful `next` had an argument left and moves the cursor by exactly one |
| Semantics.OwnConcat | gel.0.2.0.js:587-596 | An object's own `concat` is used only when truthy |
| Semantics.Appended | gel.0.2.0.js:587-596 | Concatenating onto an array keeps it as a prefix; onto a string likewise |
| Semantics.SliceOf | gel.0.2.0.js:602-617 | A slice of a string or array is no longer than it; anything without `slice` is a TypeError |
| Semantics.Span | gel.0.2.0.js:602-617 | The copied range is an ordered range inside the target |
| Semantics.CharOf | gel.0.2.0.js:688-701 | `charAt` is at most one character, and exactly the character at an in-range index |
| Semantics.NameTexts | gel.0.2.0.js:722-724 | `refine` converts every name, and fails when a name is undefined or null |
| Interpreter.ArgCursor.constructor | gel.0.2.0.js:101-105 | A new cursor starts at argument 0 of the given list, in the given scope |
| Interpreter.ArgCursor.Next | gel.0.2.0.js:129-138 | `next` returns the value of the argument at `argIndex` and moves by one; an exhausted cursor is the arity error and does not move |
| Interpreter.ArgCursor.Get | gel.0.2.0.js:117-125 | `get(i)` evaluates argument i wherever the cursor is, without moving it |
| Interpreter.ArgCursor.All | gel.0.2.0.js:139-145 | `all` returns the remaining arguments' values and leaves none remaining |
| Interpreter.ArgCursor.Raw | gel.0.2.0.js:106-116 | `raw` returns the argument list itself, evaluating token arguments first when asked |
| Interpreter.Evaluate | gel.0.2.0.js:174-385 | Each token kind's `evaluate` computes the value the evaluation semantics gives in the scope's chain, identifiers included through `Scope.get` |
| Interpreter.CallWith | gel.0.2.0.js:101-149 | `callWith` on a fresh cursor equals the call semantics |
| Interpreter.Dispatch | gel.0.2.0.js:205-215 | Running a builtin, literal, partial, flipped or composed function on the cursor equals its semantics, and the cursor only moves forward |
| Interpreter.Bind | gel.0.2.0.js:205-209 | A literal's call scope is a fresh child of the caller's scope holding `args.get(i)` for parameter i; a failing argument or a parameter named `__proto__` stops it with the specification's error |
| Interpreter.Pipe | gel.0.2.0.js:795-797 | `compose`'s loop feeds each stage the previous result |
| Interpreter.RunBuiltin | gel.0.2.0.js:387-808 | Each registry function equals its semantics |
| Interpreter.CondCall | gel.0.2.0.js:435-437 | `?` equals its semantics |
| Interpreter.NotCall | gel.0.2.0.js:438-440 | `!` equals its semantics |
| Interpreter.EqCall | gel.0.2.0.js:444-452 | `==` and `!==` equal their semantics |
| Interpreter.OrCall | gel.0.2.0.js:453-462 | The `||` loop equals its semantics |
| Interpreter.PipeCall | gel.0.2.0.js:463-472 | The `|` loop equals its semantics |
| Interpreter.AndCall | gel.0.2.0.js:473-482 | The `&&` loop equals its semantics |
| Interpreter.ObjectCall | gel.0.2.0.js:483-489 | The pairwise `object` loop equals its semantics |
| Interpreter.ArrayCall | gel.0.2.0.js:490-496 | The `array` loop equals its semantics |
| Interpreter.MapCall | gel.0.2.0.js:497-514 | `map` equals its semantics |
| Interpreter.MapItems | gel.0.2.0.js:503-506 | The array loop of `map` equals its semantics |
| Interpreter.MapFields | gel.0.2.0.js:507-511 | The for-in loop of `map` equals its semantics |
| Interpreter.FilterCall | gel.0.2.0.js:534-562 | `filter` equals its semantics |
| Interpreter.Keep | gel.0.2.0.js:534-562 | One item's test (a call, or `===` with a non-function) equals its semantics |
| Interpreter.FilterItems | gel.0.2.0.js:534-562 | The filter loop equals its semantics |
| Interpreter.FindOneCall | gel.0.2.0.js:563-586 | `findOne` equals its semantics |
| Interpreter.FindFirst | gel.0.2.0.js:563-586 | The search loop stops at the first accepted item, equal to its semantics |
| Interpreter.ConcatCall | gel.0.2.0.js:587-596 | `concat` equals its semantics |
| Interpreter.ConcatRest | gel.0.2.0.js:587-596 | The loop over the later arguments equals its semantics |
| Interpreter.ConcatEnd | gel.0.2.0.js:587-596 | The loop's exit (arguments used up, or a result with no string or array `concat`) equals its semantics |
| Interpreter.JoinCall | gel.0.2.0.js:597-601 | `join` equals its semantics |
| Interpreter.SliceCall | gel.0.2.0.js:602-617 | `slice`'s one, two and three argument forms equal its semantics |
| Interpreter.LastCall | gel.0.2.0.js:618-625 | `last` equals its semantics |
| Interpreter.LengthCall | gel.0.2.0.js:626-628 | `length` equals its semantics |
| Interpreter.GetValueCall | gel.0.2.0.js:629-638 | `getValue` equals its semantics |
| Interpreter.CompareCall | gel.0.2.0.js:639-656 | `compare` equals its semantics |
| Interpreter.CompareObjects | gel.0.2.0.js:639-656 | The loop over the objects, last first, equals its semantics |
| Interpreter.Compare | gel.0.2.0.js:639-656 | One comparator call on a property and the reference's property equals its semantics |
| Interpreter.CompareEntries | gel.0.2.0.js:639-656 | The for-in over one object's properties equals its semantics |
| Interpreter.CharAtCall | gel.0.2.0.js:688-701 | `charAt` equals its semantics |
| Interpreter.RefineCall | gel.0.2.0.js:716-735 | `refine` equals its semantics |
| Interpreter.NameTexts | gel.0.2.0.js:722-724 | Converting the names in place equals its semantics |
| Interpreter.Refined | gel.0.2.0.js:726-732 | The for-in copying chosen properties equals its semantics |
| Interpreter.FoldCall | gel.0.2.0.js:755-771 | `fold` equals its semantics |
| Interpreter.FoldItems | gel.0.2.0.js:766-768 | The fold loop equals its semantics |
| Interpreter.PartialCall | gel.0.2.0.js:772-780 | `partial` equals its semantics |
| Interpreter.FlipCall | gel.0.2.0.js:781-788 | `flip` equals its semantics |
| Interpreter.ComposeCall | gel.0.2.0.js:789-801 | `compose` equals its semantics |
| Interpreter.ApplyCall | gel.0.2.0.js:802-807 | `apply` equals its semantics |
| CursorLaws.NextLaw | gel.0.2.0.js:129-138 | `next` on an exhausted cursor is the arity error; otherwise it succeeds exactly when the current argument evaluates, gives its value, and moves by one |
| CursorLaws.AllFromValues | gel.0.2.0.js:139-145 | `all` succeeds exactly when every remaining argument evaluates, and returns their values in order |
| CursorLaws.AllFromFirstError | gel.0.2.0.js:139-145 | A failing `all` fails with the first failing argument's error, after every earlier one evaluated |
| CursorLaws.AllOfVals | gel.0.2.0.js:139-145 | `all` over plain values returns them unchanged |
| CursorLaws.CondOneBranch | gel.0.2.0.js:435-437 | `?` evaluates the condition and exactly one branch: the second argument when truthy, else the third or undefined |
| CursorLaws.OrFirstTruthy | gel.0.2.0.js:453-462 | `||` returns the first truthy argument, whatever follows it |
| CursorLaws.OrAllFalsy | gel.0.2.0.js:453-462 | With no truthy argument, `||` returns the last one, or undefined when there are none |
| CursorLaws.AndFirstFalsy | gel.0.2.0.js:473-482 | `&&` returns false at the first falsy argument, whatever follows it |
| CursorLaws.AndAllTruthy | gel.0.2.0.js:473-482 | With every argument truthy, `&&` returns the last one, or undefined when there are none |
| CursorLaws.PipeFirstTrue | gel.0.2.0.js:463-472 | `|` returns at the first argument that is exactly true; truthy values other than true do not stop it |
| CallLaws.ClosureReadsCallerScope | gel.0.2.0.js:205-206 | A literal's body sees the caller's binding of a free name (dynamic scope); a free name on `Object.prototype` is answered by the body's own empty table and is Unsupported |
| CallLaws.ClosureBindsParameter | gel.0.2.0.js:205-215 | A parameter shadows the caller's binding and holds the argument; a parameter named `__proto__` is Unsupported |
| CallLaws.BindParamsKeys | gel.0.2.0.js:207-209 | Binding succeeds exactly when every `args.get(i)` does and no parameter is `__proto__`, and then adds exactly the parameter names; a failure is some argument's error or Unsupported for `__proto__` |
| CallLaws.BindParamsValues | gel.0.2.0.js:207-209 | A parameter holds `args.get(i)` for its last position; other names keep their bindings |
| CallLaws.PartialLaw | gel.0.2.0.js:772-780 | Calling `(partial f a b)` with xs calls f with a b xs |
| CallLaws.FlipLaw | gel.0.2.0.js:781-788 | `(flip f a b)` ignores its own arguments and calls f with b a |
| CallLaws.ComposeLaw | gel.0.2.0.js:789-801 | `(compose h g)` applied to xs is h applied to g's result on xs; an error of g is the result |
| CallLaws.ApplyLaw | gel.0.2.0.js:802-807 | `apply` calls the function with the array's items as separate arguments |
| CallLaws.CallNonFunction | gel.0.2.0.js:148 | Calling a value that is not a function is a TypeError |
| CollectionLaws.FoldItemsSnoc | gel.0.2.0.js:766-768 | `fold` is a left fold: one more item is one more call on the running result |
| CollectionLaws.FoldSources | gel.0.2.0.js:755-765 | The function is last and the seed before it; one source array is folded item by item, several sources as a list, none is a TypeError |
| CollectionLaws.MapItemsPointwise | gel.0.2.0.js:503-506 | Mapping an array succeeds exactly when every call does; item k of the result is the call's result on item k |
| CollectionLaws.MapFieldsKeys | gel.0.2.0.js:507-511 | Mapping an object succeeds exactly when every value maps and no key is `__proto__`; the result has the source's keys, and under each key (distinct keys) the function's result on the source's value there |
| CollectionLaws.MapOverArray | gel.0.2.0.js:497-514 | `map` over an array is an array of the same length, item by item, failing only when some call fails |
| CollectionLaws.FilterItemsTests | gel.0.2.0.js:534-562 | `filter` succeeds exactly when every item's test does |
| CollectionLaws.FilterItemsSelects | gel.0.2.0.js:534-562 | `filter` returns exactly the items its test accepts, in their original order and with their multiplicity (equal to the reference selection `Select`, built from the back); so a sub-multiset whose items all pass and which holds every passing item |
| CollectionLaws.FilterByValue | gel.0.2.0.js:534-562 | Filtering by a non-function keeps only copies of that value |
| CollectionLaws.FilterAndFindOneArguments | gel.0.2.0.js:534-586 | With fewer than two arguments both return them as an array; a non-array source gives undefined; otherwise `findOne` searches the array |
| CollectionLaws.FindFirstHit | gel.0.2.0.js:563-586 | `findOne` returns the first accepted item |
| CollectionLaws.FindFirstMiss | gel.0.2.0.js:563-586 | When no item is accepted, `findOne` returns undefined |
| CollectionLaws.ConcatOntoArray | gel.0.2.0.js:587-596 | Concatenating onto an array appends each later argument, spreading arrays one level |
| CollectionLaws.ConcatOntoString | gel.0.2.0.js:587-596 | Concatenating strings onto a string appends their texts in order |
| CollectionLaws.ConcatCallLaw | gel.0.2.0.js:587-596 | `concat` from an array spreads the rest onto it; from undefined, null, a boolean, a number or a function with something to append, it is undefined |
| CollectionLaws.JoinLaw | gel.0.2.0.js:597-601 | The first argument is the separator (a comma when undefined) and the rest are joined with it; no arguments give the empty string |
| CollectionLaws.JoinStrings | gel.0.2.0.js:597-601 | Joining strings gives them in order with the separator between each neighbouring pair (equal to the reference `Interleaved`, built from the back), so n strings give their lengths plus n - 1 separators |
| CollectionLaws.SliceArray | gel.0.2.0.js:602-617 | One argument copies the array; a start copies from it (from the end when negative); a start and end copy the range, empty when the end precedes the start |
| CollectionLaws.ObjectFromPairs | gel.0.2.0.js:483-489 | Reading `key value` pairs with distinct keys appends each pair in order |
| CollectionLaws.ObjectRoundTrip | gel.0.2.0.js:483-489 | `object` called with an object's keys and values rebuilds it, and each key reads back its value |
| CollectionLaws.RefinedKeys | gel.0.2.0.js:726-732 | `refine` keeps exactly the named properties (or, excluding, the unnamed ones), failing only on a chosen `__proto__`; each kept property (distinct keys) holds the original's value |
| CollectionLaws.CompareEntriesAll | gel.0.2.0.js:648-652 | Every property is compared, whatever earlier comparisons gave; the result is true exactly when it started true and every comparison was truthy |
| CollectionLaws.ObjectComparison | gel.0.2.0.js:648-652 | One object's comparisons give true exactly when all of them hold |
| CollectionLaws.CompareItemsAll | gel.0.2.0.js:639-656 | Over all the objects, the result is true exactly when every comparison holds |
| CollectionLaws.CompareCallLaw | gel.0.2.0.js:639-656 | `compare`, with the comparator last and the reference before it, is true exactly when every property of every object compares truthy |
| CollectionLaws.NotLaw | gel.0.2.0.js:438-440 | `!` negates truthiness; with no argument it is the arity error |
| CollectionLaws.EqLaw | gel.0.2.0.js:444-452 | `==` is value equality with NaN unequal to itself, and `!==` its negation |
| CollectionLaws.ArrayLaw | gel.0.2.0.js:490-496 | `array` collects its arguments |
| CollectionLaws.LastLaw | gel.0.2.0.js:618-625 | `last` is an array's last item; undefined for an empty array or a non-array |
| CollectionLaws.LengthLaw | gel.0.2.0.js:626-628 | `length` counts an array's items and a string's characters |
| CollectionLaws.CharAtLaw | gel.0.2.0.js:688-701 | `charAt` is the one-character string at an in-range index, position 0 by default, and empty outside |
| CollectionLaws.GetValueLaw | gel.0.2.0.js:629-638 | On any array or object, `getValue` is the property read under the key's text (or the key's conversion error); on anything else it is undefined |
| Session.RegistryFields | gel.0.2.0.js:387-808 | The registry's properties, in declaration order, each bound to its builtin |
| Session.LastTokenResult | gel.0.2.0.js:971-973 | The result is the last top-level token's result with every earlier token evaluated; a failure is the first failing token's error |
| Session.EmptyExpression | gel.0.2.0.js:822-824 | An empty expression evaluates to undefined, unless a property named `__proto__` is injected (Unsupported) |
| Session.TopFrame | gel.0.2.0.js:950 | The top-level table binds exactly the registry's names and the injected names |
| Session.InjectedShadowsFunctions | gel.0.2.0.js:950 | An injected property overrides a function of the same name when an identifier is evaluated at the top level |
| Session.FunctionsVisible | gel.0.2.0.js:950 | A registry name that nothing injected overrides resolves to its builtin |
| Session.UnboundIsUndefined | gel.0.2.0.js:950 | A name bound by neither the registry nor the injected scope is undefined, unless `Object.prototype` has it, which is Unsupported |
| Session.EvaluateTokens | gel.0.2.0.js:881-889 | The top-level loop evaluates each token in the same scope, in order, giving the last result |
| Session.EvaluateExpression | gel.0.2.0.js:942-974 | `gel.evaluate`: two `add` calls build the top scope, then tokenise, parse and evaluate; the result is the specification's, and Unsupported when a property named `__proto__` is injected |

## Left out

- Arithmetic, ordering and loose equality: `+ - * / double max min > < >= <= = != isNaN` and `toString`. They are registry entries named `Other` and evaluate to Unsupported. They involve floating point and the host's coercions.
- `sort`, `contains`, `toLowerCase`, `format`, `date`, `toJSON` and `fromJSON` are Unsupported. They depend on the host's comparison, Unicode case mapping, a clock or JSON.
- Memoisation of tokens and expressions is not modelled. Neither are the statistics and timing (`addStat`, `printTopExpressions`). The statistics and timing do not change results. Memoisation does for one kind of expression. `memoisedExpressions` is a plain object, so for an expression such as `toString`, `constructor` or `valueOf` the test at gel.0.2.0.js:952 finds the inherited function, and `.slice()` then throws a TypeError. Session.Evaluate parses and evaluates such an expression instead.
- `returnAsTokens` is not modelled. The tokens' mutable `result` fields are replaced by returned values.
- `args.callee` and `args.length` are not modelled. No builtin in this model reads them.
- The `__proto__` layering of `gel.tokenConverters`, `gel.reservedKeywords` and `gel.functions` is not modelled. The converter groups and the registry are fixed constants. User-added converters and functions are left out.
- Values.SetField: writing the key `__proto__` replaces the prototype in the host. The model makes it Unsupported.
- Semantics.BindParams: a parameter named `__proto__` would replace the call scope's prototype in the host (gel.0.2.0.js:35). The model makes the call Unsupported. Interpreter.Bind does the same.
- Session.Evaluate: an injected property named `__proto__` would replace the top scope's prototype in the host (gel.0.2.0.js:40). The model makes the whole evaluation Unsupported.
- Scopes.AddAll, Scopes.Scope.Set and Scopes.Scope.Add bind `__proto__` as an ordinary name. The host would replace the table's prototype. The evaluator never reaches them with that name, because Semantics.BindParams, Interpreter.Bind and Session.Evaluate stop with Unsupported first.
- Session.InjectedShadowsFunctions, Session.FunctionsVisible and Session.UnboundIsUndefined are stated over `TopFrame`, which binds an injected `__proto__` as an ordinary name. For such an injection they say nothing about the host, and Session.Evaluate is Unsupported.
- Values.Entries: the host visits integer-like keys first and in ascending order. The model keeps insertion order.
- Numbers.NumberValue: only integers, `NaN` and the infinities are modelled. A fraction or an exponent is Unsupported. Numbers are `Int | NaN | Infinity`, not binary floating point.
- Scanners.ScanNumber: the `isNaN(parseFloat(run))` test is modelled only for the number-character alphabet, by the predicate `ParsesAsNumber`.
- Values.StrictEquals: reference identity is not recorded. Comparing two arrays, two objects or two functions is Unsupported.
- Values.Member: prototype members of strings, arrays, numbers, booleans and objects are Unsupported. So are the own properties of functions.
- Values.ToNumberArg: a string used as a position (`charAt`'s index, `slice`'s bounds) is Unsupported. The host converts it with its numeric string grammar, so `(charAt "abc" "1")` is "b" there. Objects, arrays and functions used as positions are Unsupported too.
- Values.OwnMember: when an object's own `hasOwnProperty` property is a function, the host calls it with the member's name. The model makes that Unsupported.
- Semantics.Eval: an identifier that the innermost table lacks but `Object.prototype` has is answered in the host by a host function or object (`Object` for `constructor`). The model makes it Unsupported. Identifier evaluation follows the `in` test as written (Scopes.Resolve over Scopes.LookupAsWritten), not the corrected Scopes.Lookup.
- Values.ToStr: `String` of an object with its own `toString` or `valueOf`, of a function, and of integers of 10^21 or more is Unsupported.
- Strings are sequences of code points, not UTF-16 code units. Whitespace is the ECMAScript `trim` set.
- Interpreter.ArgCursor.All: after a failing argument, the host's `argIndex` stops at the failing argument. The model states only that the index does not move backwards.
- Semantics: every call spends one unit of fuel, and running out is `OutOfFuel`. Non-terminating gel programs, which the host would run until its stack overflows, are cut off there.
- Exceptions are results: a thrown string or TypeError becomes an `Err` value, and its message text is not modelled.

## Findings

| source | as written | input that shows it | evidently intended | confidence | as-written member | corrected member |
|---|---|---|---|---|---|---|
| gel.0.2.0.js:28-33 | `Scope.get` tests `key in this.__scope__`. That test also finds names inherited from `Object.prototype`, so a name such as `constructor` is answered by the innermost table. The evaluator follows this test, and stops with Unsupported where the host would hand back the inherited member. | An outer scope binds `constructor` to 1, and a call's fresh inner scope reads it. The host answers `Object`'s constructor function, not 1 (Scopes.PrototypeNamesShadowOuterBindings). | An own-property test, so the search goes on outwards to the table that binds the name. Scopes.Resolve is proved to agree with it on every other name. | not executed | Scopes.LookupAsWritten | Scopes.Lookup |
