# mwrap core, modelled in Dafny

mwrap turns declarations written in a small C-like interface language
into two things per project: a C MEX gateway file and MATLAB call stubs.
These are the model's six modules, one per core Python file:

- `Lexer`: the C-line tokenizer, the keyword table and the file-name scan
  of an `@function` line.
- `Grammar`: the grammar as pure functions over a token buffer.
- `Parser`: the statement-buffered parser, modelled as a class. Its state
  is the token buffer and cursor, the function list and its signature
  table, the id counter and the error counters. It numbers each
  completed call, analyses it and deduplicates it by signature.
- `Ast`: the type-category enumeration, the `Var`/`Func` records, the
  compilation context as a class with its registries and usage flags,
  integer promotion, class inheritance, the canonical signature string
  and the declaration printer.
- `Typecheck`: the semantic analysis. It assigns input and output slots,
  classifies every variable into a type category, validates the return
  value and the arguments while counting errors, and rewrites
  FORTRAN-bound arguments to pass-by-address.
- `Mgen`: the MATLAB stub printer.
- `Cgen`: the code generator's decisions, as abstract values rather
  than C text. These cover:
  - the type property table;
  - slot and size names;
  - the declared C types;
  - the argument-passing conventions;
  - the dimension checks;
  - the release decisions;
  - FORTRAN name mangling;
  - which copiers are emitted;
  - the dispatch table from call ids to stubs;
  - the fixed phase order of each stub.

The code's loops are kept where it has them. Slot labelling, argument
validation, FORTRAN rewriting, the bracket-depth lookahead, the
tokenizer, the file-name scan, the dispatch-table construction, the stub
emitter, the dimension checks, the call-argument list, the releases and
the copier selection are all `method`s with loops. Each is proved equal
to a pure function of its inputs. The properties the code relies on are
proved about those functions as lemmas.

Where the repository's documentation and its code differ, the model
follows the code:

- At promotion level 3, `long` becomes `int32_t` but records the 64-bit
  usage flag, and `uint` becomes `uint64_t` but records the unsigned
  32-bit flag (python/mwrap_ast.py:188-196).
- Every completed call statement takes the next id, duplicates included
  (python/mwrap_parser.py:438-439). The dispatch table sends each
  duplicate's id to its representative's stub
  (python/mwrap_cgen.py:906-907).
- An array qualifier may have zero dimensions (`[]`).
- The check "array reference must be output" in `_typecheck_args` can
  never fire for the directions `i`, `o` and `b` (see
  `Typecheck.ArrayRefTestUnreachable`).

## Model

| member | source | states |
|---|---|---|
| Ast.Code | python/mwrap_ast.py:20-40 | every category has a number below 20, and only `unk` has number 0, as in the enumeration |
| Ast.CodeInjective | python/mwrap_ast.py:20-40 | distinct categories have distinct numbers |
| Ast.DirectionsExact | python/mwrap_ast.py:47-49 | every direction is an input or an output; it is both exactly for `b`; input-only means input and not output; not being an input means `o` |
| Ast.CategorySetsDisjoint | python/mwrap_ast.py:51-61 | no category is both an array and an object; objects are never complex; the complex arrays are exactly `carray` and `zarray` |
| Ast.NullableReturnExact | python/mwrap_ast.py:63-66 | `nullable_return` holds if and only if there is a return value whose category is an array, a string or one of the three pointer-to-scalar categories |
| Ast.NewVar | python/mwrap_ast.py:84-95 | a freshly parsed variable keeps the parsed fields, is unclassified and has both slot labels at -1 |
| Ast.Context.constructor | python/mwrap_ast.py:115-141 | a new context has all switches off, promotion level 0, empty registries, no classes and no usage flags |
| Ast.Context.InitScalarTypes | python/mwrap_ast.py:143-150 | afterwards the scalar registry is exactly the standard names, whatever it held before; nothing else changes |
| Ast.Context.AddScalarType | python/mwrap_ast.py:157 | the scalar registry gains the name; the other registries, switches, flags and classes are unchanged |
| Ast.Context.AddCScalarType | python/mwrap_ast.py:158 | the single-complex registry gains the name; nothing else changes |
| Ast.Context.AddZScalarType | python/mwrap_ast.py:159 | the double-complex registry gains the name; nothing else changes |
| Ast.Context.AddMxArrayType | python/mwrap_ast.py:160 | the mxArray registry gains the name; nothing else changes |
| Ast.Context.PromoteInt | python/mwrap_ast.py:167-206 | the result is the promotion of the name at the context's level; the usage flags gain exactly the flags that promotion records; registries and switches are unchanged |
| Ast.PromoteFlags | python/mwrap_ast.py:168-175 | the flag of the name's own fixed-width type is always recorded; a name that is not promotable records nothing else |
| Ast.PromoteLevelZero | python/mwrap_ast.py:167-206 | at level 0 every name is returned unchanged |
| Ast.PromoteOnlyPromotable | python/mwrap_ast.py:177-206 | a name other than int, long, uint and ulong is never changed; at levels 3-4 exactly those four are changed; at levels 1-2 exactly int and uint; outside 1..4 nothing is |
| Ast.PromoteIdempotent | python/mwrap_ast.py:177-206 | promoting a promoted name gives it back, so the second promotion inside the signature is harmless |
| Ast.RepromotionRecordsResultFlag | python/mwrap_ast.py:168-206 | when a promoted name is a fixed-width type, its usage flag is recorded by the promotion or by the re-promotion |
| Ast.Context.AddInherits | python/mwrap_ast.py:209-214 | the class map becomes the inheritance update of the old map; nothing else changes |
| Ast.InheritDomain | python/mwrap_ast.py:209-214 | afterwards the map is defined exactly on the old classes plus every listed parent |
| Ast.InheritUnlisted | python/mwrap_ast.py:209-214 | a parent that is not listed keeps its child list |
| Ast.InheritListed | python/mwrap_ast.py:209-214 | a listed parent's list is the child, once per listing, in front of its previous children in their previous order |
| Ast.SameShapeSameId | python/mwrap_ast.py:233-249 | two variables that differ only in names that are not constants have the same signature part |
| Ast.IdIgnoresNames | python/mwrap_ast.py:221-265 | two calls with the same head and argument shapes have the same signature string, whatever their argument names |
| Ast.IdVarSeparatesConstants | python/mwrap_ast.py:233-253 | changing a constant argument's literal changes the argument list's signature |
| Ast.IdSeparatesConstants | python/mwrap_ast.py:256-265 | two calls that differ in one constant literal have different signature strings, so they are not merged |
| Ast.PrintVar | python/mwrap_ast.py:295-296 | a printed declaration ends with a space and the variable's name |
| Ast.PrintArgs | python/mwrap_ast.py:299-303 | there is one printed declaration per argument |
| Ast.PrintFunc | python/mwrap_ast.py:306-316 | the printed call ends in `);` and a newline; without a return value or bound object it starts with the function name and `(` |
| Ast.PrintFuncArgAt | python/mwrap_ast.py:299-316 | the k-th argument's declaration sits in the printed call between the first k declarations and the rest, all joined by `, ` in order |
| Ast.PrintFuncNoArgs | python/mwrap_ast.py:306-316 | a call without arguments prints as its head followed directly by `);` |
| Ast.PrintFuncReturnFirst | python/mwrap_ast.py:306-316 | a call with a return value prints as that value's declaration, ` = `, then the call without it |
| Typecheck.LabelDimArgsExpr | python/mwrap_typecheck.py:23-28 | the dimension expressions are numbered consecutively from the counter, which advances by their number |
| Typecheck.LabelDimArgsVar | python/mwrap_typecheck.py:31-36 | every variable's dimensions are numbered in order, and the counter advances by the total number of dimensions |
| Typecheck.LabelArgsVar | python/mwrap_typecheck.py:39-48 | inputs and outputs take consecutive labels in order; the counters advance by the number of inputs and of outputs |
| Typecheck.LabelArgs | python/mwrap_typecheck.py:51-58 | the labelled function equals the labelling specification: return value then arguments for inputs and outputs, then their dimensions |
| Typecheck.LabelsContiguous | python/mwrap_typecheck.py:51-58 | the input labels run without gaps from 1 (with a bound object) or 0, over inputs then dimensions; the output labels run from 0 without gaps |
| Typecheck.UnusedSlotsStayUnset | python/mwrap_typecheck.py:42-47 | an input-only variable keeps output label -1, and an output-only variable keeps input label -1 |
| Typecheck.ListSlotAt | python/mwrap_typecheck.py:39-48 | the k-th variable's input label is the start plus the number of inputs before it, and likewise for outputs |
| Typecheck.StripQuotes | python/mwrap_typecheck.py:117-119 | the stripped literal holds no quote, is no longer, and a literal without quotes is unchanged |
| Typecheck.AssignTinfo | python/mwrap_typecheck.py:95-154 | at most one error; an error-free variable is classified; only the category changes, and the name too only for a constant |
| Typecheck.AssignTinfoLattice | python/mwrap_typecheck.py:65-154 | the error count is 1 exactly for the illegal qualifier and family pairs; otherwise, and always for numeric families, the category is the lattice entry for family and qualifier |
| Typecheck.AssignTinfoIdempotent | python/mwrap_typecheck.py:95-154 | classifying a classified variable again changes neither the variable nor the error count, quote stripping included |
| Typecheck.CheckReturn | python/mwrap_typecheck.py:161-183 | no return value costs nothing; an error-free return is classified, not a constant or array reference, an array with dimensions, a string without them |
| Typecheck.CheckArg | python/mwrap_typecheck.py:192-234 | the argument is classified as by `assign_tinfo`; an input-only argument costs no checks beyond classification; at most two more errors |
| Typecheck.DigitNameCostsOne | python/mwrap_typecheck.py:199-202 | giving a written argument a name that starts with a digit adds exactly one error |
| Typecheck.TypecheckArgs | python/mwrap_typecheck.py:190-236 | every argument is classified; the count is the sum of the per-argument errors |
| Typecheck.ErrorFreeArgs | python/mwrap_typecheck.py:190-236 | in an error-free argument list every argument is classified, and constants, plain scalars and digit names are input-only |
| Typecheck.WrittenArgErrors | python/mwrap_typecheck.py:195-234 | each output-role rule costs a written argument at least one error: a non-mxArray object, an output array without dimensions, a non-output array reference, a scalar, a constant, a string without size, an inout mxArray, a digit name |
| Typecheck.ErrorFreeWrittenArgs | python/mwrap_typecheck.py:190-236 | a written argument breaks an output-role rule if and only if that costs the list an error |
| Typecheck.ArrayRefTestUnreachable | python/mwrap_typecheck.py:215-218 | for the directions i, o and b, the array-reference check of the chain can never fire |
| Typecheck.FortranRet | python/mwrap_typecheck.py:267-277 | a FORTRAN return costs one error exactly when it is not a real or complex scalar |
| Typecheck.FortranArgByAddress | python/mwrap_typecheck.py:243-264 | each FORTRAN argument is rewritten to its by-address category; objects and array references cost one error each |
| Typecheck.ByAddressRemovesValueScalars | python/mwrap_typecheck.py:258-263 | no value or reference scalar survives the rewriting, and any other category is left alone |
| Typecheck.FortranErrsCount | python/mwrap_typecheck.py:243-264 | the FORTRAN argument errors count exactly the objects and array references |
| Typecheck.FortranizeArgs | python/mwrap_typecheck.py:243-264 | every argument becomes its by-address form; the errors are the rewriting's error count; the warnings count the string arguments |
| Typecheck.Typecheck | python/mwrap_typecheck.py:293-298 | the analysed function, error count and warning count are those of the analysis specification; the warnings are one per string argument and one for a complex return of a FORTRAN call |
| Typecheck.AnalysisKeepsCall | python/mwrap_typecheck.py:293-298 | analysis changes only the return value and arguments of a function |
| Typecheck.AnalysisKeepsSlots | python/mwrap_typecheck.py:293-298 | classification and FORTRAN rewriting keep every slot label set by labelling |
| Typecheck.AnalysedArgAt | python/mwrap_typecheck.py:293-298 | the k-th analysed argument is the classified labelled argument, rewritten if the function is FORTRAN |
| Typecheck.ErrorFreeConstantsAreInputs | python/mwrap_typecheck.py:190-236 | in an error-free function every constant argument is input-only |
| Lexer.KeywordsExact | python/mwrap_lexer.py:37-47 | a word has a keyword's token type if and only if it is one of the keywords, and distinct keywords have distinct types |
| Lexer.Scan | python/mwrap_lexer.py:50-57 | each scanning step moves forward and yields at most one token |
| Lexer.TokenizeCLine | python/mwrap_lexer.py:296-310 | the tokens produced are those of the scanner specification for the line |
| Lexer.TokensWellFormed | python/mwrap_lexer.py:296-310 | every token carries the line passed in; identifiers are `::`-scoped names; numbers are digit runs; strings start with a quote; punctuation is a single listed character |
| Lexer.CommentEndsLine | python/mwrap_lexer.py:300-301 | a `//` outside a string ends the line's tokens: what follows contributes none |
| Lexer.FnameExact | python/mwrap_lexer.py:71-84 | the file name is the name run that ends just before the trailing non-name characters before the first `(`, plus `.m` |
| Lexer.FnameScanLine | python/mwrap_lexer.py:67-84 | the backward scans return that file name |
| Grammar.AssignsExact | python/mwrap_parser.py:191-207 | a statement is an assignment if and only if an `=` at bracket depth 0 comes before any depth-0 `(` or `;` |
| Grammar.VarDefaults | python/mwrap_parser.py:310-367 | a variable without a device tag is on the host, without a direction it is an input; it is unclassified and unlabelled |
| Grammar.BaseVarIsOutput | python/mwrap_parser.py:412-430 | a declared return value is a host output, with its type promoted and the promotion's flags recorded |
| Grammar.QualShapes | python/mwrap_parser.py:369-402 | `*` and `&` give pointer and reference; brackets give an array, or an array reference when followed by `&`; empty brackets give no dimensions |
| Grammar.ExprsTokens | python/mwrap_parser.py:394-410 | a dimension list takes every other token, separated by commas, each as an unlabelled expression |
| Grammar.FuncallShape | python/mwrap_parser.py:253-294 | a parsed call has no return value and no duplicates and ends a statement |
| Grammar.AssignedCallShape | python/mwrap_parser.py:165-189 | an assignment statement's call returns exactly its declared return value |
| Grammar.StatementConsumesBuffer | python/mwrap_parser.py:157-189 | a parsed statement uses the whole buffered statement up to its `;` |
| Parser.Parser.constructor | python/mwrap_parser.py:37-54 | a new parser has an empty buffer, an empty function list and table, id 0 and no errors |
| Parser.Parser.Feed | python/mwrap_parser.py:60-75 | a `;` parses the buffer once and empties it; a line end or end of file empties it; any other token is appended; the new state is the feed specification's |
| Parser.AfterFeedOk | python/mwrap_parser.py:60-86 | feeding keeps the function list indexed with ids 1..n; a `;`-ended statement uses the whole buffer; any other token only grows the buffer |
| Parser.Parser.FlushPending | python/mwrap_parser.py:77-86 | pending tokens at a line end or end of file are dropped and cost one error |
| Parser.Parser.FinishFile | python/mwrap_parser.py:88-102 | an unfinished statement costs one error; the type errors move into the error count and reset to 0 |
| Parser.AfterLineOk | python/mwrap_parser.py:147-163 | a statement that fails to parse adds exactly one error and changes nothing but the flags it recorded; one that parses and is a call takes one id |
| Parser.Parser.Advance | python/mwrap_parser.py:108-116 | returns the token at the cursor, or end of file past the end, and moves the cursor |
| Parser.Parser.Expect | python/mwrap_parser.py:118-125 | consumes one token and tells whether it has the type wanted |
| Parser.Parser.ExpectPunct | python/mwrap_parser.py:127-139 | consumes one token and tells whether it is the punctuation wanted |
| Parser.Parser.ParseLine | python/mwrap_parser.py:157-163 | the state becomes the line specification's: the statement's effect, or one error |
| Parser.Parser.Statement | python/mwrap_parser.py:165-189 | the result is the statement grammar's, and the state is that statement's outcome |
| Parser.Parser.AssignedCall | python/mwrap_parser.py:181-186 | the result is the assignment grammar's, and the state is that statement's outcome: a call that parses, returning the declared value, is finished |
| Parser.Parser.PlainCall | python/mwrap_parser.py:187-189 | the result is the plain-call grammar's, and the state is that statement's outcome |
| Parser.Parser.ParseAssignedFuncall | python/mwrap_parser.py:182-185 | the call after the `=` with the declared value as its only return is that of the grammar, and the flags of both parts are recorded |
| Parser.AsCallOutcome | python/mwrap_parser.py:181-189 | a call statement's effect is that of finishing its call on the state that holds the call's flags; a call that fails keeps only its flags |
| Parser.Parser.HasAssignment | python/mwrap_parser.py:191-207 | the depth-counting loop decides the assignment lookahead |
| Parser.Parser.Tdef | python/mwrap_parser.py:213-230 | a type declaration registers its name in the registry its space names; any other space is one type error |
| Parser.Parser.Classdef | python/mwrap_parser.py:232-247 | a class declaration adds the child to its parents in the order listed |
| Parser.Parser.Inheritslist | python/mwrap_parser.py:241-247 | the parent list is that of the grammar |
| Parser.Parser.ParseFuncall | python/mwrap_parser.py:253-260 | the call is that of the grammar, and its promotion flags are recorded |
| Parser.Parser.ParseFunc | python/mwrap_parser.py:262-294 | the function head is that of the grammar: plain, `new`, FORTRAN or method on a bound object |
| Parser.Parser.ParseArgs | python/mwrap_parser.py:300-308 | the argument list is that of the grammar, and its flags are recorded |
| Parser.Parser.ParseVar | python/mwrap_parser.py:310-338 | the variable is that of the grammar, and its flags are recorded |
| Parser.Parser.NameOrLiteral | python/mwrap_parser.py:340-345 | the name or literal is that of the grammar |
| Parser.Parser.Devicespec | python/mwrap_parser.py:347-355 | the device tag and the cursor are those of the grammar |
| Parser.Parser.Iospec | python/mwrap_parser.py:357-367 | the direction tag and the cursor are those of the grammar |
| Parser.Parser.ParseQuals | python/mwrap_parser.py:369-377 | the qualifier is that of the grammar |
| Parser.Parser.ParseAqual | python/mwrap_parser.py:379-385 | the array qualifier after a name is that of the grammar |
| Parser.Parser.Arrayspec | python/mwrap_parser.py:387-392 | the bracketed dimension list is that of the grammar |
| Parser.Parser.ParseExprs | python/mwrap_parser.py:394-402 | the dimension list is that of the grammar |
| Parser.Parser.ParseExpr | python/mwrap_parser.py:404-410 | the dimension expression is that of the grammar |
| Parser.Parser.ParseBaseVar | python/mwrap_parser.py:412-430 | the declared return value is that of the grammar, and its flags are recorded |
| Parser.Parser.FinishFunc | python/mwrap_parser.py:436-446 | a completed call takes the next id, is analysed, its errors are counted, its stub is kept when stubs are written, and it is added to the list |
| Parser.Parser.AddFunc | python/mwrap_parser.py:448-459 | the list and table become those of the add specification, and the signature's promotion flags are recorded |
| Parser.AddedPlacement | python/mwrap_parser.py:448-459 | a new signature is appended and indexed; a repeated one joins its representative's duplicates and leaves everything else unchanged |
| Parser.AddedIndexed | python/mwrap_parser.py:448-459 | adding keeps the table sound and complete, so no two entries share a signature, and every duplicate shares its representative's signature |
| Parser.AddedIdsExact | python/mwrap_parser.py:436-459 | if the list held the ids 1..n-1 once each, adding the call numbered n makes it hold 1..n once each |
| Parser.IdsArePermutation | python/mwrap_parser.py:436-459 | the ids held, duplicates included, are a permutation of 1..n |
| Mgen.OutputList | python/mwrap_mgen.py:44-46 | without output names no `[...] =` prefix is written |
| Mgen.MatlabCall | python/mwrap_mgen.py:40-54 | the stub starts with the statement's own id and ends the call with `);` |
| Mgen.MatlabFile | python/mwrap_mgen.py:40-54 | the stub text is empty exactly when no call was stubbed |
| Mgen.OutputOperandSlots | python/mwrap_mgen.py:14-16 | the output names follow the output labels in order |
| Mgen.InputOperandSlots | python/mwrap_mgen.py:19-27 | when constants are inputs, the input values follow the input labels in order |
| Mgen.DimOperandSlots | python/mwrap_mgen.py:30-37 | the dimension values follow the dimension labels in order |
| Mgen.OperandCounts | python/mwrap_mgen.py:14-37 | one output name per output, one value per dimension, at most one value per argument |
| Mgen.StubInputsFollowSlots | python/mwrap_mgen.py:48-53 | for an error-free call, the k-th value after the id is the operand with input label k |
| Mgen.StubOutputsFollowSlots | python/mwrap_mgen.py:14-16 | the output names are the call's outputs, and the k-th has output label k |
| Mgen.AnalysedConstantsRead | python/mwrap_mgen.py:19-27 | in an error-free call every constant argument is read as an input |
| Cgen.PropsExact | python/mwrap_cgen.py:35-54 | the copier suffix is `single_` exactly for float and fcomplex; direct input is exactly for double and float; unlisted types get the default properties |
| Cgen.VNameInjective | python/mwrap_cgen.py:71-74 | two variables with the same slot name agree on being output-only and on the label that name uses |
| Cgen.IntToStringInjective | python/mwrap_cgen.py:71-74 | distinct labels print differently |
| Cgen.AllocSizeFactors | python/mwrap_cgen.py:89-93 | the size expression is the dimension names joined by `*` in order, with one `*` fewer than there are dimensions |
| Cgen.AllocSizeEmpty | python/mwrap_cgen.py:91-92 | without dimensions the size expression is `1` |
| Cgen.DeclareTypeShape | python/mwrap_cgen.py:300-320 | every classified non-constant variable gets a type; scalars their base type; arrays and objects a pointer; array references and input mxArrays a `const` type; strings `char*` |
| Cgen.ErrorFreeArgsDeclared | python/mwrap_cgen.py:300-320 | in an error-free function every non-constant argument has a declaration |
| Cgen.CallArgConvention | python/mwrap_cgen.py:597-612 | objects and object references are dereferenced, pointer scalars passed by address, constants as their literal, output mxArrays as `plhs+label`, the rest by slot name |
| Cgen.CallArgAt | python/mwrap_cgen.py:597-612 | the k-th argument's text sits between the first k and the rest, joined by `, ` |
| Cgen.MakeCallArgs | python/mwrap_cgen.py:597-612 | the loop writes each argument by its convention, joined by `, `, with a leading `, ` when not first |
| Cgen.CheckDims | python/mwrap_cgen.py:401-416 | the loop emits exactly the checks of the dimension-check specification |
| Cgen.DimChecksExact | python/mwrap_cgen.py:401-416 | a check is emitted if and only if some argument calls for it |
| Cgen.DimCheckOfShape | python/mwrap_cgen.py:401-416 | only non-output host arrays with dimensions are checked; two or more dimensions compare rows and columns, one compares rows times columns |
| Cgen.DeallocVars | python/mwrap_cgen.py:825-842 | the loop releases exactly what the release specification names |
| Cgen.AtMostOneRelease | python/mwrap_cgen.py:825-842 | each variable releases at most one buffer, on the device it lives on, from the slot its direction uses |
| Cgen.HostBufferRelease | python/mwrap_cgen.py:825-832 | a host array or string frees its output slot when output, its input slot when inout, and when input only unless it is double or float |
| Cgen.ZeroCopyNotFreed | python/mwrap_cgen.py:825-832 | a real host input array is not freed exactly when it was read in place |
| Cgen.FortranFuncs | python/mwrap_cgen.py:192-198 | the loop keeps the first FORTRAN call of each callee name |
| Cgen.FortranFirstsExact | python/mwrap_cgen.py:192-198 | the kept calls are FORTRAN calls of the list, with pairwise distinct names, covering every FORTRAN callee |
| Cgen.FortranFirstsOrder | python/mwrap_cgen.py:192-198 | the kept calls appear in list order, each being the first call of its name |
| Cgen.ManglingsAgree | python/mwrap_cgen.py:201-216 | the four conventions agree: lower case for CAPS lowers to the plain name; the single underscore adds `_`; f2c adds one more `_` when the name holds one |
| Cgen.FortranCallDefined | python/mwrap_cgen.py:201-216 | every FORTRAN callee gets exactly one define, with its mangled name, under each convention |
| Cgen.SortedSet | python/mwrap_cgen.py:179-184 | the names are listed once each, in strictly ascending order |
| Cgen.DefineCopiers | python/mwrap_cgen.py:177-185 | the emitted copiers are those of the copier specification |
| Cgen.CopierDefsExact | python/mwrap_cgen.py:137-185 | real copiers are emitted exactly for registered scalars whose usage flag is set or not needed, complex copiers exactly for registered complex types, in ascending name order |
| Cgen.RealDefsExact | python/mwrap_cgen.py:137-154 | real copier definitions are exactly those of the listed names that are wanted |
| Cgen.MaxRoutineId | python/mwrap_cgen.py:81-86 | the result is 0 or attained, and at least every representative's id |
| Cgen.AddRoutes | python/mwrap_cgen.py:903-911 | adding a representative's routes gives the map and maximum of the routes so far |
| Cgen.PrintStubTable | python/mwrap_cgen.py:898-925 | the table and stub count equal those of the dispatch specification |
| Cgen.RouteKeysAreIds | python/mwrap_cgen.py:903-911 | the routed ids are exactly the ids held, duplicates included |
| Cgen.RoutesMember | python/mwrap_cgen.py:903-911 | a route exists exactly when it sends an id held by a representative to that representative |
| Cgen.RouteMapUnique | python/mwrap_cgen.py:903-911 | an id routed only once keeps its route in the map |
| Cgen.ParsedStubTable | python/mwrap_cgen.py:898-925 | for ids 1..n: n stubs, n+1 entries, entry 0 empty, and entry i names the representative holding id i |
| Cgen.ParsedDispatch | python/mwrap_cgen.py:994-998 | a numeric id is dispatched exactly when it is in 1..n, to the representative holding it |
| Cgen.PrintMexStub | python/mwrap_cgen.py:855-886 | the emitted stub is the stub specification: comment, ids, header, the fixed phases, the checks, the call, the error label, the releases, the error report |
| Cgen.StubPhaseOrder | python/mwrap_cgen.py:865-886 | the phases of every stub come in the fixed order |
| Cgen.StubErrorLabel | python/mwrap_cgen.py:865-886 | a stub has one error label; no release comes before it; no check, profiler record or call after it; after it come exactly the releases and the error report |

## Left out

- In-place updates of `Var`, `Expr` and `Func` objects (`assign_tinfo`,
  the `_label_*` functions, `_fortranize_*`) are modelled as functions
  and methods that return the updated values. Sharing of one object
  between two lists, such as a function that is also held in another
  function's `same` list, is therefore not modelled.
- The lexer's line driver and file plumbing are I/O and are not
  modelled: `lex_file`, `_lex_stream`, `_handle_include`,
  `_handle_function`, `_handle_redirect`, the `$` pass-through and the
  switching of the MATLAB output file (python/mwrap_lexer.py:96-290).
- Parser.Parser.FinishFunc: whether a MATLAB file is open is a constant
  of the parser (`writeStubs`). All stubs are kept as one sequence,
  which `Mgen.MatlabFile` joins into one text, rather than one file per
  `@function`.
- Diagnostic text on stderr is not modelled. Errors and warnings are
  kept as counts.
- Exact C text is not modelled. This covers padding, the banner, the
  `MEX_BASE` templates, the complex-type headers and the FORTRAN
  declarations (`mex_fortran_decls`).
- The stub phases that only emit C text (declarations, unpacking,
  input checks, allocation, the call statement, marshalling) are
  markers in the phase sequence. Their C, the GPU paths and the
  `try`/`catch` wrapping are not modelled.
- Also not modelled: the casting getters (`mex_casting_getters`), the
  string-dispatch else-cases of `mexFunction`, the profiler output and
  the assembly of the whole file (`print_mex_init`, `print_mex_file`).
- Runtime behaviour of the generated C (MEX and GPU API calls,
  allocation and freeing) is outside the generator.
- Cgen.SortedSet: Python's `sorted` is modelled as the model's own order
  on code points, proved strict and total.
- Lexer.FnameScanLine: name characters are ASCII letters, digits and
  `_`. Python's `isalnum` also accepts non-ASCII letters and digits, so a
  name such as `café` is cut short in the model.
- Typecheck.TypecheckArgs: a name starts with a digit only for ASCII
  `0`-`9`. Python's `isdigit` also accepts other Unicode digits, which
  the model does not reject as output names.
- Cgen.ManglingsAgree: upper and lower case are ASCII-only. Python's
  `upper`/`lower` also map non-ASCII letters.
- Lexer.TokenizeCLine: the token expression, `re` itself, is not
  modelled. The model uses a hand-written scanner that tries the same
  alternatives in the same order.
