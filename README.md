# leetcode_testkit in Dafny

This is a model of the header-only test kit `leetcode_testkit.h`, with proofs about it. The header has two parts.

- **The value renderer.** This is the `ToString` overload family. It turns strings, C strings, bools, integers, chars, optionals, pairs, tuples, sequence containers and map-like containers into readable text. A value it cannot print becomes the sentinel `<unprintable>`.
- **The table-driven test runners.** They are the one-argument `TestSolution`, the two-argument `TestSolution` and `TestClassMethod`. Each one calls the code under test once per case, in case order. It compares the result with the expected output, counts the cases that pass, and writes a report.

## Files

| File | Module | Contents |
|---|---|---|
| `wrappers.dfy` | `Wrappers` | `Option` |
| `decimal.dfy` | `Decimal` | The decimal numeral of an integer, as written by `std::to_string` and by `operator<<`. It comes with a parser as its reference inverse. |
| `joining.dfy` | `Joining` | `Join`, the pure counterpart of the `first`-flag loops. It comes with lemmas that place each part at its offset in the joined text. |
| `renderer.dfy` | `Renderer` | The `Value` datatype, with one constructor per shape that the overloads and the trait dispatch distinguish. It holds the intended renderer `Render`, with every overload visible at every call, and the imperative `ToString` methods proved equal to it. |
| `render_properties.dfy` | `RenderProperties` | What the rendering rules promise over all values. |
| `lookup.dfy` | `NameLookup` | The renderer as the header is written, with C++ name lookup taken into account (see Findings). |
| `runner.dfy` | `Runner` | The three runners as loops. Each loop is proved against a report function and against `PassedCount`. |
| `runner_properties.dfy` | `RunnerProperties` | What the reports promise: the banner, the counter, the line format and a worked failing run. |

## How the model works

**Types and dispatch.** In C++ the overload is chosen at compile time from the static type. Here, each shape is a constructor of `Value`. The precedence that the traits imply is therefore fixed by the constructor a value is built with:

- map-like before iterable;
- a `std::string` is never iterable;
- a pair is never streamed.

**The caller's types stay abstract in the runners.** Each type comes with a function that says which `Value` its `ToString` overload sees.

**The report.** A report is the sequence of lines the runner writes, without colour codes and without line terminators. The `std::endl` before the header shows as an empty first line. The trailing `std::endl` (or the second `\n` of the two-argument runner) shows as an empty last line.

**`TestClassMethod`.** The method called through `obj->*method` may change the object. It is therefore modelled as `call: (S, I1, I2) -> (S, O)`:

- the object's state is threaded from one case to the next;
- the method returns the final state;
- `Replay` is the specification of that threading.

**Intended rendering and the header as written.** The optional, pair and tuple overloads (leetcode_testkit.h:88-122) evidently mean to render their contents with the overload that matches each content's type. The note at leetcode_testkit.h:68 shows that lookup was meant to reach the overloads.

- Unqualified calls inside a template see only the overloads declared above it. So an optional holding a pair or tuple, and a pair or tuple holding a tuple, print their contents as `<unprintable>`.
- `Renderer.Render` and `Renderer.ToString` define the intended renderer, with every overload visible at every call.
- `NameLookup.RenderAt` models the header as written. `NameLookup.AsWrittenAgreesWhenSafe` relates the two.
- The gap is recorded under Findings.

**Banners.** The one-argument `TestSolution` (leetcode_testkit.h:210-214) and `TestClassMethod` (leetcode_testkit.h:291-295) end with a PASSED/FAILED banner. The two-argument `TestSolution` prints the summary and an empty line and no banner (leetcode_testkit.h:247-248). The model follows this (`BinaryReportHasNoBanner`).

## Model

| member | source | states |
|---|---|---|
| Renderer.ToString | leetcode_testkit.h:69-173 | The overload family, with every overload visible at every call, renders any value exactly as the intended renderer `Render`. It is proved by structural recursion through the per-shape methods. For the three nestings under Findings, the header as written gives `NameLookup.RenderAt` instead. |
| Renderer.TupleToString | leetcode_testkit.h:104-122 | The `first`-flag fold over a tuple writes `(`, then the element texts in positional order joined by `, `, then `)`. |
| Renderer.MapToString | leetcode_testkit.h:142-152 | The map loop writes `{`, then the entry texts in iteration order joined by `, `, then `}`. |
| Renderer.EntryToString | leetcode_testkit.h:149 | One entry is the key's text, `: `, then the mapped value's text. |
| Renderer.ListToString | leetcode_testkit.h:153-165 | The container loop writes `[`, then the element texts in iteration order joined by `, `, then `]`. |
| Renderer.ToStringElement | leetcode_testkit.h:124-137 | A container element renders by `RenderElement`: integral elements as decimal, everything else as on its own. |
| Renderer.TuplePartAt | leetcode_testkit.h:110-113 | Part i of a tuple's text is the text of element i. |
| Renderer.ListPartAt | leetcode_testkit.h:159-163 | Part i of a container's text is the element text of element i. |
| Renderer.MapPartAt | leetcode_testkit.h:146-150 | Part i of a map's text is the text of entry i. |
| RenderProperties.TextRendersQuoted | leetcode_testkit.h:72-81 | A string renders as `"` + s + `"`, length \|s\|+2, with no escaping. A non-null C string renders the same way. A null C string renders as `null`. A string element renders as on its own. |
| RenderProperties.BoolRendersAsWord | leetcode_testkit.h:83-86 | A bool is `true` or `false`, never `1` or `0`, and renders the same way as a container element. |
| RenderProperties.IntRendersDecimal | leetcode_testkit.h:166-169 | An integer renders as its decimal numeral, alone and as an element, and that numeral reads back as the integer. |
| RenderProperties.CharElementIsCode | leetcode_testkit.h:130-131 | A char alone renders as the character itself. As a container element it renders as its numeric code, which reads back as the code. The two texts always differ. |
| RenderProperties.ElementDiffersOnlyForChar | leetcode_testkit.h:126-136 | The element text equals the standalone text if and only if the value is not a char. |
| RenderProperties.OptionalRendering | leetcode_testkit.h:88-93 | An empty optional is `nullopt`. A present one is `optional(` + inner text + `)`. |
| RenderProperties.PairIsTupleOfTwo | leetcode_testkit.h:95-101 | A pair renders as `(a, b)`, which is exactly the text of the two-element tuple. |
| RenderProperties.EmptyCollections | leetcode_testkit.h:139-165 | The empty tuple, container and map render as `()`, `[]` and `{}`. |
| RenderProperties.SingletonList | leetcode_testkit.h:153-165 | A one-element container is `[` + that element's text + `]`, with no separator. |
| RenderProperties.ListElementAt | leetcode_testkit.h:153-165 | Element i's text stands whole in the container's text, after `[` and the earlier parts with their separators. The elements appear in iteration order, each once. |
| RenderProperties.TupleElementAt | leetcode_testkit.h:104-122 | Element i's text stands whole in the tuple's text at its own offset, in positional order. |
| RenderProperties.MapEntryAt | leetcode_testkit.h:142-152 | Entry i's `key: value` text stands whole in the map's text at its own offset. The entries appear in iteration order, each once. |
| RenderProperties.ShapeMarkers | leetcode_testkit.h:139-173 | Every value renders non-empty, so rendering never fails. The shape decides the first character: `{` for a map, `[` for a container, `(` for a tuple or pair, `"` for text. An unprintable value is `<unprintable>`. |
| RenderProperties.NotRenderedAsList | leetcode_testkit.h:42-56 | A map-like value and a string never render as a container does. |
| NameLookup.AsWrittenAgreesWhenSafe | leetcode_testkit.h:88-122 | When no optional directly holds a pair or tuple and no pair or tuple holds a tuple, the header as written renders every value exactly as `Render` does. |
| NameLookup.OptionalOfPairAsWritten | leetcode_testkit.h:92 | As written, `optional<pair<int,int>>{{1,2}}` prints `optional(<unprintable>)`. The intended text is `optional((1, 2))`. |
| NameLookup.PairOfTupleAsWritten | leetcode_testkit.h:99 | As written, `pair<int, tuple<int>>{1, {2}}` prints `(1, <unprintable>)`. The intended text is `(1, (2))`. |
| NameLookup.TupleOfTupleAsWritten | leetcode_testkit.h:111-112 | As written, `tuple<tuple<>>{}` prints `(<unprintable>)`. The intended text is `(())`. |
| Decimal.DecimalRoundTrip | leetcode_testkit.h:130-131 | Decimal text is non-empty. It starts with `-` exactly for negatives, the rest is digits, and it parses back to the number. |
| Decimal.DecimalInjective | leetcode_testkit.h:208 | Two integers print the same numeral only if they are equal. |
| Joining.JoinSnoc | leetcode_testkit.h:145-150 | Appending a part writes the separator exactly when a part was already written. This is one iteration of a `first`-flag loop. |
| Joining.JoinAppend | leetcode_testkit.h:159-162 | The two branches of a loop iteration (the first element, or a later one) each extend the joined text by one part. |
| Joining.JoinAt | leetcode_testkit.h:109-113 | Every part stands whole in the joined text at its offset, in order. |
| Runner.PassedCountIsCardinality | leetcode_testkit.h:184-205 | The counter equals the number of case indices whose result equals the expected output. |
| Runner.AllPassedIff | leetcode_testkit.h:210 | The counter reaches the number of cases if and only if every result matched, including with no cases. |
| Runner.BannerIff | leetcode_testkit.h:210-214 | The banner is `All tests PASSED! ✓` if and only if every case matched, and `Some tests FAILED! ✗` if and only if some case did not. |
| Runner.PassedCountSnoc | leetcode_testkit.h:194-196 | Processing one more case increments the counter exactly when that case passed. |
| Runner.OutcomeAt | leetcode_testkit.h:189 | Result i is the solution applied to case i's input. |
| Runner.ReplaySnoc | leetcode_testkit.h:272 | Call i of the method sees the state that calls 0..i-1 left, and its result is appended. |
| Runner.CaseLineAt | leetcode_testkit.h:193-204 | Line i of the case lines is the line of case i: its rendered input, result and verdict. |
| Runner.SingleInputAt | leetcode_testkit.h:201 | Case i's input text is the rendering of its input. |
| Runner.PairInputAt | leetcode_testkit.h:242 | Case i's input text is `[a, b]` built from the two inputs' renderings. |
| Runner.ReportCase | leetcode_testkit.h:191-204 | A case line is `Test <i+1>: ` + verdict + ` Input: ` + input + label + result + ` Expected: ` + expected. The verdict comes from `result == expected`. |
| Runner.PairInputToString | leetcode_testkit.h:242 | The two inputs are written as `[a, b]`. |
| Runner.RunSolutionCases | leetcode_testkit.h:184-205 | The loop calls the solution once per case, in order. It yields the per-case lines and a counter equal to `PassedCount` of the outcomes. |
| Runner.SolutionStep | leetcode_testkit.h:186-205 | One iteration of the one-argument loop keeps its invariant: i cases processed, lines and counter for exactly those. |
| Runner.TestSolution | leetcode_testkit.h:177-216 | The report is the header, one line per case, the rule, `Result: p/n tests passed`, the banner and an empty line. `passedCount` is the number of matches. |
| Runner.RunBinaryCases | leetcode_testkit.h:225-245 | The two-argument loop calls `solution(a, b)` once per case, in order. It yields the per-case lines and the counter. |
| Runner.BinaryStep | leetcode_testkit.h:227-245 | One iteration of the two-argument loop keeps its invariant. |
| Runner.TestBinarySolution | leetcode_testkit.h:218-249 | The report is the header, the case lines, the rule, the summary and an empty line, with no banner. |
| Runner.RunClassMethodCases | leetcode_testkit.h:265-286 | The method is called once per case, in order, each call on the state the earlier ones left. The loop yields the lines, the counter and the final object state. |
| Runner.ClassMethodStep | leetcode_testkit.h:267-286 | One iteration of the class-method loop keeps its invariant, with the object state threaded. |
| Runner.TestClassMethod | leetcode_testkit.h:258-297 | The report is like the one-argument runner's, with ` -> Output: ` in each case line. The object's final state is returned. |
| RunnerProperties.PassedCountCountsMatches | leetcode_testkit.h:184-205 | The counter is the size of the set of i with `solution(input_i) == expected_i`. |
| RunnerProperties.OutcomesAgree | leetcode_testkit.h:186-189 | Every outcome is the solution applied to that case's input. |
| RunnerProperties.SolutionReportShape | leetcode_testkit.h:180-208 | A one-argument report has n+7 lines. Line 1 is `Testing <name>:`, and line n+4 is the summary with the counter and the case count. |
| RunnerProperties.SolutionBanner | leetcode_testkit.h:210-214 | The banner line reads PASSED exactly when every case matched, 0/0 included, and FAILED exactly when one did not. |
| RunnerProperties.SolutionCaseLine | leetcode_testkit.h:193-204 | Report line 3+i is case i's line, with the verdict from comparing the solution's result with the expected output. |
| RunnerProperties.BinaryReportHasNoBanner | leetcode_testkit.h:247-248 | A two-argument report has n+6 lines, ends with the summary and an empty line, and contains neither banner. |
| RunnerProperties.ClassMethodBanner | leetcode_testkit.h:291-295 | The class-method banner reads PASSED exactly when every stateful call returned the expected output, and FAILED exactly when one did not. |
| RunnerProperties.BinaryCaseLine | leetcode_testkit.h:242-244 | Line 3+i of a two-argument report is case i's line: `[a, b]` as input, ` Output: `, and the verdict from comparing `solution(a, b)` with the expected output. |
| RunnerProperties.ClassMethodLineFormat | leetcode_testkit.h:283-285 | Class-method case lines use ` -> Output: ` and the result of the i-th stateful call. |
| RunnerProperties.CaseLineVerdict | leetcode_testkit.h:193-199 | After `Test <i+1>: `, a line reads `PASSED` if and only if the case passed, and `FAILED` if and only if it did not. |
| RunnerProperties.StatelessClassMethodIsFree | leetcode_testkit.h:272 | A method whose result ignores the object's state gives the same results as the free two-argument solution. |
| RunnerProperties.ResultLineReadsBack | leetcode_testkit.h:208 | The summary line determines both the counter and the case count. |
| RunnerProperties.EmptyRunPasses | leetcode_testkit.h:177-216 | With no cases the report says `Result: 0/0 tests passed` and `All tests PASSED! ✓`. |
| RunnerProperties.FailingCaseReport | leetcode_testkit.h:177-216 | A solution answering 11 to the case (5, 10) gives one FAILED line, `Result: 0/1 tests passed` and `Some tests FAILED! ✗`. |

## Left out

- The ANSI colour macros (leetcode_testkit.h:21-24) are left out. They are terminal decoration, so report lines are modelled without them.
- Writing to `std::cout`, `std::endl` flushing and line terminators are left out. A report is the returned sequence of lines.
- The SFINAE trait machinery (leetcode_testkit.h:28-64) is left out. It is replaced by the constructors of `Value`, which keep only the precedence the traits imply.
- `operator<<` for floating-point and user-defined types is left out. Float formatting is out of scope, and user types are code the model cannot see. The streamable scalars are integers and chars.
- Argument-dependent lookup through user-defined types declared in the global namespace is left out. Such a type inside a pair or tuple would make the hidden overloads visible again. `NameLookup` considers only standard and built-in element types.
- Renderer.ToString: it and the runners (Runner.TestSolution, Runner.TestBinarySolution, Runner.TestClassMethod) render through the intended `Render`, not `NameLookup.RenderAt`. For an optional holding a pair or tuple, or a pair or tuple holding a tuple, their text therefore differs from the header's, which prints `<unprintable>` for the contents.
- Renderer.ToStringElement: a char element prints the code of a Dafny `char`, which is never negative. On a platform where `char` is signed, a char above 127 prints a negative number. That case is not modelled.
- Runner.TestSolution: the counter is a `nat`. The model does not capture the overflow of the C++ `int` counter or of `static_cast<int>(size)` beyond 2^31-1 cases.
- Runner.TestClassMethod: the pointer-to-member call `obj->*method` is modelled as a state-passing function. Aliasing of `obj` with the solution's own data is not modelled.
- Exceptions thrown by a solution are left out. They propagate out of the runner without handling, and Dafny function values are total.
- `PrintVector` (leetcode_testkit.h:252-255) is left out. It writes `ToString(vec)` to standard output, which `Renderer.ToString` covers.

## Findings

| source | as written | input that shows it | evidently intended | confidence | as-written member | corrected member |
|---|---|---|---|---|---|---|
| leetcode_testkit.h:92 | The unqualified `ToString(*opt)` sees only the overloads declared above the optional overload. Argument-dependent lookup for `std::pair`/`std::tuple` searches only `std`, so the generic template answers `<unprintable>`. | `std::optional<std::pair<int,int>>{{1, 2}}` prints `optional(<unprintable>)` | `optional((1, 2))` | high (standard two-phase lookup); not executed | NameLookup.OptionalOfPairAsWritten | RenderProperties.OptionalRendering |
| leetcode_testkit.h:99 | `ToString(p.second)` cannot see the tuple overload, which is declared later (line 120). | `std::pair<int, std::tuple<int>>{1, {2}}` prints `(1, <unprintable>)` | `(1, (2))` | high (standard two-phase lookup); not executed | NameLookup.PairOfTupleAsWritten | RenderProperties.PairIsTupleOfTwo |
| leetcode_testkit.h:111 | `ToString(std::get<Is>(t))` in `detail::TupleToStringImpl` cannot see the tuple overload declared after it. | `std::tuple<std::tuple<>>{}` prints `(<unprintable>)` | `(())` | high (standard two-phase lookup); not executed | NameLookup.TupleOfTupleAsWritten | RenderProperties.TupleElementAt |
