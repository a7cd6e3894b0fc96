/**
 * The table-driven test runners of leetcode_testkit.h: `TestSolution` for a
 * one-argument solution, `TestSolution` for a two-argument solution, and
 * `TestClassMethod` for a method called on an object.
 *
 * The report is the sequence of lines the runner writes to standard output,
 * without the colour escape codes and without the line terminators; the
 * `std::endl` written before the header and after the last line shows as an
 * empty line. The caller's types are kept abstract: each comes with the
 * function that says which `Value` its `ToString` overload sees.
 */
module Runner {
  import opened Decimal
  import opened Renderer

  const Rule := "--------------------------------------------------------------------"
  const AllPassed := "All tests PASSED! \U{2713}"
  const SomeFailed := "Some tests FAILED! \U{2717}"
  /** What stands between the input and the result in a case line. */
  const OutputLabel := " Output: "
  const ArrowOutputLabel := " -> Output: "

  function Header(name: string): seq<string>
  {
    ["", "Testing " + name + ":", Rule]
  }

  function Verdict(ok: bool): string
  {
    if ok then "PASSED" else "FAILED"
  }

  /** The report line for the case at 0-based position `index`. */
  function CaseLine(index: nat, ok: bool, input: string, outputLabel: string, output: string, expected: string): string
  {
    "Test " + DecimalText(index + 1) + ": " + Verdict(ok)
      + " Input: " + input + outputLabel + output + " Expected: " + expected
  }

  function ResultLine(passed: nat, total: nat): string
  {
    "Result: " + Fraction(passed, total) + " tests passed"
  }

  /** `passed << "/" << total`. */
  function Fraction(passed: nat, total: nat): string
  {
    DecimalText(passed) + "/" + DecimalText(total)
  }

  function Banner(passed: nat, total: nat): string
  {
    if passed == total then AllPassed else SomeFailed
  }

  /** How many results equal the expected output of their case, counted over the cases in order. */
  function PassedCount<X, O(==)>(results: seq<O>, cases: seq<(X, O)>): (n: nat)
    requires |results| == |cases|
    ensures n <= |cases|
  {
    if cases == [] then 0
    else
      PassedCount(results[..|results| - 1], cases[..|cases| - 1])
        + (if results[|results| - 1] == cases[|cases| - 1].1 then 1 else 0)
  }

  /** The indices of the passing cases. */
  function PassingIndices<X, O(==)>(results: seq<O>, cases: seq<(X, O)>): set<nat>
    requires |results| == |cases|
  {
    set i: nat | i < |cases| && results[i] == cases[i].1
  }

  /** The counter equals the number of cases whose result equals the expected output. */
  lemma {:induction false} PassedCountIsCardinality<X, O>(results: seq<O>, cases: seq<(X, O)>)
    requires |results| == |cases|
    ensures PassedCount(results, cases) == |PassingIndices(results, cases)|
  {
    if cases != [] {
      var n := |cases| - 1;
      PassedCountIsCardinality(results[..n], cases[..n]);
      var before := PassingIndices(results[..n], cases[..n]);
      if results[n] == cases[n].1 {
        assert PassingIndices(results, cases) == before + {n};
      } else {
        assert PassingIndices(results, cases) == before;
      }
    }
  }

  /** Every case passed exactly when the counter reached the number of cases. */
  lemma {:induction false} AllPassedIff<X, O>(results: seq<O>, cases: seq<(X, O)>)
    requires |results| == |cases|
    ensures PassedCount(results, cases) == |cases| <==> forall i :: 0 <= i < |cases| ==> results[i] == cases[i].1
  {
    if cases != [] {
      var n := |cases| - 1;
      AllPassedIff(results[..n], cases[..n]);
      if PassedCount(results, cases) == |cases| {
        forall i | 0 <= i < |cases|
          ensures results[i] == cases[i].1
        {
          if i < n {
            assert results[..n][i] == results[i] && cases[..n][i] == cases[i];
          }
        }
      } else if forall i :: 0 <= i < |cases| ==> results[i] == cases[i].1 {
        forall i | 0 <= i < n
          ensures results[..n][i] == cases[..n][i].1
        {
          assert results[..n][i] == results[i] && cases[..n][i] == cases[i];
        }
        assert false;
      }
    }
  }

  /**
   * The banner reads `All tests PASSED!` exactly when every result matched
   * and `Some tests FAILED!` exactly when one did not.
   */
  lemma BannerIff<X, O>(results: seq<O>, cases: seq<(X, O)>)
    requires |results| == |cases|
    ensures var banner := Banner(PassedCount(results, cases), |cases|);
      (banner == AllPassed <==> forall i :: 0 <= i < |cases| ==> results[i] == cases[i].1) &&
      (banner == SomeFailed <==> exists i :: 0 <= i < |cases| && results[i] != cases[i].1)
  {
    AllPassedIff(results, cases);
    assert AllPassed[0] != SomeFailed[0];
  }

  /** The results of calling a free solution once on each case's input, in case order. */
  function Outcomes<I, O>(solution: I -> O, cases: seq<(I, O)>): (r: seq<O>)
    ensures |r| == |cases|
  {
    if cases == [] then []
    else Outcomes(solution, cases[..|cases| - 1]) + [solution(cases[|cases| - 1].0)]
  }

  /** Result i is the solution's answer to case i. */
  lemma {:induction false} OutcomeAt<I, O>(solution: I -> O, cases: seq<(I, O)>, i: nat)
    requires i < |cases|
    ensures Outcomes(solution, cases)[i] == solution(cases[i].0)
  {
    if i < |cases| - 1 {
      OutcomeAt(solution, cases[..|cases| - 1], i);
    }
  }

  /** A two-argument solution as a function of the argument pair. */
  function OnPair<I1, I2, O>(solution: (I1, I2) -> O): ((I1, I2)) -> O
  {
    (p: (I1, I2)) => solution(p.0, p.1)
  }

  /**
   * The states and results of calling a method on one object once per
   * case, in case order: each call sees the state the previous call left.
   */
  function Replay<S, I1, I2, O>(obj: S, call: (S, I1, I2) -> (S, O), cases: seq<((I1, I2), O)>): (r: (S, seq<O>))
    ensures |r.1| == |cases|
  {
    if cases == [] then (obj, [])
    else
      var (s, results) := Replay(obj, call, cases[..|cases| - 1]);
      var c := cases[|cases| - 1];
      var (s', result) := call(s, c.0.0, c.0.1);
      (s', results + [result])
  }

  /** The line of the case at position `index`, its result and its rendered input. */
  function Line<X, O(==)>(index: nat, input: string, outputLabel: string, showOut: O -> Value, result: O, c: (X, O)): string
  {
    CaseLine(index, result == c.1, input, outputLabel, Render(showOut(result)), Render(showOut(c.1)))
  }

  /** The case lines, one per case in case order, given the rendered inputs. */
  function CaseLines<X, O(==)>(inputs: seq<string>, outputLabel: string, showOut: O -> Value, results: seq<O>, cases: seq<(X, O)>): (r: seq<string>)
    requires |inputs| == |results| == |cases|
    ensures |r| == |cases|
  {
    if cases == [] then []
    else
      var n := |cases| - 1;
      CaseLines(inputs[..n], outputLabel, showOut, results[..n], cases[..n]) + [Line(n, inputs[n], outputLabel, showOut, results[n], cases[n])]
  }

  /** Line i is the line of case i, with its rendered input and its result. */
  lemma {:induction false} CaseLineAt<X, O>(inputs: seq<string>, outputLabel: string, showOut: O -> Value, results: seq<O>, cases: seq<(X, O)>, i: nat)
    requires |inputs| == |results| == |cases| && i < |cases|
    ensures CaseLines(inputs, outputLabel, showOut, results, cases)[i] == Line(i, inputs[i], outputLabel, showOut, results[i], cases[i])
  {
    var n := |cases| - 1;
    var earlier := CaseLines(inputs[..n], outputLabel, showOut, results[..n], cases[..n]);
    assert CaseLines(inputs, outputLabel, showOut, results, cases) == earlier + [Line(n, inputs[n], outputLabel, showOut, results[n], cases[n])];
    if i < n {
      CaseLineAt(inputs[..n], outputLabel, showOut, results[..n], cases[..n], i);
      assert inputs[..n][i] == inputs[i] && results[..n][i] == results[i] && cases[..n][i] == cases[i];
    }
  }

  function SingleInputs<I, O>(showIn: I -> Value, cases: seq<(I, O)>): (r: seq<string>)
    ensures |r| == |cases|
  {
    if cases == [] then []
    else SingleInputs(showIn, cases[..|cases| - 1]) + [Render(showIn(cases[|cases| - 1].0))]
  }

  /** Input text i is the rendering of case i's input. */
  lemma {:induction false} SingleInputAt<I, O>(showIn: I -> Value, cases: seq<(I, O)>, i: nat)
    requires i < |cases|
    ensures SingleInputs(showIn, cases)[i] == Render(showIn(cases[i].0))
  {
    if i < |cases| - 1 {
      SingleInputAt(showIn, cases[..|cases| - 1], i);
    }
  }

  /** The two arguments of a case as `[first, second]`. */
  function PairInputText<I1, I2>(show1: I1 -> Value, show2: I2 -> Value, a: I1, b: I2): string
  {
    "[" + Render(show1(a)) + ", " + Render(show2(b)) + "]"
  }

  function PairInputs<I1, I2, O>(show1: I1 -> Value, show2: I2 -> Value, cases: seq<((I1, I2), O)>): (r: seq<string>)
    ensures |r| == |cases|
  {
    if cases == [] then []
    else
      var c := cases[|cases| - 1];
      PairInputs(show1, show2, cases[..|cases| - 1]) + [PairInputText(show1, show2, c.0.0, c.0.1)]
  }

  /** Input text i is the bracketed pair of case i's arguments. */
  lemma {:induction false} PairInputAt<I1, I2, O>(show1: I1 -> Value, show2: I2 -> Value, cases: seq<((I1, I2), O)>, i: nat)
    requires i < |cases|
    ensures PairInputs(show1, show2, cases)[i] == PairInputText(show1, show2, cases[i].0.0, cases[i].0.1)
  {
    if i < |cases| - 1 {
      PairInputAt(show1, show2, cases[..|cases| - 1], i);
    }
  }

  /** The whole report of the one-argument `TestSolution`. */
  function SolutionReport<I, O(==)>(name: string, solution: I -> O, cases: seq<(I, O)>, showIn: I -> Value, showOut: O -> Value): seq<string>
  {
    var results := Outcomes(solution, cases);
    var passed := PassedCount(results, cases);
    Header(name)
      + CaseLines(SingleInputs(showIn, cases), OutputLabel, showOut, results, cases)
      + [Rule, ResultLine(passed, |cases|), Banner(passed, |cases|), ""]
  }

  /** The whole report of the two-argument `TestSolution`: no banner after the summary. */
  function BinarySolutionReport<I1, I2, O(==)>(name: string, solution: (I1, I2) -> O, cases: seq<((I1, I2), O)>,
                                                show1: I1 -> Value, show2: I2 -> Value, showOut: O -> Value): seq<string>
  {
    var results := Outcomes(OnPair(solution), cases);
    var passed := PassedCount(results, cases);
    Header(name)
      + CaseLines(PairInputs(show1, show2, cases), OutputLabel, showOut, results, cases)
      + [Rule, ResultLine(passed, |cases|), ""]
  }

  /** The whole report of `TestClassMethod`: ` -> Output: ` in each case line. */
  function ClassMethodReport<S, I1, I2, O(==)>(name: string, obj: S, call: (S, I1, I2) -> (S, O), cases: seq<((I1, I2), O)>,
                                               show1: I1 -> Value, show2: I2 -> Value, showOut: O -> Value): seq<string>
  {
    var results := Replay(obj, call, cases).1;
    var passed := PassedCount(results, cases);
    Header(name)
      + CaseLines(PairInputs(show1, show2, cases), ArrowOutputLabel, showOut, results, cases)
      + [Rule, ResultLine(passed, |cases|), Banner(passed, |cases|), ""]
  }

  /** One more case processed: the counter grows by one exactly when the new case passed. */
  lemma PassedCountSnoc<X, O>(results: seq<O>, cases: seq<(X, O)>, r: O, c: (X, O))
    requires |results| == |cases|
    ensures PassedCount(results + [r], cases + [c]) == PassedCount(results, cases) + (if r == c.1 then 1 else 0)
  {
    assert (results + [r])[..|results|] == results;
    assert (cases + [c])[..|cases|] == cases;
  }

  /**
   * One case's report line, as the runners write it: the verdict, the
   * already rendered input, then the result and the expected output, each
   * rendered on its own.
   */
  method ReportCase<X, O(==)>(index: nat, inputText: string, outputLabel: string, showOut: O -> Value, result: O, c: (X, O))
    returns (line: string)
    ensures line == Line(index, inputText, outputLabel, showOut, result, c)
  {
    var isCorrect := result == c.1;
    var resultText := ToString(showOut(result));
    var expectedText := ToString(showOut(c.1));
    line := CaseLine(index, isCorrect, inputText, outputLabel, resultText, expectedText);
  }

  lemma OutcomesSnoc<I, O>(solution: I -> O, cases: seq<(I, O)>, c: (I, O))
    ensures Outcomes(solution, cases + [c]) == Outcomes(solution, cases) + [solution(c.0)]
  {
    assert (cases + [c])[..|cases|] == cases;
  }

  lemma SingleInputsSnoc<I, O>(showIn: I -> Value, cases: seq<(I, O)>, c: (I, O))
    ensures SingleInputs(showIn, cases + [c]) == SingleInputs(showIn, cases) + [Render(showIn(c.0))]
  {
    assert (cases + [c])[..|cases|] == cases;
  }

  lemma CaseLinesSnoc<X, O>(inputs: seq<string>, outputLabel: string, showOut: O -> Value, results: seq<O>, cases: seq<(X, O)>,
                                input: string, r: O, c: (X, O))
    requires |inputs| == |results| == |cases|
    ensures CaseLines(inputs + [input], outputLabel, showOut, results + [r], cases + [c])
         == CaseLines(inputs, outputLabel, showOut, results, cases) + [Line(|cases|, input, outputLabel, showOut, r, c)]
  {
    assert (inputs + [input])[..|cases|] == inputs;
    assert (results + [r])[..|cases|] == results;
    assert (cases + [c])[..|cases|] == cases;
  }

  /** One iteration of a free-solution runner: one more result, one more line, the counter updated. */
  lemma FreeSolutionStep<X, O>(solution: X -> O, cases: seq<(X, O)>, i: nat, inputs: seq<string>, input: string,
                                   outputLabel: string, showOut: O -> Value)
    requires i < |cases| && |inputs| == i
    ensures Outcomes(solution, cases[..i + 1]) == Outcomes(solution, cases[..i]) + [solution(cases[i].0)]
    ensures CaseLines(inputs + [input], outputLabel, showOut, Outcomes(solution, cases[..i + 1]), cases[..i + 1])
         == CaseLines(inputs, outputLabel, showOut, Outcomes(solution, cases[..i]), cases[..i])
            + [Line(i, input, outputLabel, showOut, solution(cases[i].0), cases[i])]
    ensures PassedCount(Outcomes(solution, cases[..i + 1]), cases[..i + 1])
         == PassedCount(Outcomes(solution, cases[..i]), cases[..i]) + (if solution(cases[i].0) == cases[i].1 then 1 else 0)
  {
    assert cases[..i + 1] == cases[..i] + [cases[i]];
    OutcomesSnoc(solution, cases[..i], cases[i]);
    CaseLinesSnoc(inputs, outputLabel, showOut, Outcomes(solution, cases[..i]), cases[..i], input, solution(cases[i].0), cases[i]);
    PassedCountSnoc(Outcomes(solution, cases[..i]), cases[..i], solution(cases[i].0), cases[i]);
  }

  /** The one-argument `TestSolution`. */
  method TestSolution<I, O(==)>(name: string, solution: I -> O, cases: seq<(I, O)>, showIn: I -> Value, showOut: O -> Value)
    returns (report: seq<string>, passedCount: nat)
    ensures passedCount == PassedCount(Outcomes(solution, cases), cases)
    ensures report == SolutionReport(name, solution, cases, showIn, showOut)
  {
    var lines;
    lines, passedCount := RunSolutionCases(solution, cases, showIn, showOut);
    var banner;
    if passedCount == |cases| {
      banner := AllPassed;
    } else {
      banner := SomeFailed;
    }
    report := Header(name) + lines + [Rule, ResultLine(passedCount, |cases|), banner, ""];
  }

  /** The case loop of the one-argument `TestSolution`: one line per case, in order, and the counter. */
  method RunSolutionCases<I, O(==)>(solution: I -> O, cases: seq<(I, O)>, showIn: I -> Value, showOut: O -> Value)
    returns (lines: seq<string>, passedCount: nat)
    ensures passedCount == PassedCount(Outcomes(solution, cases), cases)
    ensures lines == CaseLines(SingleInputs(showIn, cases), OutputLabel, showOut, Outcomes(solution, cases), cases)
  {
    lines := [];
    passedCount := 0;
    var i := 0;
    while i < |cases|
      invariant SolutionLoop(solution, cases, showIn, showOut, i, lines, passedCount)
    {
      var result := solution(cases[i].0);
      var inputText := ToString(showIn(cases[i].0));
      var line := ReportCase(i, inputText, OutputLabel, showOut, result, cases[i]);
      SolutionStep(solution, cases, showIn, showOut, i, lines, passedCount, line);
      if result == cases[i].1 {
        passedCount := passedCount + 1;
      }
      lines := lines + [line];
      i := i + 1;
    }
    assert cases[..i] == cases;
  }

  /** The loop invariant of RunSolutionCases: the first i cases are done. */
  ghost predicate SolutionLoop<I, O>(solution: I -> O, cases: seq<(I, O)>, showIn: I -> Value, showOut: O -> Value,
                                   i: int, lines: seq<string>, passedCount: nat)
  {
    0 <= i <= |cases| &&
    passedCount == PassedCount(Outcomes(solution, cases[..i]), cases[..i]) &&
    lines == CaseLines(SingleInputs(showIn, cases[..i]), OutputLabel, showOut, Outcomes(solution, cases[..i]), cases[..i])
  }

  /** One iteration of the one-argument runner's loop keeps its invariant. */
  lemma SolutionStep<I, O>(solution: I -> O, cases: seq<(I, O)>, showIn: I -> Value, showOut: O -> Value,
                           i: nat, lines: seq<string>, passedCount: nat, line: string)
    requires i < |cases| && SolutionLoop(solution, cases, showIn, showOut, i, lines, passedCount)
    requires line == Line(i, Render(showIn(cases[i].0)), OutputLabel, showOut, solution(cases[i].0), cases[i])
    ensures SolutionLoop(solution, cases, showIn, showOut, i + 1, lines + [line],
                         passedCount + (if solution(cases[i].0) == cases[i].1 then 1 else 0))
  {
    assert cases[..i + 1] == cases[..i] + [cases[i]];
    SingleInputsSnoc(showIn, cases[..i], cases[i]);
    FreeSolutionStep(solution, cases, i, SingleInputs(showIn, cases[..i]), Render(showIn(cases[i].0)), OutputLabel, showOut);
  }

  lemma PairInputsSnoc<I1, I2, O>(show1: I1 -> Value, show2: I2 -> Value, cases: seq<((I1, I2), O)>, c: ((I1, I2), O))
    ensures PairInputs(show1, show2, cases + [c]) == PairInputs(show1, show2, cases) + [PairInputText(show1, show2, c.0.0, c.0.1)]
  {
    assert (cases + [c])[..|cases|] == cases;
  }

  /** `" Input: [" << ToString(input1) << ", " << ToString(input2) << "]"`, without the label. */
  method PairInputToString<I1, I2>(show1: I1 -> Value, show2: I2 -> Value, a: I1, b: I2) returns (s: string)
    ensures s == PairInputText(show1, show2, a, b)
  {
    var first := ToString(show1(a));
    var second := ToString(show2(b));
    s := "[" + first + ", " + second + "]";
  }

  /** The two-argument `TestSolution`: the summary line is followed by an empty line and no banner. */
  method TestBinarySolution<I1, I2, O(==)>(name: string, solution: (I1, I2) -> O, cases: seq<((I1, I2), O)>,
                                           show1: I1 -> Value, show2: I2 -> Value, showOut: O -> Value)
    returns (report: seq<string>, passedCount: nat)
    ensures passedCount == PassedCount(Outcomes(OnPair(solution), cases), cases)
    ensures report == BinarySolutionReport(name, solution, cases, show1, show2, showOut)
  {
    var lines;
    lines, passedCount := RunBinaryCases(solution, cases, show1, show2, showOut);
    report := Header(name) + lines + [Rule, ResultLine(passedCount, |cases|), ""];
  }

  /** The case loop of the two-argument `TestSolution`. */
  method RunBinaryCases<I1, I2, O(==)>(solution: (I1, I2) -> O, cases: seq<((I1, I2), O)>,
                                       show1: I1 -> Value, show2: I2 -> Value, showOut: O -> Value)
    returns (lines: seq<string>, passedCount: nat)
    ensures passedCount == PassedCount(Outcomes(OnPair(solution), cases), cases)
    ensures lines == CaseLines(PairInputs(show1, show2, cases), OutputLabel, showOut, Outcomes(OnPair(solution), cases), cases)
  {
    lines := [];
    passedCount := 0;
    var i := 0;
    while i < |cases|
      invariant BinaryLoop(solution, cases, show1, show2, showOut, i, lines, passedCount)
    {
      var result := solution(cases[i].0.0, cases[i].0.1);
      var inputText := PairInputToString(show1, show2, cases[i].0.0, cases[i].0.1);
      var line := ReportCase(i, inputText, OutputLabel, showOut, result, cases[i]);
      BinaryStep(solution, cases, show1, show2, showOut, i, lines, passedCount, line);
      if result == cases[i].1 {
        passedCount := passedCount + 1;
      }
      lines := lines + [line];
      i := i + 1;
    }
    assert cases[..i] == cases;
  }

  /** The loop invariant of RunBinaryCases: the first i cases are done. */
  ghost predicate BinaryLoop<I1, I2, O>(solution: (I1, I2) -> O, cases: seq<((I1, I2), O)>,
                                            show1: I1 -> Value, show2: I2 -> Value, showOut: O -> Value,
                                            i: int, lines: seq<string>, passedCount: nat)
  {
    0 <= i <= |cases| &&
    passedCount == PassedCount(Outcomes(OnPair(solution), cases[..i]), cases[..i]) &&
    lines == CaseLines(PairInputs(show1, show2, cases[..i]), OutputLabel, showOut, Outcomes(OnPair(solution), cases[..i]), cases[..i])
  }

  /** One iteration of the two-argument runner's loop keeps its invariant. */
  lemma BinaryStep<I1, I2, O>(solution: (I1, I2) -> O, cases: seq<((I1, I2), O)>,
                              show1: I1 -> Value, show2: I2 -> Value, showOut: O -> Value,
                              i: nat, lines: seq<string>, passedCount: nat, line: string)
    requires i < |cases| && BinaryLoop(solution, cases, show1, show2, showOut, i, lines, passedCount)
    requires line == Line(i, PairInputText(show1, show2, cases[i].0.0, cases[i].0.1), OutputLabel, showOut,
                          solution(cases[i].0.0, cases[i].0.1), cases[i])
    ensures BinaryLoop(solution, cases, show1, show2, showOut, i + 1, lines + [line],
                       passedCount + (if solution(cases[i].0.0, cases[i].0.1) == cases[i].1 then 1 else 0))
  {
    assert cases[..i + 1] == cases[..i] + [cases[i]];
    assert OnPair(solution)(cases[i].0) == solution(cases[i].0.0, cases[i].0.1);
    PairInputsSnoc(show1, show2, cases[..i], cases[i]);
    FreeSolutionStep(OnPair(solution), cases, i, PairInputs(show1, show2, cases[..i]),
                     PairInputText(show1, show2, cases[i].0.0, cases[i].0.1), OutputLabel, showOut);
  }

  /**
   * `TestClassMethod`: the method is called on the same object for every
   * case, in case order, so each call sees the state the previous calls
   * left; the object's final state is returned.
   */
  method TestClassMethod<S, I1, I2, O(==)>(name: string, obj: S, call: (S, I1, I2) -> (S, O), cases: seq<((I1, I2), O)>,
                                           show1: I1 -> Value, show2: I2 -> Value, showOut: O -> Value)
    returns (report: seq<string>, passedCount: nat, objAfter: S)
    ensures objAfter == Replay(obj, call, cases).0
    ensures passedCount == PassedCount(Replay(obj, call, cases).1, cases)
    ensures report == ClassMethodReport(name, obj, call, cases, show1, show2, showOut)
  {
    var lines;
    lines, passedCount, objAfter := RunClassMethodCases(obj, call, cases, show1, show2, showOut);
    var banner;
    if passedCount == |cases| {
      banner := AllPassed;
    } else {
      banner := SomeFailed;
    }
    report := Header(name) + lines + [Rule, ResultLine(passedCount, |cases|), banner, ""];
  }

  /** The case loop of `TestClassMethod`: the object's state is threaded from call to call. */
  method RunClassMethodCases<S, I1, I2, O(==)>(obj: S, call: (S, I1, I2) -> (S, O), cases: seq<((I1, I2), O)>,
                                               show1: I1 -> Value, show2: I2 -> Value, showOut: O -> Value)
    returns (lines: seq<string>, passedCount: nat, objAfter: S)
    ensures objAfter == Replay(obj, call, cases).0
    ensures passedCount == PassedCount(Replay(obj, call, cases).1, cases)
    ensures lines == CaseLines(PairInputs(show1, show2, cases), ArrowOutputLabel, showOut, Replay(obj, call, cases).1, cases)
  {
    lines := [];
    passedCount := 0;
    objAfter := obj;
    var i := 0;
    while i < |cases|
      invariant ClassMethodLoop(obj, call, cases, show1, show2, showOut, i, lines, passedCount, objAfter)
    {
      var next := call(objAfter, cases[i].0.0, cases[i].0.1);
      var result := next.1;
      var inputText := PairInputToString(show1, show2, cases[i].0.0, cases[i].0.1);
      var line := ReportCase(i, inputText, ArrowOutputLabel, showOut, result, cases[i]);
      ClassMethodStep(obj, call, cases, show1, show2, showOut, i, lines, passedCount, objAfter, line);
      if result == cases[i].1 {
        passedCount := passedCount + 1;
      }
      lines := lines + [line];
      objAfter := next.0;
      i := i + 1;
    }
    assert cases[..i] == cases;
  }

  /** The loop invariant of RunClassMethodCases: the first i calls are made, on the threaded state. */
  ghost predicate ClassMethodLoop<S, I1, I2, O>(obj: S, call: (S, I1, I2) -> (S, O), cases: seq<((I1, I2), O)>,
                                                    show1: I1 -> Value, show2: I2 -> Value, showOut: O -> Value,
                                                    i: int, lines: seq<string>, passedCount: nat, objAfter: S)
  {
    0 <= i <= |cases| &&
    objAfter == Replay(obj, call, cases[..i]).0 &&
    passedCount == PassedCount(Replay(obj, call, cases[..i]).1, cases[..i]) &&
    lines == CaseLines(PairInputs(show1, show2, cases[..i]), ArrowOutputLabel, showOut, Replay(obj, call, cases[..i]).1, cases[..i])
  }

  /** One more call: it sees the state the earlier calls left, and its result is appended. */
  lemma ReplaySnoc<S, I1, I2, O>(obj: S, call: (S, I1, I2) -> (S, O), cases: seq<((I1, I2), O)>, c: ((I1, I2), O))
    ensures var (s, results) := Replay(obj, call, cases);
      var next := call(s, c.0.0, c.0.1);
      Replay(obj, call, cases + [c]) == (next.0, results + [next.1])
  {
    assert (cases + [c])[..|cases|] == cases;
  }

  /** One call of the class-method runner's loop keeps its invariant. */
  lemma ClassMethodStep<S, I1, I2, O>(obj: S, call: (S, I1, I2) -> (S, O), cases: seq<((I1, I2), O)>,
                                      show1: I1 -> Value, show2: I2 -> Value, showOut: O -> Value,
                                      i: nat, lines: seq<string>, passedCount: nat, objAfter: S, line: string)
    requires i < |cases| && ClassMethodLoop(obj, call, cases, show1, show2, showOut, i, lines, passedCount, objAfter)
    requires line == Line(i, PairInputText(show1, show2, cases[i].0.0, cases[i].0.1), ArrowOutputLabel, showOut,
                          call(objAfter, cases[i].0.0, cases[i].0.1).1, cases[i])
    ensures var next := call(objAfter, cases[i].0.0, cases[i].0.1);
      ClassMethodLoop(obj, call, cases, show1, show2, showOut, i + 1, lines + [line],
                      passedCount + (if next.1 == cases[i].1 then 1 else 0), next.0)
  {
    var pre, c := cases[..i], cases[i];
    var next := call(objAfter, c.0.0, c.0.1);
    var results := Replay(obj, call, pre).1;
    var input := PairInputText(show1, show2, c.0.0, c.0.1);
    assert cases[..i + 1] == pre + [c];
    ReplaySnoc(obj, call, pre, c);
    assert Replay(obj, call, cases[..i + 1]) == (next.0, results + [next.1]);
    PairInputsSnoc(show1, show2, pre, c);
    CaseLinesSnoc(PairInputs(show1, show2, pre), ArrowOutputLabel, showOut, results, pre, input, next.1, c);
    PassedCountSnoc(results, pre, next.1, c);
  }
}
