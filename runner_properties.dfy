/** What the test runners promise about their reports and counters. */
module RunnerProperties {
  import opened Decimal
  import opened Renderer
  import opened Joining
  import opened Runner

  /**
   * The counter of a free-solution run is the number of cases whose
   * solution result equals the expected output.
   */
  lemma PassedCountCountsMatches<I, O>(solution: I -> O, cases: seq<(I, O)>)
    ensures PassedCount(Outcomes(solution, cases), cases)
         == |set i: nat | i < |cases| && solution(cases[i].0) == cases[i].1|
  {
    var results := Outcomes(solution, cases);
    OutcomesAgree(solution, cases);
    PassedCountIsCardinality(results, cases);
    assert PassingIndices(results, cases) == set i: nat | i < |cases| && solution(cases[i].0) == cases[i].1;
  }

  /**
   * The report of the one-argument runner: three header lines, one line per
   * case (see SolutionCaseLine), then the rule, the summary, the banner (see
   * SolutionBanner) and an empty line.
   */
  lemma SolutionReportShape<I, O>(name: string, solution: I -> O, cases: seq<(I, O)>, showIn: I -> Value, showOut: O -> Value)
    ensures var report := SolutionReport(name, solution, cases, showIn, showOut);
      |report| == |cases| + 7 &&
      report[1] == "Testing " + name + ":" &&
      report[|cases| + 4] == ResultLine(PassedCount(Outcomes(solution, cases), cases), |cases|)
  {
  }

  /**
   * The banner of a one-argument report reads `All tests PASSED!` exactly
   * when every case matched (also when there are no cases), and
   * `Some tests FAILED!` exactly when one did not.
   */
  lemma SolutionBanner<I, O>(name: string, solution: I -> O, cases: seq<(I, O)>, showIn: I -> Value, showOut: O -> Value)
    ensures var report := SolutionReport(name, solution, cases, showIn, showOut);
      |report| == |cases| + 7 &&
      (report[|cases| + 5] == AllPassed <==> forall i :: 0 <= i < |cases| ==> solution(cases[i].0) == cases[i].1) &&
      (report[|cases| + 5] == SomeFailed <==> exists i :: 0 <= i < |cases| && solution(cases[i].0) != cases[i].1)
  {
    var results := Outcomes(solution, cases);
    BannerIff(results, cases);
    OutcomesAgree(solution, cases);
  }

  /** Every outcome of a free-solution run is the solution applied to that case's input. */
  lemma OutcomesAgree<I, O>(solution: I -> O, cases: seq<(I, O)>)
    ensures forall i :: 0 <= i < |cases| ==> Outcomes(solution, cases)[i] == solution(cases[i].0)
  {
    forall i | 0 <= i < |cases|
      ensures Outcomes(solution, cases)[i] == solution(cases[i].0)
    {
      OutcomeAt(solution, cases, i);
    }
  }

  /** Line `3 + i` of a one-argument report is the line of case i. */
  lemma SolutionCaseLine<I, O>(name: string, solution: I -> O, cases: seq<(I, O)>, showIn: I -> Value, showOut: O -> Value, i: nat)
    requires i < |cases|
    ensures SolutionReport(name, solution, cases, showIn, showOut)[3 + i]
         == CaseLine(i, solution(cases[i].0) == cases[i].1, Render(showIn(cases[i].0)), " Output: ",
                     Render(showOut(solution(cases[i].0))), Render(showOut(cases[i].1)))
  {
    var results := Outcomes(solution, cases);
    var inputs := SingleInputs(showIn, cases);
    var lines := CaseLines(inputs, OutputLabel, showOut, results, cases);
    assert SolutionReport(name, solution, cases, showIn, showOut)[3 + i] == lines[i];
    OutcomeAt(solution, cases, i);
    SingleInputAt(showIn, cases, i);
    CaseLineAt(inputs, OutputLabel, showOut, results, cases, i);
  }

  /**
   * The two-argument runner ends with the summary and an empty line: no line
   * of its report is either banner.
   */
  lemma BinaryReportHasNoBanner<I1, I2, O>(name: string, solution: (I1, I2) -> O, cases: seq<((I1, I2), O)>,
                                                show1: I1 -> Value, show2: I2 -> Value, showOut: O -> Value)
    ensures var report := BinarySolutionReport(name, solution, cases, show1, show2, showOut);
      |report| == |cases| + 6 &&
      report[|cases| + 4] == ResultLine(PassedCount(Outcomes(OnPair(solution), cases), cases), |cases|) &&
      forall k :: 0 <= k < |report| ==> report[k] != AllPassed && report[k] != SomeFailed
  {
    var report := BinarySolutionReport(name, solution, cases, show1, show2, showOut);
    var inputs := PairInputs(show1, show2, cases);
    var results := Outcomes(OnPair(solution), cases);
    var lines := CaseLines(inputs, OutputLabel, showOut, results, cases);
    var passed := PassedCount(results, cases);
    assert report == Header(name) + lines + [Rule, ResultLine(passed, |cases|), ""];
    forall k | 0 <= k < |report|
      ensures report[k] != AllPassed && report[k] != SomeFailed
    {
      if 3 <= k < 3 + |cases| {
        assert report[k] == lines[k - 3];
        CaseLineAt(inputs, OutputLabel, showOut, results, cases, k - 3);
        var c := cases[k - 3];
        var r := results[k - 3];
        NotABanner(CaseLine(k - 3, r == c.1, inputs[k - 3], OutputLabel, Render(showOut(r)), Render(showOut(c.1))));
      } else if k == 1 {
        NotABanner("Testing " + name + ":");
      } else if k == 2 || k == |cases| + 3 {
        assert report[k] == Rule;
        RuleIsNoBanner();
      } else if k == |cases| + 4 {
        NotABanner(ResultLine(passed, |cases|));
      } else {
        assert report[k] == "";
      }
    }
  }

  /** The rule is longer than either banner. */
  lemma RuleIsNoBanner()
    ensures Rule != AllPassed && Rule != SomeFailed
  {
    assert |Rule| == 68 && |AllPassed| == 19 && |SomeFailed| == 20;
  }

  /** A line that begins with neither `A` nor `S` is neither banner. */
  lemma NotABanner(line: string)
    requires |line| > 0 && line[0] != 'A' && line[0] != 'S'
    ensures line != AllPassed && line != SomeFailed
  {
    assert AllPassed[0] == 'A' && SomeFailed[0] == 'S';
  }

  /**
   * The class-method runner writes ` -> Output: ` where the free runners
   * write ` Output: `, and otherwise the same case line.
   */
  lemma ClassMethodLineFormat<S, I1, I2, O>(name: string, obj: S, call: (S, I1, I2) -> (S, O), cases: seq<((I1, I2), O)>,
                                                show1: I1 -> Value, show2: I2 -> Value, showOut: O -> Value, i: nat)
    requires i < |cases|
    ensures var report := ClassMethodReport(name, obj, call, cases, show1, show2, showOut);
      var r := Replay(obj, call, cases).1[i];
      |report| == |cases| + 7 &&
      report[3 + i] == CaseLine(i, r == cases[i].1, PairInputText(show1, show2, cases[i].0.0, cases[i].0.1),
                                " -> Output: ", Render(showOut(r)), Render(showOut(cases[i].1)))
  {
    var results := Replay(obj, call, cases).1;
    var lines := CaseLines(PairInputs(show1, show2, cases), ArrowOutputLabel, showOut, results, cases);
    var passed := PassedCount(results, cases);
    assert ClassMethodReport(name, obj, call, cases, show1, show2, showOut)
        == Header(name) + lines + [Rule, ResultLine(passed, |cases|), Banner(passed, |cases|), ""];
    PairInputAt(show1, show2, cases, i);
    CaseLineAt(PairInputs(show1, show2, cases), ArrowOutputLabel, showOut, results, cases, i);
  }

  /**
   * The banner of a class-method report reads `All tests PASSED!` exactly
   * when every stateful call returned the expected output, and
   * `Some tests FAILED!` exactly when one did not.
   */
  lemma ClassMethodBanner<S, I1, I2, O>(name: string, obj: S, call: (S, I1, I2) -> (S, O), cases: seq<((I1, I2), O)>,
                                        show1: I1 -> Value, show2: I2 -> Value, showOut: O -> Value)
    ensures var report := ClassMethodReport(name, obj, call, cases, show1, show2, showOut);
      var results := Replay(obj, call, cases).1;
      |report| == |cases| + 7 &&
      (report[|cases| + 5] == AllPassed <==> forall i :: 0 <= i < |cases| ==> results[i] == cases[i].1) &&
      (report[|cases| + 5] == SomeFailed <==> exists i :: 0 <= i < |cases| && results[i] != cases[i].1)
  {
    BannerIff(Replay(obj, call, cases).1, cases);
  }

  /** Line `3 + i` of a two-argument report is the line of case i, with both inputs shown. */
  lemma BinaryCaseLine<I1, I2, O>(name: string, solution: (I1, I2) -> O, cases: seq<((I1, I2), O)>,
                                  show1: I1 -> Value, show2: I2 -> Value, showOut: O -> Value, i: nat)
    requires i < |cases|
    ensures var r := solution(cases[i].0.0, cases[i].0.1);
      BinarySolutionReport(name, solution, cases, show1, show2, showOut)[3 + i]
        == CaseLine(i, r == cases[i].1, PairInputText(show1, show2, cases[i].0.0, cases[i].0.1), " Output: ",
                    Render(showOut(r)), Render(showOut(cases[i].1)))
  {
    var results := Outcomes(OnPair(solution), cases);
    var inputs := PairInputs(show1, show2, cases);
    var lines := CaseLines(inputs, OutputLabel, showOut, results, cases);
    assert BinarySolutionReport(name, solution, cases, show1, show2, showOut)[3 + i] == lines[i];
    OutcomeAt(OnPair(solution), cases, i);
    PairInputAt(show1, show2, cases, i);
    CaseLineAt(inputs, OutputLabel, showOut, results, cases, i);
  }

  /**
   * The verdict word follows the 1-based case number: `Test <i+1>: PASSED`
   * exactly when the case passed, and `Test <i+1>: FAILED` otherwise.
   */
  lemma CaseLineVerdict(index: nat, ok: bool, input: string, outputLabel: string, output: string, expected: string)
    ensures var prefix := "Test " + DecimalText(index + 1) + ": ";
      var line := CaseLine(index, ok, input, outputLabel, output, expected);
      |prefix| + 6 <= |line| &&
      (line[..|prefix| + 6] == prefix + "PASSED" <==> ok) &&
      (line[..|prefix| + 6] == prefix + "FAILED" <==> !ok)
  {
    var prefix := "Test " + DecimalText(index + 1) + ": ";
    var line := CaseLine(index, ok, input, outputLabel, output, expected);
    var head := prefix + Verdict(ok);
    assert line == head + (" Input: " + input + outputLabel + output + " Expected: " + expected);
    PrefixOfConcat(head, " Input: " + input + outputLabel + output + " Expected: " + expected);
    assert head[|prefix|] == Verdict(ok)[0];
    assert (prefix + "PASSED")[|prefix|] == 'P' && (prefix + "FAILED")[|prefix|] == 'F';
  }

  /**
   * A method call that neither reads nor changes the object's state gives
   * the same results as the same function run by the two-argument runner.
   */
  lemma {:induction false} StatelessClassMethodIsFree<S, I1, I2, O>(obj: S, call: (S, I1, I2) -> (S, O), f: (I1, I2) -> O,
                                                                   cases: seq<((I1, I2), O)>)
    requires forall s: S, a: I1, b: I2 :: call(s, a, b).1 == f(a, b)
    ensures Replay(obj, call, cases).1 == Outcomes(OnPair(f), cases)
  {
    if cases != [] {
      var n := |cases| - 1;
      var c := cases[n];
      var s := Replay(obj, call, cases[..n]).0;
      StatelessCall(call, f, s, c.0.0, c.0.1);
      StatelessClassMethodIsFree(obj, call, f, cases[..n]);
      assert cases == cases[..n] + [cases[n]];
      OutcomesSnoc(OnPair(f), cases[..n], cases[n]);
      assert Replay(obj, call, cases).1 == Replay(obj, call, cases[..n]).1 + [call(s, c.0.0, c.0.1).1];
      assert f(c.0.0, c.0.1) == OnPair(f)(c.0);
      assert Outcomes(OnPair(f), cases) == Outcomes(OnPair(f), cases[..n]) + [OnPair(f)(c.0)];
    }
  }

  /** One call of a method that ignores the object's state. */
  lemma StatelessCall<S, I1, I2, O>(call: (S, I1, I2) -> (S, O), f: (I1, I2) -> O, s: S, a: I1, b: I2)
    requires forall s: S, a: I1, b: I2 :: call(s, a, b).1 == f(a, b)
    ensures call(s, a, b).1 == f(a, b)
  {
  }

  /** The position of the first `/` in `s`, or `|s|` when there is none. */
  function SlashIndex(s: string): (k: nat)
    ensures k <= |s|
  {
    if s == [] || s[0] == '/' then 0 else 1 + SlashIndex(s[1..])
  }

  /** The first `/` after a numeral of digits is the one right after it. */
  lemma {:induction false} SlashAfterNumeral(a: string, x: string)
    requires forall i :: 0 <= i < |a| ==> IsDigit(a[i])
    ensures SlashIndex(a + "/" + x) == |a|
  {
    if a != [] {
      assert (a + "/" + x)[1..] == a[1..] + "/" + x;
      SlashAfterNumeral(a[1..], x);
    }
  }

  /** A numeral of digits followed by a slash is read back unambiguously. */
  lemma NumeralBeforeSlash(a: string, x: string, b: string, y: string)
    requires forall i :: 0 <= i < |a| ==> IsDigit(a[i])
    requires forall i :: 0 <= i < |b| ==> IsDigit(b[i])
    requires a + "/" + x == b + "/" + y
    ensures a == b && x == y
  {
    var s := a + "/" + x;
    SlashAfterNumeral(a, x);
    SlashAfterNumeral(b, y);
    assert a == s[..|a|] == b;
    assert x == s[|a| + 1..] == y;
  }

  /** The summary line states both numbers unambiguously: it can be read back. */
  lemma ResultLineReadsBack(passed: nat, total: nat, passed': nat, total': nat)
    requires ResultLine(passed, total) == ResultLine(passed', total')
    ensures passed == passed' && total == total'
  {
    Unframe("Result: ", Fraction(passed, total), Fraction(passed', total'), " tests passed");
    NumeralBeforeSlash(NatDigits(passed), DecimalText(total), NatDigits(passed'), DecimalText(total'));
    DecimalInjective(passed, passed');
    DecimalInjective(total, total');
  }

  /** No cases: `Result: 0/0 tests passed`, and the run counts as all passed. */
  lemma EmptyRunPasses<I, O>(name: string, solution: I -> O, showIn: I -> Value, showOut: O -> Value)
    ensures SolutionReport(name, solution, [], showIn, showOut)
         == ["", "Testing " + name + ":", Rule, Rule, "Result: 0/0 tests passed", "All tests PASSED! \U{2713}", ""]
  {
    var none: seq<(I, O)> := [];
    var results := Outcomes(solution, none);
    assert results == [];
    assert PassedCount(results, none) == 0;
    assert CaseLines(SingleInputs(showIn, none), OutputLabel, showOut, results, none) == [];
    assert ResultLine(0, 0) == "Result: 0/0 tests passed";
  }

  /** The decimal texts used by the example run below. */
  lemma SmallDecimals()
    ensures DecimalText(0) == "0" && DecimalText(1) == "1" && DecimalText(5) == "5"
    ensures DecimalText(10) == "10" && DecimalText(11) == "11"
  {
    assert NatDigits(10) == NatDigits(1) + [DigitChar(0)];
    assert NatDigits(11) == NatDigits(1) + [DigitChar(1)];
  }

  /** The example solution: it answers 11 whatever the input. */
  function AlwaysEleven(x: int): int
  {
    11
  }

  function ShowInt(x: int): Value
  {
    VInt(x)
  }

  /** A solution returning 11 where 10 is expected for input 5 fails its one case. */
  lemma FailingCaseReport(name: string)
    ensures SolutionReport(name, AlwaysEleven, [(5, 10)], ShowInt, ShowInt)
      == Header(name) + [CaseLine(0, false, "5", OutputLabel, "11", "10"), Rule, ResultLine(0, 1), SomeFailed, ""]
  {
    SmallDecimals();
    var cases := [(5, 10)];
    var results := Outcomes(AlwaysEleven, cases);
    assert results[0] == AlwaysEleven(5) == 11;
    assert results == [11];
    assert PassedCount([11], cases) == 0;
    var inputs := SingleInputs(ShowInt, cases);
    assert inputs[0] == Render(ShowInt(cases[0].0)) == Render(VInt(5)) == DecimalText(5) == "5";
    assert inputs == ["5"];
    var lines := CaseLines(inputs, OutputLabel, ShowInt, results, cases);
    assert Render(ShowInt(11)) == "11" && Render(ShowInt(10)) == "10";
    assert lines[0] == Line(0, "5", OutputLabel, ShowInt, 11, (5, 10)) == CaseLine(0, false, "5", OutputLabel, "11", "10");
    assert lines == [CaseLine(0, false, "5", OutputLabel, "11", "10")];
  }
}
