/** The detection oracle: a string solution that reads "yes" (whatever the
    letter case, whatever whitespace surrounds it) is a correct detection. */
module Detection {
  import opened Common
  import opened Values
  import opened Strings
  import opened Orchestration

  datatype Accuracy = Correct | Incorrect | InvalidFormat

  /** The text recorded under "Detection Accuracy". */
  function AccuracyText(a: Accuracy): string {
    match a
    case Correct => "Correct"
    case Incorrect => "Incorrect"
    case InvalidFormat => "Invalid Format"
  }

  const ExpectedAnswer: string := "Yes"

  /** `is_exact_match`, taken as string equality. */
  predicate IsExactMatch(a: string, b: string) {
    a == b
  }

  /** `s[i..j]` is "yes" in some letter case and only whitespace surrounds it. */
  predicate PaddedYesAt(s: string, i: int, j: int) {
    0 <= i <= j <= |s| && AllSpace(s[..i]) && Lower(s[i..j]) == "yes" && AllSpace(s[j..])
  }

  ghost predicate PaddedYes(s: string) {
    exists i, j :: PaddedYesAt(s, i, j)
  }

  /** A stripped text that lower-cases to "yes" is a padded yes. */
  lemma StrippedYesIsPadded(s: string)
    requires Lower(Strip(s)) == "yes"
    ensures PaddedYes(s)
  {
    StripShape(s);
    var i := LeadingSpace(s);
    assert PaddedYesAt(s, i, i + |Strip(s)|);
  }

  /** The letters that lower-case to 'y' and 's' are not whitespace. */
  lemma YesEndsNotSpace(m: string)
    requires Lower(m) == "yes"
    ensures |m| == 3 && !IsSpace(m[0]) && !IsSpace(m[2])
  {
    assert LowerChar(m[0]) == 'y' && LowerChar(m[2]) == 's';
  }

  /** A padded yes strips to a text that lower-cases to "yes". */
  lemma PaddedYesStrips(s: string, i: int, j: int)
    requires PaddedYesAt(s, i, j)
    ensures Lower(Strip(s)) == "yes"
  {
    var m := s[i..j];
    YesEndsNotSpace(m);
    assert s == s[..i] + m + s[j..];
    StripOf(s[..i], m, s[j..]);
  }

  /** The oracle's test `s.strip().lower() == "Yes".lower()` holds exactly for padded yeses. */
  lemma StrippedYes(s: string)
    ensures IsExactMatch(Lower(Strip(s)), Lower(ExpectedAnswer)) <==> PaddedYes(s)
  {
    assert Lower(ExpectedAnswer) == "yes";
    if Lower(Strip(s)) == "yes" {
      StrippedYesIsPadded(s);
    }
    if PaddedYes(s) {
      var i, j :| PaddedYesAt(s, i, j);
      PaddedYesStrips(s, i, j);
    }
  }

  /** The verdict on a submitted solution. */
  function Judge(solution: Value): (a: Accuracy)
    ensures a == InvalidFormat <==> !solution.VStr?
    ensures a == Correct <==> solution.VStr? && PaddedYes(solution.s)
    ensures a == Incorrect <==> solution.VStr? && !PaddedYes(solution.s)
  {
    if !solution.VStr? then InvalidFormat
    else
      StrippedYes(solution.s);
      if IsExactMatch(Lower(Strip(solution.s)), Lower(ExpectedAnswer)) then Correct else Incorrect
  }

  /** How the problem combines its recorded results with a submission. */
  type ProblemEval = (Results, Value, seq<Entry>, int) -> Result<Results, string>

  /** The part of a problem the oracle works on: its result map and its `eval`. */
  class Problem {
    var results: Results
    const eval: ProblemEval

    constructor (eval: ProblemEval)
      ensures results == map[] && this.eval == eval
    {
      results := map[];
      this.eval := eval;
    }

    /** `add_result(key, value)`: records one result under its name. */
    method AddResult(key: string, value: Value)
      modifies this
      ensures results == old(results)[key := value]
    {
      results := results[key := value];
    }
  }

  class DetectionOracle {
    const problem: Problem

    constructor (problem: Problem)
      ensures this.problem == problem
    {
      this.problem := problem;
    }

    /** `evaluate`: records the accuracy and the success flag, then returns
        what the problem's `eval` makes of the submission. */
    method Evaluate(solution: Value, trace: seq<Entry>, duration: int) returns (r: Result<Results, string>)
      modifies problem
      ensures problem.results == old(problem.results)["Detection Accuracy" := VStr(AccuracyText(Judge(solution)))]
                                                     ["success" := VBool(Judge(solution) == Correct)]
      ensures r == problem.eval(problem.results, solution, trace, duration)
    {
      var verdict := Judge(solution);
      problem.AddResult("Detection Accuracy", VStr(AccuracyText(verdict)));
      problem.results := problem.results["success" := VBool(verdict == Correct)];
      r := problem.eval(problem.results, solution, trace, duration);
    }
  }
}
