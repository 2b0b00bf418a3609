/** What the tools get back from the operating system and from `eval`, and the
    existence report that the file agent and both `check_file_exists` tools
    return once a filename has been probed. */
module Reports {
  import opened Text

  /** `os.path.exists(filename)`: an answer, or an exception with its message. */
  datatype Probe = Probed(found: bool) | ProbeFailed(cause: string)

  /** `eval(expression)`: `str(result)`, or an exception with its message. */
  datatype EvalOutcome = Evaluated(text: string) | EvalFailed(cause: string)

  /** `f"File '{filename}' exists: {exists}"` */
  function ExistsReport(filename: string, found: bool): string {
    "File '" + filename + "' exists: " + PyBool(found)
  }

  /** The fourth character from the end tells "True" from "False". */
  lemma OutcomeMark(x: string, b: bool)
    ensures var s := x + PyBool(b); |s| >= 4 && s[|s| - 4] == (if b then 'T' else 'a')
  {
  }

  /** A report names exactly one filename and one outcome: reading it back recovers both. */
  lemma ExistsReportDecodes(f1: string, b1: bool, f2: string, b2: bool)
    requires ExistsReport(f1, b1) == ExistsReport(f2, b2)
    ensures f1 == f2 && b1 == b2
  {
    var x1, x2 := "File '" + f1 + "' exists: ", "File '" + f2 + "' exists: ";
    assert x1 + PyBool(b1) == x2 + PyBool(b2);
    OutcomeMark(x1, b1);
    OutcomeMark(x2, b2);
    assert b1 == b2;
    assert |f1| == |f2|;
    assert x1 == (x1 + PyBool(b1))[..|x1|] == (x2 + PyBool(b2))[..|x2|] == x2;
    assert x1[6..6 + |f1|] == f1;
    assert x2[6..6 + |f2|] == f2;
  }
}
