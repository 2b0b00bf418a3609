/** The single-process CLI agent of main.py: its two local tools' input guards,
    its router, its graph and the CLI's exit test. The model, `os.path.exists`
    and `eval` are parameters. */
module MainAgent {
  import opened Text
  import opened Reports
  import opened GraphState

  const AccessDenied: string :=
    "Error: Access denied. You can only check files in the current relative directory."

  /** The directory-traversal guard of `check_file_exists`. */
  predicate IsTraversal(filename: string) {
    Contains(filename, "..") || StartsWith(filename, "/") || StartsWith(filename, "\\")
    || Contains(filename, ":")
  }

  /** The guard stated by positions: two dots somewhere, a leading slash or
      backslash, or a colon somewhere. */
  lemma TraversalByPosition(filename: string)
    ensures IsTraversal(filename) <==>
      (exists i :: 0 <= i < |filename| - 1 && filename[i] == '.' && filename[i + 1] == '.')
      || (|filename| > 0 && (filename[0] == '/' || filename[0] == '\\'))
      || (exists i :: 0 <= i < |filename| && filename[i] == ':')
  {
    if Contains(filename, "..") {
      var i := ContainsAt(filename, "..");
      assert filename[i..i + 2][0] == filename[i] && filename[i..i + 2][1] == filename[i + 1];
    }
    if exists i :: 0 <= i < |filename| - 1 && filename[i] == '.' && filename[i + 1] == '.' {
      var i :| 0 <= i < |filename| - 1 && filename[i] == '.' && filename[i + 1] == '.';
      assert filename[i..i + 2] == "..";
      ContainsFromIndex(filename, "..", i);
    }
    if Contains(filename, ":") {
      var i := ContainsAt(filename, ":");
      assert filename[i..i + 1][0] == filename[i];
    }
    if exists i :: 0 <= i < |filename| && filename[i] == ':' {
      var i :| 0 <= i < |filename| && filename[i] == ':';
      assert filename[i..i + 1] == ":";
      ContainsFromIndex(filename, ":", i);
    }
  }

  /** `check_file_exists`: the guard first, the probe only for names that pass it. */
  function CheckFileExists(filename: string, probe: string -> Probe): string {
    if IsTraversal(filename) then AccessDenied
    else match probe(filename)
      case Probed(found) => ExistsReport(filename, found)
      case ProbeFailed(cause) => "Error checking file: " + cause
  }

  /** A rejected name gets the denial whatever the file system would say: it is never probed. */
  lemma DeniedWithoutProbe(filename: string, p1: string -> Probe, p2: string -> Probe)
    requires IsTraversal(filename)
    ensures CheckFileExists(filename, p1) == CheckFileExists(filename, p2) == AccessDenied
  {
  }

  /** Examples: a parent reference, an absolute path, a leading backslash and a
      drive letter such as "C:\\Windows" are all rejected. */
  lemma TraversalExamples(filename: string)
    requires filename == "../secret.txt" || filename == "/etc/passwd"
      || StartsWith(filename, "\\") || Contains(filename, ":")
    ensures IsTraversal(filename)
  {
    if filename == "../secret.txt" {
      assert StartsWith(filename, "..");
    }
  }

  /** A name the guard lets through is reported with the probe's answer. */
  lemma AllowedNameReported(filename: string, probe: string -> Probe)
    requires !IsTraversal(filename) && probe(filename).Probed?
    ensures CheckFileExists(filename, probe) == ExistsReport(filename, probe(filename).found)
  {
  }

  /** The characters `calculator` lets through to `eval`. */
  const CalculatorChars: string := "0123456789+-*/(). "

  /** `set(expression).issubset(allowed)` */
  predicate CharsAllowed(expression: string) {
    forall i :: 0 <= i < |expression| ==> expression[i] in CalculatorChars
  }

  const InvalidCharacters: string :=
    "Error: Invalid characters in math expression. Only numbers and basic math symbols allowed."

  /** `calculator`: the allow-list gate, then `eval`. */
  function Calculator(expression: string, eval: string -> EvalOutcome): string {
    if !CharsAllowed(expression) then InvalidCharacters
    else match eval(expression)
      case Evaluated(text) => text
      case EvalFailed(cause) => "Math error: " + cause
  }

  /** An expression with a character outside the allow-list is answered before `eval`
      is reached: the answer is the same whatever `eval` would do. */
  lemma RejectedBeforeEval(expression: string, e1: string -> EvalOutcome, e2: string -> EvalOutcome)
    requires exists i :: 0 <= i < |expression| && expression[i] !in CalculatorChars
    ensures Calculator(expression, e1) == Calculator(expression, e2) == InvalidCharacters
  {
  }

  lemma ImportRejected(expression: string, eval: string -> EvalOutcome)
    requires expression == "import os"
    ensures Calculator(expression, eval) == InvalidCharacters
  {
    assert expression[0] !in CalculatorChars;
  }

  /** `should_continue`: to the tools when the last message asks for tools, else to END. */
  function ShouldContinue(messages: seq<GraphMessage>): (next: Node)
    requires messages != []
  {
    if messages[|messages| - 1].toolCalls != [] then Tools else End
  }

  /** The router only ever takes one of the agent's declared edges, and goes to the
      tools exactly when the last message has tool calls. */
  lemma RouterFollowsEdges(messages: seq<GraphMessage>)
    requires messages != []
    ensures (Agent, ShouldContinue(messages)) in AgentToolsEdges
    ensures ShouldContinue(messages) == Tools <==> messages[|messages| - 1].toolCalls != []
  {
  }

  /** The CLI leaves the loop on "exit" or "quit" in any letter case. */
  predicate IsExitCommand(input: string) {
    Lower(input) == "exit" || Lower(input) == "quit"
  }

  /** The exit test reads only the lower-cased input. */
  lemma ExitIgnoresCase(input: string)
    ensures IsExitCommand(input) == IsExitCommand(Lower(input))
    ensures IsExitCommand(input) ==> |input| == 4
  {
    LowerIdempotent(input);
  }
}
