/** The FastMCP tool server of mcp_server.py: `list_directory`,
    `check_file_exists` and the allow-list gate of `calculator`. `os.listdir`,
    `os.path.exists` and `eval` are parameters. */
module McpServer {
  import opened Text
  import opened Reports
  import MainAgent

  /** `os.listdir(".")`: the names, or an exception with its message. */
  datatype Listing = Listed(names: seq<string>) | ListingFailed(cause: string)

  const EmptyDirectory: string := "Directory is empty."

  /** `list_directory` */
  function ListDirectory(listing: Listing): string {
    match listing
    case Listed(names) => if names != [] then Join(", ", names) else EmptyDirectory
    case ListingFailed(cause) => ErrorWord + " listing directory: " + cause
  }

  /** A non-empty listing can be read back from the reply when no name holds ", ". */
  lemma ListingRoundTrip(names: seq<string>)
    requires names != []
    requires forall k :: 0 <= k < |names| ==> !Contains(names[k], ", ")
    ensures SplitOnCommaSpace(ListDirectory(Listed(names))) == names
  {
    SplitJoinRoundTrip(names);
  }

  /** `s.startswith(("/", "\\"))` */
  predicate StartsWithAny(s: string, prefixes: seq<string>) {
    exists k :: 0 <= k < |prefixes| && StartsWith(s, prefixes[k])
  }

  /** The directory-traversal guard of `check_file_exists`. */
  predicate IsTraversal(filename: string) {
    Contains(filename, "..") || StartsWithAny(filename, ["/", "\\"]) || Contains(filename, ":")
  }

  /** The server's guard and the CLI agent's guard reject exactly the same names. */
  lemma GuardsAgree(filename: string)
    ensures IsTraversal(filename) == MainAgent.IsTraversal(filename)
  {
    var roots := ["/", "\\"];
    if StartsWith(filename, "/") {
      assert StartsWith(filename, roots[0]);
    }
    if StartsWith(filename, "\\") {
      assert StartsWith(filename, roots[1]);
    }
  }

  /** The word every failure reply of the server begins with. */
  const ErrorWord: string := "Error"

  const AccessDenied: string := ErrorWord + ": Access denied. Directory traversal detected."

  /** `check_file_exists` */
  function CheckFileExists(filename: string, probe: string -> Probe): string {
    if IsTraversal(filename) then AccessDenied
    else match probe(filename)
      case Probed(found) => ExistsReport(filename, found)
      case ProbeFailed(cause) => ErrorWord + ": " + cause
  }

  /** A rejected name gets the denial whatever the file system would say: it is never probed;
      a name that passes is reported with the probe's answer. */
  lemma CheckFileExistsOutcomes(filename: string, p1: string -> Probe, p2: string -> Probe)
    ensures IsTraversal(filename) ==>
      CheckFileExists(filename, p1) == CheckFileExists(filename, p2) == AccessDenied
    ensures !IsTraversal(filename) && p1(filename).Probed? ==>
      CheckFileExists(filename, p1) == ExistsReport(filename, p1(filename).found)
  {
  }

  /** The characters `calculator` lets through to `eval`: the allow-list
      "0123456789+-*" + "/()., " followed by the 26 lower-case and 26 upper-case ASCII
      letters, i.e. the CLI agent's set plus ',' and the letters, for function names
      such as `log` and `sqrt`. */
  predicate IsCalculatorChar(c: char) {
    IsDigit(c) || 'a' <= c <= 'z' || 'A' <= c <= 'Z' || c in "+-*/()., "
  }

  /** `set(expression).issubset(allowed_chars)` */
  predicate CharsAllowed(expression: string) {
    forall i :: 0 <= i < |expression| ==> IsCalculatorChar(expression[i])
  }

  const InvalidCharacters: string := ErrorWord + ": Invalid characters. Only math expressions allowed."

  /** `calculator`: the allow-list gate, then `eval`. */
  function Calculator(expression: string, eval: string -> EvalOutcome): string {
    if !CharsAllowed(expression) then InvalidCharacters
    else match eval(expression)
      case Evaluated(text) => text
      case EvalFailed(cause) => ErrorWord + " evaluating expression: " + cause
  }

  /** An expression with a character outside the allow-list is answered before `eval`
      is reached. */
  lemma RejectedBeforeEval(expression: string, e1: string -> EvalOutcome, e2: string -> EvalOutcome)
    requires exists i :: 0 <= i < |expression| && !IsCalculatorChar(expression[i])
    ensures Calculator(expression, e1) == Calculator(expression, e2) == InvalidCharacters
  {
  }

  /** Everything the CLI agent's calculator accepts, the server's accepts too. */
  lemma GateWidensCliGate(expression: string)
    requires MainAgent.CharsAllowed(expression)
    ensures CharsAllowed(expression)
  {
    forall c | c in MainAgent.CalculatorChars
      ensures IsCalculatorChar(c)
    {
    }
  }

  /** '_' is not allowed, so no dunder name ever reaches `eval`. */
  lemma DunderRejected(expression: string)
    requires Contains(expression, "__")
    ensures !CharsAllowed(expression)
  {
    var i := ContainsAt(expression, "__");
    assert expression[i] == expression[i..i + 2][0] == '_';
  }

  /** The gate looks only at which characters occur, not at their order or number;
      in particular the empty expression passes it. */
  lemma GateReadsCharacterSet(e1: string, e2: string)
    requires forall c :: c in e1 <==> c in e2
    ensures CharsAllowed(e1) == CharsAllowed(e2)
    ensures CharsAllowed("")
  {
    if CharsAllowed(e1) {
      forall i | 0 <= i < |e2| ensures IsCalculatorChar(e2[i]) {
        assert e2[i] in e2;
      }
    }
    if CharsAllowed(e2) {
      forall i | 0 <= i < |e1| ensures IsCalculatorChar(e1[i]) {
        assert e1[i] in e1;
      }
    }
  }

  /** Letters are allowed, so "import os" reaches `eval` here, while the CLI agent's
      gate stops it. */
  lemma LettersReachEval(expression: string)
    requires expression == "import os"
    ensures CharsAllowed(expression) && !MainAgent.CharsAllowed(expression)
  {
    assert expression[0] !in MainAgent.CalculatorChars;
  }

  /** `list_directory` never raises: a failing `os.listdir` is reported as text
      starting with "Error". */
  lemma ListingFailureReported(listing: Listing)
    requires listing.ListingFailed?
    ensures StartsWith(ListDirectory(listing), ErrorWord)
  {
    StartsWithConcat(ErrorWord, " listing directory: " + listing.cause);
  }

  /** `check_file_exists` never raises: the denial and a failing probe are both
      reported as text starting with "Error". */
  lemma CheckFailureReported(filename: string, probe: string -> Probe)
    requires IsTraversal(filename) || probe(filename).ProbeFailed?
    ensures StartsWith(CheckFileExists(filename, probe), ErrorWord)
  {
    if IsTraversal(filename) {
      StartsWithConcat(ErrorWord, ": Access denied. Directory traversal detected.");
    } else {
      StartsWithConcat(ErrorWord, ": " + probe(filename).cause);
    }
  }

  /** `calculator` never raises: a rejected expression and a failing `eval` are both
      reported as text starting with "Error". */
  lemma CalculatorFailureReported(expression: string, eval: string -> EvalOutcome)
    requires !CharsAllowed(expression) || eval(expression).EvalFailed?
    ensures StartsWith(Calculator(expression, eval), ErrorWord)
  {
    if !CharsAllowed(expression) {
      StartsWithConcat(ErrorWord, ": Invalid characters. Only math expressions allowed.");
    } else {
      StartsWithConcat(ErrorWord, " evaluating expression: " + eval(expression).cause);
    }
  }
}
