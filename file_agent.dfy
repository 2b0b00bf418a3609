/** The FileAgent A2A server's request handler (`FileAgentExecutor.execute`):
    one reply string computed from the request text. The directory listing and
    the existence probe are parameters. */
module FileAgent {
  import opened Wrappers
  import opened Text
  import opened Reports
  import opened A2AParts

  /** What the lower-cased request asks for. */
  datatype Command = ListFiles | CheckFile(filename: string) | Help

  /** The characters `strip("?.,")` removes. */
  const StripChars: set<char> := {'?', '.', ','}

  const HelpReply: string := "I can only [list] files or [check] if a file exists."

  /** `words[-1].strip("?.,") if words else ""` with `words = t.split()`. */
  function FilenameOf(t: string): string {
    var words := Words(t);
    if words == [] then "" else Strip(words[|words| - 1], StripChars)
  }

  /** The keyword dispatch on the lower-cased text: "list" first, then "check". */
  function ParseCommand(text: string): (c: Command)
    ensures c == ListFiles <==> Contains(Lower(text), "list")
    ensures c.CheckFile? <==> !Contains(Lower(text), "list") && Contains(Lower(text), "check")
    ensures c == Help <==> !Contains(Lower(text), "list") && !Contains(Lower(text), "check")
    ensures c.CheckFile? ==> NoSpace(c.filename)
    ensures c.CheckFile? && c.filename != [] ==>
      c.filename[0] !in StripChars && c.filename[|c.filename| - 1] !in StripChars
  {
    var t := Lower(text);
    if Contains(t, "list") then ListFiles
    else if Contains(t, "check") then
      var f := FilenameOf(t);
      FilenameHasNoSpace(t);
      CheckFile(f)
    else Help
  }

  lemma FilenameHasNoSpace(t: string)
    ensures NoSpace(FilenameOf(t))
  {
    var words := Words(t);
    WordsAreWords(t);
    if words != [] {
      var i, j := StripIsSlice(words[|words| - 1], StripChars);
    }
  }

  /** The reply for a command; `files` is the directory listing and `probe` the existence test. */
  function Respond(c: Command, files: seq<string>, probe: string -> bool): string {
    match c
    case ListFiles => "Files: " + Join(", ", files)
    case CheckFile(f) => ExistsReport(f, probe(f))
    case Help => HelpReply
  }

  /** `execute`: locate the text, dispatch on it, reply. */
  function Execute(ctx: RequestContext, files: seq<string>, probe: string -> bool): string {
    Respond(ParseCommand(ReceivedText(ctx)), files, probe)
  }

  /** Matching happens on the lower-cased text, so case never changes the command. */
  lemma CommandIgnoresCase(text: string)
    ensures ParseCommand(text) == ParseCommand(Lower(text))
  {
    LowerIdempotent(text);
  }

  /** "list" in any letter case at the front of a request asks for the listing,
      whatever follows. */
  lemma ListInAnyCase(word: string, rest: string)
    requires Lower(word) == "list"
    ensures ParseCommand(word + rest) == ListFiles
  {
    var t := Lower(word + rest);
    assert t == Lower(word) + Lower(rest);
    StartsWithConcat("list", Lower(rest));
  }

  /** A text that contains "check" has at least one word, so the `""` fallback
      for an empty `split()` never applies. */
  lemma CheckHasAWord(text: string)
    requires Contains(Lower(text), "check")
    ensures Words(Lower(text)) != []
  {
    var t := Lower(text);
    var i := ContainsAt(t, "check");
    assert t[i] == t[i..i + 5][0] == 'c';
    assert !AllSpace(t);
    WordsEmptyIffBlank(t);
  }

  /** In the check branch the filename is the last word of the lower-cased text
      with every leading and trailing '?', '.' and ',' removed. */
  lemma CheckedFilenameIsLastWord(text: string) returns (word: string, i: nat, j: nat)
    requires ParseCommand(text).CheckFile?
    ensures var ws := Words(Lower(text)); ws != [] && word == ws[|ws| - 1]
    ensures i <= j <= |word| && ParseCommand(text).filename == word[i..j]
    ensures forall k :: 0 <= k < i ==> word[k] in StripChars
    ensures forall k :: j <= k < |word| ==> word[k] in StripChars
  {
    CheckHasAWord(text);
    var ws := Words(Lower(text));
    word := ws[|ws| - 1];
    i, j := StripIsSlice(word, StripChars);
  }

  /** "check secrets.txt?" asks to check "secrets.txt": the trailing '?' is stripped. */
  lemma TrailingQuestionMarkExample(t: string)
    requires t == "check secrets.txt?"
    ensures ParseCommand(t) == CheckFile("secrets.txt")
  {
    assert forall i :: 0 <= i < |t| ==> LowerChar(t[i]) == t[i];
    assert Lower(t) == t;
    MissingCharNotContained(t, "list");
    assert StartsWith(t, "check");
    ExampleWords(t);
    ExampleStrip("secrets.txt?");
  }

  lemma ExampleWords(t: string)
    requires t == "check secrets.txt?"
    ensures Words(t) == ["check", "secrets.txt?"]
  {
    var word := "secrets.txt?";
    assert t == "check" + [' '] + word;
    assert NoSpace("check") && NoSpace(word);
    TwoWords("check", ' ', word);
  }

  lemma ExampleStrip(word: string)
    requires word == "secrets.txt?"
    ensures Strip(word, StripChars) == "secrets.txt"
  {
    var name := "secrets.txt";
    assert word[0] !in StripChars;
    assert StripLeading(word, StripChars) == word;
    assert word[|word| - 1] in StripChars && word[..|word| - 1] == name;
    assert name[|name| - 1] !in StripChars;
    assert StripTrailing(name, StripChars) == name;
    assert StripTrailing(word, StripChars) == StripTrailing(name, StripChars);
  }

  /** A listing reply is "Files: " followed by the names; when no name holds ", "
      the names can be read back from it in order. */
  lemma ListingRoundTrip(files: seq<string>, probe: string -> bool)
    requires |files| >= 1
    requires forall k :: 0 <= k < |files| ==> !Contains(files[k], ", ")
    ensures var r := Respond(ListFiles, files, probe);
      StartsWith(r, "Files: ") && SplitOnCommaSpace(r[7..]) == files
  {
    var r := Respond(ListFiles, files, probe);
    assert r[7..] == Join(", ", files);
    SplitJoinRoundTrip(files);
  }

  /** A check reply names the filename and the probe's answer, and nothing else. */
  lemma CheckReplyDecodes(f1: string, f2: string, files: seq<string>, probe: string -> bool)
    requires Respond(CheckFile(f1), files, probe) == Respond(CheckFile(f2), files, probe)
    ensures f1 == f2
  {
    ExistsReportDecodes(f1, probe(f1), f2, probe(f2));
  }

  /** With no located message, or a message without parts, the text is "" and the
      agent answers with the help text. */
  lemma NoMessageGivesHelp(ctx: RequestContext, files: seq<string>, probe: string -> bool)
    requires LocateMessage(ctx).None? || LocateMessage(ctx).value.parts == []
    ensures Execute(ctx, files, probe) == HelpReply
  {
    assert ReceivedText(ctx) == "";
    assert !Contains("", "list") && !Contains("", "check");
  }
}
