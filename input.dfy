/**
 * Reading one turn of user input in `asistente` (assistant.py): the
 * multi-line block opened and closed by three backticks, the command words,
 * and the keywords that make a plain message trigger a web search.
 *
 * The input stream is a sequence of lines as `input()` returns them, so no
 * line holds a line break; running out of lines stands for end of input.
 */
module Input {
  import opened Text

  const Fence := "```"

  /** A stripped prompt line opening a multi-line block. */
  predicate OpensBlock(line: string) {
    StartsWith(line, Fence)
  }

  /** A raw line that ends a multi-line block. */
  predicate ClosesBlock(line: string) {
    Strip(line) == Fence
  }

  /** What a multi-line block yields: the joined text, the captured lines, how
      many lines after the opening one it consumed, and whether a closing fence
      was found before the input ran out. */
  datatype Capture = Capture(text: string, lines: seq<string>, used: nat, complete: bool)

  /** The index of the first closing fence, or the number of lines when there is none. */
  function CloseIndex(following: seq<string>): (r: nat)
    ensures r <= |following|
    ensures r < |following| ==> ClosesBlock(following[r])
  {
    if following == [] then 0
    else if ClosesBlock(following[0]) then 0
    else 1 + CloseIndex(following[1..])
  }

  /** No line before the index closes the block. */
  lemma {:induction false} CloseIndexFirst(following: seq<string>, i: nat)
    requires i < CloseIndex(following)
    ensures !ClosesBlock(following[i])
  {
    if i > 0 {
      assert following[1..][i - 1] == following[i];
      CloseIndexFirst(following[1..], i - 1);
    }
  }

  /** Any closing line bounds the index from above. */
  lemma {:induction false} CloseIndexAtMost(following: seq<string>, i: nat)
    requires i < |following| && ClosesBlock(following[i])
    ensures CloseIndex(following) <= i
  {
    if i > 0 && !ClosesBlock(following[0]) {
      assert following[1..][i - 1] == following[i];
      CloseIndexAtMost(following[1..], i - 1);
    }
  }

  /** A line that does not close the block, at or before the index, lies before it. */
  lemma {:induction false} CloseIndexStep(following: seq<string>, i: nat)
    requires i < |following| && i <= CloseIndex(following) && !ClosesBlock(following[i])
    ensures i < CloseIndex(following)
  {
    if i > 0 {
      assert CloseIndex(following) == 1 + CloseIndex(following[1..]);
      assert following[1..][i - 1] == following[i];
      CloseIndexStep(following[1..], i - 1);
    }
  }

  /** The text after the opening backticks, kept as the first line when it is not blank. */
  function HeadLine(opening: string): seq<string>
    requires OpensBlock(opening)
  {
    var head := Strip(opening[|Fence|..]);
    if head != "" then [head] else []
  }

  /** The block that an opening line and the lines after it produce. */
  function CaptureSpec(opening: string, following: seq<string>): Capture
    requires OpensBlock(opening)
  {
    var k := CloseIndex(following);
    var lines := HeadLine(opening) + following[..k];
    Capture(Join(lines, "\n"), lines, if k < |following| then k + 1 else k, k < |following|)
  }

  /** The capture loop: read lines until one strips to the fence or the input ends. */
  method ReadUntilFence(following: seq<string>) returns (body: seq<string>, complete: bool)
    ensures body == following[..CloseIndex(following)]
    ensures complete <==> |body| < |following|
  {
    body := [];
    var i := 0;
    while i < |following|
      invariant 0 <= i <= CloseIndex(following)
      invariant body == following[..i]
    {
      var line := following[i];
      if ClosesBlock(line) {
        CloseIndexAtMost(following, i);
        break;
      }
      CloseIndexStep(following, i);
      body := body + [line];
      i := i + 1;
    }
    complete := |body| < |following|;
  }

  /** Multi-line mode: the head line, then the lines up to the fence, joined by line breaks. */
  method CaptureBlock(opening: string, following: seq<string>) returns (c: Capture)
    requires OpensBlock(opening)
    ensures c == CaptureSpec(opening, following)
  {
    var lines: seq<string> := [];
    var head := Strip(opening[|Fence|..]);
    if head != "" {
      lines := [head];
    }
    var body, complete := ReadUntilFence(following);
    lines := lines + body;
    var used := if complete then |body| + 1 else |body|;
    c := Capture(Join(lines, "\n"), lines, used, complete);
  }

  /** A block never reads past the input, stops right after the first closing
      fence, captures no closing fence, and is complete exactly when a closing
      fence was there. */
  lemma CaptureShape(opening: string, following: seq<string>)
    requires OpensBlock(opening)
    ensures var c := CaptureSpec(opening, following);
      && c.used <= |following|
      && (c.complete <==> exists i :: 0 <= i < |following| && ClosesBlock(following[i]))
      && (c.complete ==> ClosesBlock(following[c.used - 1]))
      && (forall i :: |HeadLine(opening)| <= i < |c.lines| ==> !ClosesBlock(c.lines[i]))
      && |c.lines| == |HeadLine(opening)| + (if c.complete then c.used - 1 else c.used)
  {
    var c := CaptureSpec(opening, following);
    var k := CloseIndex(following);
    var h := HeadLine(opening);
    assert c.lines == h + following[..k];
    forall i | |h| <= i < |c.lines|
      ensures !ClosesBlock(c.lines[i])
    {
      assert c.lines[i] == following[i - |h|];
      CloseIndexFirst(following, i - |h|);
    }
    forall i | 0 <= i < |following| && ClosesBlock(following[i])
      ensures c.complete
    {
      CloseIndexAtMost(following, i);
    }
  }

  /** Splitting the captured text on line breaks gives the captured lines back,
      provided there is at least one line and no input line holds a line break
      (which `input()` guarantees). */
  lemma CaptureRoundTrip(opening: string, following: seq<string>)
    requires OpensBlock(opening) && '\n' !in opening
    requires forall i :: 0 <= i < |following| ==> '\n' !in following[i]
    requires CaptureSpec(opening, following).lines != []
    ensures var c := CaptureSpec(opening, following);
      Split(c.text, '\n') == c.lines
  {
    var c := CaptureSpec(opening, following);
    var k := CloseIndex(following);
    var h := HeadLine(opening);
    StripInside(opening[|Fence|..]);
    forall j | 0 <= j < |c.lines| ensures '\n' !in c.lines[j] {
      if j >= |h| {
        assert c.lines[j] == following[j - |h|];
      }
    }
    SplitJoin(c.lines, '\n');
  }

  /** What a turn's input asks for, in the order `asistente` tests it. */
  datatype Command =
    | Blank
    | Exit
    | Clear
    | Save
    | SwitchModel
    | ListModels
    | Configure
    | ExplicitSearch(query: string)
    | Chat(text: string)

  const SearchPrefix := "search "

  /** The command words are compared with the lower-cased input; the search
      query keeps its own case and is stripped. */
  function Classify(input: string): (c: Command)
    ensures c == Blank <==> input == ""
    ensures c.Chat? ==> c.text == input
    ensures c.ExplicitSearch? ==> StartsWith(Lower(input), SearchPrefix)
  {
    var low := Lower(input);
    if input == "" then Blank
    else if low == "exit" || low == "quit" then Exit
    else if low == "clear" || low == "reset" then Clear
    else if low == "save" then Save
    else if low == "model" || low == "switch" then SwitchModel
    else if low == "models" then ListModels
    else if low == "config" then Configure
    else if StartsWith(low, SearchPrefix) then ExplicitSearch(Strip(input[|SearchPrefix|..]))
    else Chat(input)
  }

  /** Command words ignore case: lower-casing the input never changes which
      command it is, and changes a search only by the case of its query. */
  lemma ClassifyIgnoresCase(input: string)
    ensures var c := Classify(input);
      var d := Classify(Lower(input));
      && (c.Chat? <==> d.Chat?)
      && (c.ExplicitSearch? <==> d.ExplicitSearch?)
      && (!c.Chat? && !c.ExplicitSearch? ==> c == d)
  {
    LowerIdempotent(input);
  }

  /** Text that reaches the model as a chat message is no command word and does
      not open with `search `. */
  lemma ChatIsNoCommand(input: string)
    requires Classify(input).Chat?
    ensures input != ""
    ensures Lower(input) !in ["exit", "quit", "clear", "reset", "save", "model", "switch", "models", "config"]
    ensures !StartsWith(Lower(input), SearchPrefix)
  {
  }

  /** An explicit search's query is the stripped text after the first seven
      characters; it is empty only when nothing but whitespace follows. */
  lemma ExplicitQueryShape(input: string)
    requires Classify(input).ExplicitSearch?
    ensures var q := Classify(input).query;
      && |input| >= |SearchPrefix|
      && |q| <= |input| - |SearchPrefix|
      && (q == "" <==> forall i :: |SearchPrefix| <= i < |input| ==> IsSpace(input[i]))
  {
    var rest := input[|SearchPrefix|..];
    var a := LeadingSpaces(rest);
    var q := Strip(rest);
    StripSpan(rest);
    if q == "" {
      forall i | |SearchPrefix| <= i < |input| ensures IsSpace(input[i]) {
        assert input[i] == rest[i - |SearchPrefix|];
      }
    } else {
      assert input[|SearchPrefix| + a] == q[0];
    }
  }

  /** The phrases whose presence in the lower-cased message sends it to a web search first. */
  const SearchKeywords: seq<string> := ["search", "look up", "find", "explain what is", "tell me what is"]

  predicate NeedsSearch(input: string) {
    ContainsAny(Lower(input), SearchKeywords)
  }

  /** The keyword test is a substring test: any message with "find" in it, in
      any case and inside any word, triggers a search. */
  lemma FindAnywhereTriggers(before: string, word: string, after: string)
    requires Lower(word) == "find"
    ensures NeedsSearch(before + word + after)
  {
    var s := before + word + after;
    var low := Lower(s);
    assert low[|before|..|before| + |word|] == Lower(word) by {
      forall i | 0 <= i < |word| ensures low[|before| + i] == Lower(word)[i] {
        assert s[|before| + i] == word[i];
      }
    }
    assert OccursAt(low, SearchKeywords[2], |before|);
  }

  /** Lower-casing first changes nothing: the test is already case-blind. */
  lemma NeedsSearchIgnoresCase(input: string)
    ensures NeedsSearch(Lower(input)) == NeedsSearch(input)
  {
    LowerIdempotent(input);
  }
}
