/**
 * The three delimited blocks that carry search results into the message list
 * (inside `asistente` in assistant.py): the explicit `search <query>` block,
 * the implicit-search block put before the user's text, and the auto-search
 * block sent after the model asked for a search.
 */
module Blocks {
  import opened Wrappers
  import opened Text
  import opened History
  import opened Context
  import opened WebSearch

  /** The optional `CONTEXT:` section; an empty or missing digest adds nothing. */
  function ContextPart(context: Option<string>): string {
    match context
    case Some(c) => if c == "" then "" else "\nCONTEXT:\n" + c + "\n"
    case None => ""
  }

  /** The header the digest recognises, and the auto-search header it does not. */
  const SearchHeader := "=== WEB SEARCH DATA ==="
  const AutoHeader := "=== AUTO-SEARCH DATA ==="

  /** Everything after the query line: context, results and the closing lines. */
  function Body(context: Option<string>, results: string, closing: string): string {
    "\n" + ContextPart(context) + "\nResults:\n" + results + "\n" + closing
  }

  /** The closing lines of the three blocks. */
  const ExplicitClosing := "=== END DATA ===\n\nIMPORTANT: Use context and data to respond.\n"
  const ImplicitClosing := "=== END ===\n\nIMPORTANT: Based on context and search, provide clear response.\n"
  const AutoClosing := "=== END ===\n\nNOW respond using this data.\n"

  /** A text laid out as `pre + mid + post` starts with `pre`, carries `mid`
      right after it and ends with `post`. */
  lemma Layout(pre: string, mid: string, post: string)
    ensures StartsWith(pre + mid + post, pre)
    ensures Contains(pre + mid + post, mid)
    ensures EndsWith(pre + mid + post, post)
  {
    var s := pre + mid + post;
    assert s[..|pre|] == pre;
    assert s[|pre|..|pre| + |mid|] == mid;
    assert OccursAt(s, mid, |pre|);
    assert s[|s| - |post|..] == post;
  }

  /** A block opens with its header and the lines after it, then the optional
      context, the results between their label and a line break, and the
      closing lines. */
  lemma BlockLayout(header: string, lines: string, context: Option<string>, results: string, closing: string)
    ensures var b := header + (lines + Body(context, results, closing));
      && StartsWith(b, header + lines + "\n")
      && Contains(b, "\nResults:\n" + results + "\n")
      && EndsWith(b, closing)
  {
    var head := header + lines;
    var pre := head + "\n" + ContextPart(context);
    var mid := "\nResults:\n" + results + "\n";
    assert header + (lines + Body(context, results, closing)) == pre + mid + closing;
    Layout(pre, mid, closing);
    StartsWithConcat(head + "\n", ContextPart(context));
    StartsWithTrans(pre + mid + closing, pre, head + "\n");
  }

  /** The block of an explicit `search <query>` command: the search header and
      the query line, the context and the results, and `=== END DATA ===`. */
  function ExplicitBlock(query: string, context: Option<string>, results: string): (b: string)
    ensures StartsWith(b, SearchHeader + "\nQuery: " + query + "\n")
    ensures Contains(b, "\nResults:\n" + results + "\n")
    ensures EndsWith(b, ExplicitClosing)
  {
    BlockLayout(SearchHeader, "\nQuery: " + query, context, results, ExplicitClosing);
    SearchHeader + ("\nQuery: " + query + Body(context, results, ExplicitClosing))
  }

  /** The block of an implicit search: the search header and the user's text
      as the query line, the context and the results, and `=== END ===`. */
  function ImplicitBlock(input: string, context: Option<string>, results: string): (b: string)
    ensures StartsWith(b, SearchHeader + "\nQuery: " + input + "\n")
    ensures Contains(b, "\nResults:\n" + results + "\n")
    ensures EndsWith(b, ImplicitClosing)
  {
    BlockLayout(SearchHeader, "\nQuery: " + input, context, results, ImplicitClosing);
    SearchHeader + ("\nQuery: " + input + Body(context, results, ImplicitClosing))
  }

  /** The user message of a turn: the implicit block, a blank line and the
      user's text, or the text alone when there is no block. */
  function UserMessage(block: string, input: string): (m: string)
    ensures block == "" ==> m == input
    ensures block != "" ==> StartsWith(m, block + "\n\n") && EndsWith(m, input)
    ensures |m| == (if block == "" then 0 else |block| + 2) + |input|
  {
    if block != "" then
      Layout(block + "\n\n", "", input);
      assert block + "\n\n" + "" + input == block + "\n\n" + input;
      block + "\n\n" + input
    else input
  }

  /** The block sent back to the model after it asked for a search: the
      auto-search header, the user's text and the requested query, the context
      and the results, and `=== END ===`. */
  function AutoBlock(input: string, searchQuery: string, context: Option<string>, results: string): (b: string)
    ensures StartsWith(b, AutoHeader + "\nOriginal query: " + input + "\nSearch: " + searchQuery + "\n")
    ensures Contains(b, "\nResults:\n" + results + "\n")
    ensures EndsWith(b, AutoClosing)
  {
    BlockLayout(AutoHeader, "\nOriginal query: " + input + "\nSearch: " + searchQuery, context, results, AutoClosing);
    AutoHeader + ("\nOriginal query: " + input + "\nSearch: " + searchQuery + Body(context, results, AutoClosing))
  }

  /** A text that opens with one of the headers contains the header and `===`. */
  lemma HeaderTags(s: string, header: string)
    requires header == SearchHeader || header == AutoHeader
    requires StartsWith(s, header)
    ensures Contains(s, "===")
    ensures header == SearchHeader ==> Contains(s, "=== WEB SEARCH DATA")
  {
    assert StartsWith(header, "===");
    StartsWithTrans(s, header, "===");
    StartsWithContains(s, "===");
    if header == SearchHeader {
      assert StartsWith(header, "=== WEB SEARCH DATA");
      StartsWithTrans(s, header, "=== WEB SEARCH DATA");
      StartsWithContains(s, "=== WEB SEARCH DATA");
    }
  }

  /** An explicit block opens with the header the digest looks for, so the
      digest treats it as search data, and it contains `===`, so the enricher
      never takes it for an organic question. */
  lemma ExplicitTagged(query: string, context: Option<string>, results: string)
    ensures IsSearchData(ExplicitBlock(query, context, results))
    ensures !IsOrganicUser(Message(User, ExplicitBlock(query, context, results)))
  {
    var e := ExplicitBlock(query, context, results);
    StartsWithConcat(SearchHeader, e[|SearchHeader|..]);
    HeaderTags(e, SearchHeader);
  }

  /** So does a user message that carries an implicit block. */
  lemma ImplicitTagged(input: string, context: Option<string>, results: string)
    ensures IsSearchData(UserMessage(ImplicitBlock(input, context, results), input))
    ensures !IsOrganicUser(Message(User, UserMessage(ImplicitBlock(input, context, results), input)))
  {
    var i := ImplicitBlock(input, context, results);
    var u := UserMessage(i, input);
    StartsWithConcat(SearchHeader, i[|SearchHeader|..]);
    StartsWithConcat(i, "\n\n");
    StartsWithConcat(i + "\n\n", input);
    StartsWithTrans(u, i + "\n\n", i);
    StartsWithTrans(u, i, SearchHeader);
    HeaderTags(u, SearchHeader);
  }

  /** An auto-search block contains `===` too, so the enricher skips it. */
  lemma AutoTagged(input: string, query: string, context: Option<string>, results: string)
    ensures !IsOrganicUser(Message(User, AutoBlock(input, query, context, results)))
  {
    var a := AutoBlock(input, query, context, results);
    StartsWithConcat(AutoHeader, a[|AutoHeader|..]);
    HeaderTags(a, AutoHeader);
  }

  /** The lines of a block that starts with a header line and a `Query:` line. */
  lemma QueryLineSecond(header: string, query: string, rest: string)
    requires '\n' !in header && '\n' !in query
    ensures var lines := Split(header + ("\nQuery: " + query + rest), '\n');
      |lines| >= 2 && lines[0] == header && lines[1] == "Query: " + query + Split(rest, '\n')[0]
  {
    var q := "Query: " + query;
    assert '\n' !in q;
    assert "\nQuery: " + query + rest == ['\n'] + (q + rest);
    assert header + ("\nQuery: " + query + rest) == header + ['\n'] + (q + rest);
    SplitCons(header, q + rest, '\n');
    SplitPrefix(q, rest, '\n');
  }

  /** Splitting text that starts with a separator-free part extends the first piece. */
  lemma {:induction false} SplitPrefix(a: string, b: string, sep: char)
    requires sep !in a
    ensures Split(a + b, sep) == [a + Split(b, sep)[0]] + Split(b, sep)[1..]
    decreases |a|
  {
    var sb := Split(b, sep);
    if a == [] {
      assert a + b == b;
      assert a + sb[0] == sb[0];
      assert [sb[0]] + sb[1..] == sb;
    } else {
      SplitPrefix(a[1..], b, sep);
      assert (a + b)[1..] == a[1..] + b;
      var rest := Split(a[1..] + b, sep);
      assert rest == [a[1..] + sb[0]] + sb[1..];
      assert Split(a + b, sep) == [[a[0]] + rest[0]] + rest[1..];
      assert [a[0]] + (a[1..] + sb[0]) == a + sb[0];
    }
  }

  /** For a one-line query the digest summarises a search-data message opening
      with the header and a `Query:` line by that line, cut to 100 characters. */
  lemma SummaryIsQueryLine(query: string, rest: string)
    requires '\n' !in query && rest != [] && rest[0] == '\n'
    ensures var content := SearchHeader + ("\nQuery: " + query + rest);
      IsSearchData(content) ==> UserText(content) == Take("Query: " + query, 100)
  {
    var content := SearchHeader + ("\nQuery: " + query + rest);
    QueryLineSecond(SearchHeader, query, rest);
    SplitStartsWithSep(rest);
    QueryLineQualifies(query);
    HeaderDoesNotQualify(SearchHeader);
    var lines := Split(content, '\n');
    assert lines[1] == "Query: " + query;
    assert FirstQualifying(lines) == Some(1);
  }

  /** The digest line of an explicit block is its `Query:` line cut to 100
      characters, when the query is one line. */
  lemma ExplicitDigestLine(query: string, context: Option<string>, results: string)
    requires '\n' !in query
    ensures LineOf(Message(User, ExplicitBlock(query, context, results)))
            == Some("User: " + Take("Query: " + query, 100) + "...")
  {
    ExplicitTagged(query, context, results);
    SummaryIsQueryLine(query, Body(context, results, ExplicitClosing));
  }

  /** So is the digest line of a user message carrying an implicit block, when
      the user's text is one line. */
  lemma ImplicitDigestLine(input: string, context: Option<string>, results: string)
    requires '\n' !in input
    ensures LineOf(Message(User, UserMessage(ImplicitBlock(input, context, results), input)))
            == Some("User: " + Take("Query: " + input, 100) + "...")
  {
    ImplicitTagged(input, context, results);
    var bodyI := Body(context, results, ImplicitClosing);
    var lineI := "\nQuery: " + input;
    var tail := "\n\n" + input;
    AppendAssoc(SearchHeader + (lineI + bodyI), "\n\n", input);
    AppendAssoc(SearchHeader, lineI + bodyI, tail);
    AppendAssoc(lineI, bodyI, tail);
    AppendAssoc(bodyI, "\n\n", input);
    SummaryIsQueryLine(input, bodyI + "\n\n" + input);
  }

  lemma SplitStartsWithSep(rest: string)
    requires rest != [] && rest[0] == '\n'
    ensures Split(rest, '\n')[0] == ""
  {
  }

  lemma QueryLineQualifies(query: string)
    ensures Qualifies("Query: " + query)
  {
    var l := "Query: " + query;
    assert !IsSpace(l[0]);
    StripSpan(l);
    assert l[..3] != "===" && l[..3] != "IMP" && l[..3] != "CON";
  }

  lemma HeaderDoesNotQualify(header: string)
    requires header == "=== WEB SEARCH DATA ==="
    ensures !Qualifies(header)
  {
    assert StartsWith(header, "===");
  }

  /** The labels of an auto-search block carry no capital B or L. */
  lemma AutoLabelsLack(s: string)
    requires || s == "\nOriginal query: " || s == "\nSearch: "
             || s == "\nCONTEXT:\n" || s == "\nResults:\n" || s == "\n"
    ensures 'B' !in s && 'L' !in s
  {
  }

  /** Nor does its opening line, */
  lemma AutoHeaderLacks(s: string)
    requires s == AutoHeader
    ensures 'B' !in s && 'L' !in s
  {
  }

  /** nor its closing lines. */
  lemma AutoClosingLacks(s: string)
    requires s == AutoClosing
    ensures 'B' !in s && 'L' !in s
  {
  }

  /** The digest tells search data by the markers `=== WEB SEARCH DATA` and
      `=== SEARCH RESULTS`. The first holds a capital B and the second a capital
      L, so a text without either letter holds neither marker. An auto-search
      block has neither letter in its own header, labels and closing lines, so
      it has neither when the text, query, context and results it carries have
      none. */
  lemma AutoBlockLacks(input: string, searchQuery: string, context: Option<string>, results: string)
    requires 'B' !in input && 'B' !in searchQuery && 'B' !in results
    requires 'L' !in input && 'L' !in searchQuery && 'L' !in results
    requires context.Some? ==> 'B' !in context.value && 'L' !in context.value
    ensures 'B' !in AutoBlock(input, searchQuery, context, results)
    ensures 'L' !in AutoBlock(input, searchQuery, context, results)
  {
    AutoHeaderLacks(AutoHeader);
    AutoLabelsLack("\nOriginal query: ");
    AutoLabelsLack("\nSearch: ");
    AutoLabelsLack("\nCONTEXT:\n");
    AutoLabelsLack("\nResults:\n");
    AutoLabelsLack("\n");
    AutoClosingLacks(AutoClosing);
    var c := ContextPart(context);
    assert 'B' !in c && 'L' !in c;
    var body := Body(context, results, AutoClosing);
    assert 'B' !in body && 'L' !in body;
  }

  /** The digest does not recognise auto-search blocks: one whose own words carry
      no capital B or L (all-lowercase text, say) is summarised like typed text,
      by its first 100 characters with line breaks flattened. B and L are the
      letters that tell it apart from the markers: `=== WEB SEARCH DATA` holds a
      B and `=== SEARCH RESULTS` an L, and the block's own wording holds neither. */
  lemma DigestMissesAutoBlock(input: string, searchQuery: string, context: Option<string>, results: string)
    requires 'B' !in input && 'B' !in searchQuery && 'B' !in results
    requires 'L' !in input && 'L' !in searchQuery && 'L' !in results
    requires context.Some? ==> 'B' !in context.value && 'L' !in context.value
    ensures !IsSearchData(AutoBlock(input, searchQuery, context, results))
    ensures LineOf(Message(User, AutoBlock(input, searchQuery, context, results)))
            == Some("User: " + Flatten(Take(AutoBlock(input, searchQuery, context, results), 100)) + "...")
  {
    var a := AutoBlock(input, searchQuery, context, results);
    AutoBlockLacks(input, searchQuery, context, results);
    AbsentCharNotContained(a, "=== WEB SEARCH DATA", 'B');
    AbsentCharNotContained(a, "=== SEARCH RESULTS", 'L');
    assert !IsSearchData(a);
  }
}
