/**
 * The search pipeline of `buscar_web` in assistant.py: the vague-query test,
 * the rewrite of vague follow-ups from the newest organic user message, the
 * cap on collected hits and the formatting of the top five.
 *
 * The search backend is an oracle: a function from the query actually sent to
 * the hits it yields, `None` standing for an exception (network failure,
 * rate limit, an error while iterating).
 */
module WebSearch {
  import opened Wrappers
  import opened Text
  import opened History
  import opened Context

  /** One raw search hit: a dictionary whose keys may be missing. */
  datatype Hit = Hit(title: Option<string>, body: Option<string>,
                     description: Option<string>, href: Option<string>)

  /** `(contexto, resultados)`; `(None, None)` is the failure value. */
  datatype SearchOutcome = SearchOutcome(context: Option<string>, results: Option<string>)

  const Failed := SearchOutcome(None, None)

  /** Most hits collected from the backend, and most hits formatted. */
  const MaxCollected: nat := 10
  const MaxFormatted: nat := 5

  const VaguePhrases: seq<string> :=
    ["improve it", "how to do it", "how effective", "more information",
     "explain it", "give examples", "how to do"]

  /** A follow-up too vague to search on its own. */
  predicate IsVague(query: string) {
    ContainsAny(Lower(query), VaguePhrases)
  }

  /** A user message typed by the user: the enricher takes any `===` as a sign of
      injected data, a broader test than the digest's. */
  predicate IsOrganicUser(m: Message) {
    m.role == User && !Contains(m.content, "===")
  }

  /** Index of the newest organic user message. */
  function LastOrganic(history: seq<Message>): (r: Option<nat>)
    ensures r.Some? ==> r.value < |history| && IsOrganicUser(history[r.value])
    ensures r.Some? ==> forall j :: r.value < j < |history| ==> !IsOrganicUser(history[j])
    ensures r.None? ==> forall j :: 0 <= j < |history| ==> !IsOrganicUser(history[j])
  {
    if history == [] then None
    else if IsOrganicUser(history[|history| - 1]) then Some(|history| - 1)
    else LastOrganic(history[..|history| - 1])
  }

  /** The keywords taken from a message: its first 50 characters, line breaks
      turned into spaces, stripped. */
  function Keywords(content: string): string {
    Strip(Flatten(Take(content, 50)))
  }

  /** The keywords are at most 50 characters on one line, without surrounding
      whitespace. */
  lemma KeywordsShape(content: string)
    ensures |Keywords(content)| <= 50
    ensures '\n' !in Keywords(content)
    ensures Keywords(content) == [] || (!IsSpace(Keywords(content)[0])
      && !IsSpace(Keywords(content)[|Keywords(content)| - 1]))
  {
    var f := Flatten(Take(content, 50));
    StripSpan(f);
    StripInside(f);
  }

  /** The four rewrite templates, tried in order. */
  function Rewrite(query: string, keywords: string): string {
    var low := Lower(query);
    if Contains(low, "improve") then "how to improve " + keywords
    else if Contains(low, "effective") then "how effective is " + keywords
    else if Contains(low, "do it") then "how to do " + keywords
    else keywords + " " + query
  }

  /** The query actually searched. */
  function Enrich(query: string, history: seq<Message>): string {
    if |history| > 1 && IsVague(query) then
      match LastOrganic(history)
      case Some(i) => Rewrite(query, Keywords(history[i].content))
      case None => query
    else query
  }

  /** Enrichment changes a query only when it is vague, the history has more
      than one message and some user message in it is organic; the rewrite then
      uses the newest one. */
  lemma EnrichChangesOnlyVague(query: string, history: seq<Message>)
    ensures Enrich(query, history) != query ==>
      && IsVague(query) && |history| > 1
      && exists i ::
        0 <= i < |history| && IsOrganicUser(history[i])
        && (forall j :: i < j < |history| ==> !IsOrganicUser(history[j]))
        && Enrich(query, history) == Rewrite(query, Keywords(history[i].content))
  {
    if |history| > 1 && IsVague(query) && LastOrganic(history).Some? {
      var i := LastOrganic(history).value;
      assert Enrich(query, history) == Rewrite(query, Keywords(history[i].content));
    }
  }

  /** A vague follow-up after an organic question is rewritten with the
      question's words: "how to do it" after "deploying a container to a
      cluster" searches "how to do deploying a container to a cluster". */
  lemma EnrichDoItExample(query: string, question: string, prompt: string, history: seq<Message>)
    requires query == "how to do it" && question == "deploying a container to a cluster"
    requires history == [Message(System, prompt), Message(User, question)]
    ensures Enrich(query, history) == "how to do " + question
  {
    DoItIsVague(query);
    QuestionIsOrganic(question, prompt);
    QuestionKeywords(question);
    DoItRewrite(query, question);
  }

  lemma QuestionIsOrganic(question: string, prompt: string)
    requires question == "deploying a container to a cluster"
    ensures LastOrganic([Message(System, prompt), Message(User, question)]) == Some(1)
  {
    AbsentCharNotContained(question, "===", '=');
  }

  lemma QuestionKeywords(question: string)
    requires question == "deploying a container to a cluster"
    ensures Keywords(question) == question
  {
    assert Take(question, 50) == question;
    PlainTextUnchanged(question);
  }

  lemma DoItIsVague(query: string)
    requires query == "how to do it"
    ensures IsVague(query)
  {
    LowerOfLowercase(query);
    assert OccursAt(query, VaguePhrases[1], 0);
  }

  lemma DoItRewrite(query: string, keywords: string)
    requires query == "how to do it"
    ensures Rewrite(query, keywords) == "how to do " + keywords
  {
    LowerOfLowercase(query);
    AbsentCharNotContained(query, "improve", 'v');
    AbsentCharNotContained(query, "effective", 'f');
    assert OccursAt(query, "do it", 7);
  }

  /** A query that is not vague after enrichment is a fixed point of enrichment,
      whatever the history. */
  lemma EnrichStable(query: string, history: seq<Message>, later: seq<Message>)
    requires !IsVague(Enrich(query, history))
    ensures Enrich(Enrich(query, history), later) == Enrich(query, history)
  {
  }

  /** The "do it" template is itself vague: its output contains "how to do". */
  lemma DoItRewriteStaysVague(keywords: string)
    ensures IsVague("how to do " + keywords)
  {
    var s := "how to do " + keywords;
    LowerOfLowercase("how to do ");
    LowerPrefix("how to do ", keywords);
    assert Lower(s)[..9] == "how to do";
    assert OccursAt(Lower(s), VaguePhrases[6], 0);
  }

  /** Lower-casing distributes over a lower-case prefix. */
  lemma LowerPrefix(a: string, b: string)
    requires Lower(a) == a
    ensures Lower(a + b) == a + Lower(b)
  {
    assert forall i :: 0 <= i < |a| ==> Lower(a + b)[i] == (a + Lower(b))[i];
    assert forall i :: |a| <= i < |a| + |b| ==> Lower(a + b)[i] == (a + Lower(b))[i];
  }

  /** The hits kept: the first ten. */
  function Capped(hits: seq<Hit>): seq<Hit> {
    if |hits| <= MaxCollected then hits else hits[..MaxCollected]
  }

  /** The collecting loop: append each hit, stop once ten are held. */
  method CollectResults(hits: seq<Hit>) returns (results: seq<Hit>)
    ensures |results| <= MaxCollected && |results| <= |hits| && results == hits[..|results|]
    ensures |results| == MaxCollected || results == hits
  {
    results := [];
    var i := 0;
    while i < |hits|
      invariant i <= |hits| && results == hits[..i]
      invariant |results| < MaxCollected
    {
      results := results + [hits[i]];
      i := i + 1;
      assert results == hits[..i];
      if |results| >= MaxCollected {
        break;
      }
    }
  }

  /** The body shown: `body`, else `description`, else nothing. */
  function BodyOf(h: Hit): string {
    match h.body
    case Some(b) => b
    case None => h.description.GetOr("")
  }

  /** Entry `i` (numbered from 1) of the formatted results. */
  function Entry(i: nat, h: Hit): string {
    Decimal(i) + ". **" + h.title.GetOr("No title") + "**\n   " + BodyOf(h)
    + "\n   Source: " + h.href.GetOr("")
  }

  /** The entries of the top five results. */
  function Entries(results: seq<Hit>): (r: seq<string>)
    ensures |r| == if |results| < MaxFormatted then |results| else MaxFormatted
  {
    var n := if |results| < MaxFormatted then |results| else MaxFormatted;
    seq(n, k requires 0 <= k < n => Entry(k + 1, results[k]))
  }

  /** The formatted results: entries separated by a blank line. */
  function FormatResults(results: seq<Hit>): string {
    Join(Entries(results), "\n\n")
  }

  /** The formatting loop of `buscar_web`. */
  method Format(results: seq<Hit>) returns (text: string)
    ensures text == FormatResults(results)
  {
    var top := if |results| < MaxFormatted then results else results[..MaxFormatted];
    var formatted: seq<string> := [];
    for i := 0 to |top|
      invariant |formatted| == i
      invariant forall k :: 0 <= k < i ==> formatted[k] == Entry(k + 1, top[k])
    {
      var h := top[i];
      var title := h.title.GetOr("No title");
      var body := match h.body case Some(b) => b case None => h.description.GetOr("");
      var url := h.href.GetOr("");
      formatted := formatted + [Decimal(i + 1) + ". **" + title + "**\n   " + body + "\n   Source: " + url];
    }
    assert formatted == Entries(results);
    text := Join(formatted, "\n\n");
  }

  /** Only the first five hits reach the text, and any hit makes it non-empty,
      starting with the first entry's number. */
  lemma FormatResultsTopFive(results: seq<Hit>, others: seq<Hit>)
    requires |results| >= MaxFormatted && |others| >= MaxFormatted
    requires results[..MaxFormatted] == others[..MaxFormatted]
    ensures FormatResults(results) == FormatResults(others)
  {
    assert Entries(results) == Entries(others) by {
      forall k | 0 <= k < MaxFormatted ensures Entries(results)[k] == Entries(others)[k] {
        assert results[k] == results[..MaxFormatted][k];
      }
    }
  }

  /** A non-empty result list formats to text that starts with "1. **". */
  lemma FormatResultsStart(results: seq<Hit>)
    requires results != []
    ensures StartsWith(FormatResults(results), "1. **")
  {
    var es := Entries(results);
    assert es[0] == Entry(1, results[0]);
    assert Decimal(1) == "1";
    assert StartsWith(es[0], "1. **") by {
      assert es[0][..5] == "1. **";
    }
    if |es| > 1 {
      assert FormatResults(results) == es[0] + "\n\n" + Join(es[1..], "\n\n");
      assert FormatResults(results)[..5] == es[0][..5];
    }
  }

  /** What `buscar_web` returns, given the history and the backend. */
  function SearchSpec(query: string, history: seq<Message>,
                      backend: string -> Option<seq<Hit>>): SearchOutcome
  {
    var context := if |history| > 1 then Digest(history, DefaultExchanges) else "";
    match backend(Enrich(query, history))
    case None => Failed
    case Some(hits) =>
      if Capped(hits) == [] then Failed
      else SearchOutcome(if context == "" then None else Some(context),
                         Some(FormatResults(Capped(hits))))
  }

  /** The search fails exactly when the backend raises or yields nothing for the
      enriched query; context comes only with results, and only when the digest
      is not empty. */
  lemma SearchOutcomeShape(query: string, history: seq<Message>,
                           backend: string -> Option<seq<Hit>>)
    ensures var r := SearchSpec(query, history, backend);
      && (r.results.None? <==> backend(Enrich(query, history)) in {None, Some([])})
      && (r.results.None? ==> r.context.None?)
      && (r.context.Some? ==> |history| > 1 && r.context.value == Digest(history, DefaultExchanges)
                              && r.context.value != "")
      && (r.results.Some? ==> StartsWith(r.results.value, "1. **"))
  {
    var r := SearchSpec(query, history, backend);
    match backend(Enrich(query, history))
    case None =>
    case Some(hits) =>
      if Capped(hits) != [] {
        FormatResultsStart(Capped(hits));
      }
  }

  /** The reverse scan of `buscar_web` for the newest organic user message,
      and the rewrite of a vague query from it. */
  method EnrichQuery(query: string, history: seq<Message>) returns (enriched: string)
    ensures enriched == Enrich(query, history)
  {
    enriched := query;
    if |history| > 1 && IsVague(query) {
      var i := |history|;
      while i > 0
        invariant 0 <= i <= |history|
        invariant LastOrganic(history) == LastOrganic(history[..i])
        invariant enriched == query
      {
        i := i - 1;
        var msg := history[i];
        assert history[..i + 1][..i] == history[..i];
        if msg.role == User && !Contains(msg.content, "===") {
          assert history[..i + 1][i] == msg;
          var keywords := Strip(Flatten(Take(msg.content, 50)));
          var low := Lower(query);
          if Contains(low, "improve") {
            enriched := "how to improve " + keywords;
          } else if Contains(low, "effective") {
            enriched := "how effective is " + keywords;
          } else if Contains(low, "do it") {
            enriched := "how to do " + keywords;
          } else {
            enriched := keywords + " " + query;
          }
          break;
        }
      }
    }
  }

  /** `buscar_web` itself: context, enrichment, the call, the capped
      collection and the formatting. */
  method Search(query: string, history: seq<Message>, backend: string -> Option<seq<Hit>>)
    returns (r: SearchOutcome)
    ensures r == SearchSpec(query, history, backend)
  {
    var context := "";
    if |history| > 1 {
      context := ExtractContext(history, DefaultExchanges);
    }
    var enriched := EnrichQuery(query, history);
    match backend(enriched)
    case None =>
      return Failed;
    case Some(hits) =>
      var results := CollectResults(hits);
      assert results == Capped(hits);
      if results == [] {
        return Failed;
      }
      var text := Format(results);
      if context != "" {
        r := SearchOutcome(Some(context), Some(text));
      } else {
        r := SearchOutcome(None, Some(text));
      }
  }
}
