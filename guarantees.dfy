/**
 * What the turns of `asistente` (assistant.py) promise about the message list
 * and the counters: commands leave the history alone, a stored reply follows
 * its question, a failed call rolls back, the auto-search protocol drops the
 * question it answers, a positive window keeps the history bounded and headed
 * by the system prompt, and every run ends with the session written out.
 */
module Guarantees {
  import opened Wrappers
  import opened Text
  import opened History
  import opened WebSearch
  import opened Input
  import opened Blocks
  import opened Menus
  import opened Settings
  import opened Dialogue

  /** The command a non-empty input starts with. */
  function CommandOf(input: seq<string>): Command
    requires input != []
  {
    Classify(Read(input).text)
  }

  /** The input lines after those the command itself was typed on. */
  function RestOf(input: seq<string>): seq<string>
    requires input != []
  {
    input[Read(input).used..]
  }

  /** Every command but `clear`, `search` and plain text leaves the history and
      the reply count as they were, and only the model switch changes anything.
      The loop ends on `exit`, or when the input runs out inside the model menu
      or the setup wizard; the session is written exactly then and on `save`. */
  lemma CommandsKeepHistory(setup: Setup, o: Oracles, c: Conversation, input: seq<string>)
    requires input != []
    requires !CommandOf(input).Clear? && !CommandOf(input).ExplicitSearch? && !CommandOf(input).Chat?
    ensures var out := Step(setup, o, c, input);
      var cmd := CommandOf(input);
      && out.after.messages == c.messages
      && out.after.count == c.count
      && (!cmd.SwitchModel? ==> out.after == c)
      && (out.stop <==> || cmd.Exit?
                        || (cmd.SwitchModel? && ChangeModelSpec(c.model, o.installed, RestOf(input)).None?)
                        || (cmd.Configure? && WizardLines(RestOf(input)).None?))
      && (out.saved <==> out.stop || cmd.Save?)
  {
  }

  /** `clear` (or `reset`) puts the history back to the system prompt alone and
      the count to zero, keeping the model and the switch count. */
  lemma ClearResets(setup: Setup, o: Oracles, c: Conversation, input: seq<string>)
    requires input != [] && CommandOf(input).Clear?
    ensures var out := Step(setup, o, c, input);
      && out.after == Start(setup, c.model).(switches := c.switches)
      && !out.saved && !out.stop
  {
  }

  /** A model switch reads the menu's answers from the following lines, takes
      the model they settle on and counts a change only when it differs from the
      current one; when the input runs out inside the menu the session is
      written and the loop ends. */
  lemma SwitchCountsChanges(setup: Setup, o: Oracles, c: Conversation, input: seq<string>)
    requires input != [] && CommandOf(input).SwitchModel?
    ensures var out := Step(setup, o, c, input);
      var e := ChangeModelSpec(c.model, o.installed, RestOf(input));
      && (e.None? ==> out == Outcome(c, true, true, |input|))
      && (e.Some? ==>
            && !out.saved && !out.stop
            && out.consumed == Read(input).used + e.value.used
            && out.after.messages == c.messages && out.after.count == c.count
            && out.after.model == e.value.model
            && out.after.switches == c.switches + (if e.value.model != c.model then 1 else 0))
  {
  }

  /** `config` runs the setup wizard over the following lines and leaves the
      session as it was; when the input runs out inside the wizard the session
      is written and the loop ends. */
  lemma ConfigReadsWizard(setup: Setup, o: Oracles, c: Conversation, input: seq<string>)
    requires input != [] && CommandOf(input).Configure?
    ensures var out := Step(setup, o, c, input);
      var w := WizardLines(RestOf(input));
      && (w.None? ==> out == Outcome(c, true, true, |input|))
      && (w.Some? ==> out == Outcome(c, false, false, Read(input).used + w.value))
  {
  }

  /** The wizard's answers are not chat: `config` followed by six answers is one
      turn that reads all seven lines and changes nothing in the session. */
  lemma ConfigExample(setup: Setup, o: Oracles, c: Conversation, input: seq<string>)
    requires input == ["config", "Ada", "Bob", "", "n", "", ""]
    ensures Step(setup, o, c, input) == Outcome(c, false, false, 7)
  {
    ConfigWord(input);
    assert WizardLines(RestOf(input)) == Some(6) by {
      var rest := input[1..];
      assert RestOf(input) == rest;
      assert rest[0] == "Ada" && rest[1] == "Bob" && rest[2] == "" && rest[3] == "n";
      WizardAdaBob(rest);
    }
    ConfigReadsWizard(setup, o, c, input);
  }

  /** A first line `config` is read on its own and is the `config` command. */
  lemma ConfigWord(input: seq<string>)
    requires input != [] && input[0] == "config"
    ensures Read(input) == Reading("config", 1) && CommandOf(input) == Configure
  {
    var w := "config";
    assert Read(input) == Reading(w, 1) by {
      assert Strip(w) == w by { PlainTextUnchanged(w); }
      assert w[..|Fence|] != Fence by { assert w[0] == 'c'; }
    }
    ConfigCommand(w);
  }

  lemma ConfigCommand(w: string)
    requires w == "config"
    ensures Classify(w) == Configure
  {
    assert Lower(w) == w by { LowerOfLowercase(w); }
    assert w != "exit" && w != "quit" && w != "clear" && w != "reset" && w != "save"
      && w != "model" && w != "switch" && w != "models" by {
      assert |w| == 6 && w[0] == 'c' && w[1] == 'o';
    }
  }


  /** An explicit search with an empty query, or one that finds nothing, changes nothing. */
  lemma ExplicitSearchWithoutResults(setup: Setup, o: Oracles, c: Conversation, query: string)
    requires query == "" || !Found(SearchSpec(query, c.messages, o.search))
    ensures ExplicitTurn(setup, o, c, query) == c
  {
  }

  /** The message list the history and counts must keep between turns: the
      system prompt at the head, no other system message, and at most
      `max + 2` messages. */
  ghost predicate Sound(setup: Setup, messages: seq<Message>) {
    SystemHeaded(messages, setup.prompt) && |messages| <= setup.max + 2
  }

  lemma HeadedAppend(messages: seq<Message>, m: Message, prompt: string)
    requires SystemHeaded(messages, prompt) && m.role != System
    ensures SystemHeaded(messages + [m], prompt)
  {
  }

  lemma HeadedPrefix(messages: seq<Message>, k: nat, prompt: string)
    requires SystemHeaded(messages, prompt) && 1 <= k <= |messages|
    ensures SystemHeaded(messages[..k], prompt)
  {
  }

  /** Appending a user message and applying a positive window leaves a headed
      list of two to `max + 1` messages that ends with that user message. */
  lemma WindowedUserMessage(setup: Setup, messages: seq<Message>, m: Message)
    requires setup.max >= 1 && SystemHeaded(messages, setup.prompt) && m.role == User
    ensures var w := SlidingWindow(messages + [m], setup.max);
      && SystemHeaded(w, setup.prompt)
      && 2 <= |w| <= setup.max + 1
      && w[|w| - 1] == m
  {
    HeadedAppend(messages, m, setup.prompt);
    SlidingWindowKeepsSystemHead(messages + [m], setup.max, setup.prompt);
    SlidingWindowBounded(messages + [m], setup.max);
  }

  /** The three endings of an auto-search keep the list sound, whatever the
      search found. */
  lemma RetrySound(setup: Setup, o: Oracles, c: Conversation, text: string, query: string, r: SearchOutcome)
    requires setup.max >= 1 && SystemHeaded(c.messages, setup.prompt)
    requires 2 <= |c.messages| <= setup.max + 1
    ensures Sound(setup, Retry(o, c, text, query, r).messages)
  {
    var kept := c.messages[..|c.messages| - 1];
    HeadedPrefix(c.messages, |c.messages| - 1, setup.prompt);
    forall f | true ensures Sound(setup, kept + [Message(Assistant, f)]) {
      HeadedAppend(kept, Message(Assistant, f), setup.prompt);
    }
  }

  /** A plain message keeps the list sound whatever the backends do. */
  lemma PlainTurnSound(setup: Setup, o: Oracles, c: Conversation, text: string)
    requires setup.max >= 1 && Sound(setup, c.messages)
    ensures Sound(setup, PlainTurn(setup, o, c, text).0.messages)
  {
    var u := Question(o, c.messages, text);
    var asked := Asked(setup, o, c, text);
    WindowedUserMessage(setup, c.messages, u);
    match o.chat(c.model, asked)
    case None =>
      HeadedPrefix(asked, |asked| - 1, setup.prompt);
    case Some(a) =>
      if IsDirective(a) {
        var q := DirectiveQuery(a);
        RetrySound(setup, o, c.(messages := asked), text, q, SearchSpec(q, asked, o.search));
      } else {
        HeadedAppend(asked, Message(Assistant, a), setup.prompt);
      }
  }

  /** Sending a user message keeps the list sound whatever the model does. */
  lemma ExchangeSound(setup: Setup, o: Oracles, c: Conversation, u: Message)
    requires setup.max >= 1 && Sound(setup, c.messages) && u.role == User
    ensures Sound(setup, Exchange(setup, o, c, u).messages)
  {
    var asked := SlidingWindow(c.messages + [u], setup.max);
    WindowedUserMessage(setup, c.messages, u);
    match o.chat(c.model, asked)
    case None =>
      HeadedPrefix(asked, |asked| - 1, setup.prompt);
    case Some(a) =>
      HeadedAppend(asked, Message(Assistant, a), setup.prompt);
  }

  /** An explicit search keeps the list sound whatever the backends do. */
  lemma ExplicitTurnSound(setup: Setup, o: Oracles, c: Conversation, query: string)
    requires setup.max >= 1 && Sound(setup, c.messages)
    ensures Sound(setup, ExplicitTurn(setup, o, c, query).messages)
  {
    if query != "" {
      var r := SearchSpec(query, c.messages, o.search);
      if Found(r) {
        ExchangeSound(setup, o, c, Message(User, ExplicitBlock(query, r.context, r.results.value)));
      }
    }
  }

  /** With a positive window every turn keeps the system prompt at the head, no
      other system message in the list and at most `max + 2` messages. */
  lemma StepKeepsSound(setup: Setup, o: Oracles, c: Conversation, input: seq<string>)
    requires setup.max >= 1 && Sound(setup, c.messages)
    ensures Sound(setup, Step(setup, o, c, input).after.messages)
  {
    if input != [] {
      match CommandOf(input)
      case Chat(t) => PlainTurnSound(setup, o, c, t);
      case ExplicitSearch(q) => ExplicitTurnSound(setup, o, c, q);
      case _ =>
    }
  }

  /** On a plain turn the reply count moves by at most one. */
  lemma PlainTurnCount(setup: Setup, o: Oracles, c: Conversation, text: string)
    ensures var n := PlainTurn(setup, o, c, text).0.count;
      n == c.count || n == c.count + 1
  {
    var asked := Asked(setup, o, c, text);
    match o.chat(c.model, asked)
    case None =>
    case Some(a) =>
      if IsDirective(a) {
        var d := AutoSearch(o, c.(messages := asked), text, DirectiveQuery(a));
        assert d.count == c.count || d.count == c.count + 1;
      }
  }

  /** The reply count moves by at most one per turn, and only `clear` lowers it. */
  lemma CountStepsByOne(setup: Setup, o: Oracles, c: Conversation, input: seq<string>)
    ensures var n := Step(setup, o, c, input).after.count;
      n == c.count || n == c.count + 1 || (n == 0 && input != [] && CommandOf(input).Clear?)
  {
    if input != [] {
      match CommandOf(input)
      case Chat(t) => PlainTurnCount(setup, o, c, t);
      case _ =>
    }
  }

  /** The window always keeps the message just appended as the last one. */
  lemma WindowKeepsLast(messages: seq<Message>, m: Message, max: nat)
    ensures var w := SlidingWindow(messages + [m], max);
      w != [] && w[|w| - 1] == m
  {
    var all := messages + [m];
    if |all| > max + 1 && max > 0 {
      assert SlidingWindow(all, max)[max] == all[|all| - 1];
    }
  }

  /** Under a positive window, what precedes the appended message all comes from
      the old list. */
  lemma WindowDropsLast(messages: seq<Message>, m: Message, max: nat)
    requires max >= 1 && m !in messages
    ensures var w := SlidingWindow(messages + [m], max);
      w != [] && m !in w[..|w| - 1]
  {
    var all := messages + [m];
    var w := SlidingWindow(all, max);
    if |all| <= max + 1 {
      assert w[..|w| - 1] == messages;
    } else {
      var tail := messages[|all| - max..];
      assert w == [messages[0]] + tail + [m];
      assert w[..|w| - 1] == [messages[0]] + tail;
      assert m !in tail by {
        forall x | x in tail ensures x != m {
          var i :| 0 <= i < |tail| && tail[i] == x;
          assert x == messages[|all| - max + i];
        }
      }
    }
  }

  /** A plain reply that is no search request is appended to the list that was
      sent, right after the user message it answers, the count goes up by one,
      and the session is written exactly when the new count is a multiple of a
      positive interval. */
  lemma ReplyFollowsQuestion(setup: Setup, o: Oracles, c: Conversation, text: string, a: string)
    requires o.chat(c.model, Asked(setup, o, c, text)) == Some(a) && !IsDirective(a)
    ensures var (d, saved) := PlainTurn(setup, o, c, text);
      && d.messages == Asked(setup, o, c, text) + [Message(Assistant, a)]
      && |d.messages| >= 2
      && d.messages[|d.messages| - 1] == Message(Assistant, a)
      && d.messages[|d.messages| - 2] == Question(o, c.messages, text)
      && d.count == c.count + 1
      && (saved <==> setup.interval > 0 && d.count % setup.interval == 0)
  {
    var asked := Asked(setup, o, c, text);
    WindowKeepsLast(c.messages, Question(o, c.messages, text), setup.max);
    var d := c.(messages := asked + [Message(Assistant, a)], count := c.count + 1);
    assert PlainTurn(setup, o, c, text) == (d, AutoSave(setup.interval, c.count + 1));
    assert d.messages[|d.messages| - 2] == asked[|asked| - 1];
  }

  /** When the first call fails the user message is taken back: the history is
      the windowed list without its last message, the count stays, nothing is
      written, and when the window did not cut anything the history is exactly
      as before. */
  lemma FailedCallRollsBack(setup: Setup, o: Oracles, c: Conversation, text: string)
    requires o.chat(c.model, Asked(setup, o, c, text)) == None
    ensures var asked := Asked(setup, o, c, text);
      var (d, saved) := PlainTurn(setup, o, c, text);
      && d == c.(messages := asked[..|asked| - 1])
      && !saved
      && d.count == c.count
      && (|c.messages| <= setup.max ==> d.messages == c.messages)
  {
    var u := Question(o, c.messages, text);
    WindowKeepsLast(c.messages, u, setup.max);
    if |c.messages| <= setup.max {
      assert Asked(setup, o, c, text) == c.messages + [u];
      assert (c.messages + [u])[..|c.messages|] == c.messages;
    }
  }

  /** The same rollback for an explicit search whose call fails. */
  lemma FailedExplicitCallRollsBack(setup: Setup, o: Oracles, c: Conversation, query: string)
    requires query != ""
    requires var r := SearchSpec(query, c.messages, o.search);
      Found(r) && o.chat(c.model, SlidingWindow(c.messages + [Message(User, ExplicitBlock(query, r.context, r.results.value))], setup.max)) == None
    ensures var r := SearchSpec(query, c.messages, o.search);
      var w := SlidingWindow(c.messages + [Message(User, ExplicitBlock(query, r.context, r.results.value))], setup.max);
      var d := ExplicitTurn(setup, o, c, query);
      && w != []
      && d == c.(messages := w[..|w| - 1])
      && d.count == c.count
      && (|c.messages| <= setup.max ==> d.messages == c.messages)
  {
    var r := SearchSpec(query, c.messages, o.search);
    var u := Message(User, ExplicitBlock(query, r.context, r.results.value));
    WindowKeepsLast(c.messages, u, setup.max);
    if |c.messages| <= setup.max {
      assert (c.messages + [u])[..|c.messages|] == c.messages;
    }
  }

  /** An explicit search whose search and call succeed stores the search block
      and the answer after the windowed history and counts one reply. */
  lemma ExplicitSearchAnswered(setup: Setup, o: Oracles, c: Conversation, query: string, f: string)
    requires query != ""
    requires var r := SearchSpec(query, c.messages, o.search);
      Found(r) && o.chat(c.model, SlidingWindow(c.messages + [Message(User, ExplicitBlock(query, r.context, r.results.value))], setup.max)) == Some(f)
    ensures var r := SearchSpec(query, c.messages, o.search);
      var w := SlidingWindow(c.messages + [Message(User, ExplicitBlock(query, r.context, r.results.value))], setup.max);
      ExplicitTurn(setup, o, c, query) == c.(messages := w + [Message(Assistant, f)], count := c.count + 1)
  {
  }

  /** The two ways a turn whose reply is a search request can end once the
      search succeeds: the list sent, minus its last message, followed by the
      retry's answer and one more reply counted, or without an answer and with
      the count unchanged. The request itself is never stored. */
  lemma AutoSearchEndings(setup: Setup, o: Oracles, c: Conversation, text: string, a: string)
    requires o.chat(c.model, Asked(setup, o, c, text)) == Some(a) && IsDirective(a)
    requires Found(SearchSpec(DirectiveQuery(a), Asked(setup, o, c, text), o.search))
    ensures var asked := Asked(setup, o, c, text);
      var kept := asked[..|asked| - 1];
      var q := DirectiveQuery(a);
      var r := SearchSpec(q, asked, o.search);
      var retry := kept + [Message(User, AutoBlock(text, q, r.context, r.results.value))];
      var (d, saved) := PlainTurn(setup, o, c, text);
      && !saved
      && (o.chat(c.model, retry).Some? ==>
            d == c.(messages := kept + [Message(Assistant, o.chat(c.model, retry).value)], count := c.count + 1))
      && (o.chat(c.model, retry).None? ==> d == c.(messages := kept))
  {
    var asked := Asked(setup, o, c, text);
    WindowKeepsLast(c.messages, Question(o, c.messages, text), setup.max);
    assert PlainTurn(setup, o, c, text).0 == AutoSearch(o, c.(messages := asked), text, DirectiveQuery(a));
  }

  /** Every message of a window but its last comes from the list before the new
      message was added. */
  lemma WindowInitFromOld(messages: seq<Message>, m: Message, max: nat)
    ensures var w := SlidingWindow(messages + [m], max);
      w != [] && forall i :: 0 <= i < |w| - 1 ==> w[i] in messages
  {
    var all := messages + [m];
    var w := SlidingWindow(all, max);
    WindowKeepsLast(messages, m, max);
    if |all| <= max + 1 {
      assert w == all;
      forall i | 0 <= i < |w| - 1 ensures w[i] in messages {
        assert w[i] == messages[i];
      }
    } else if max == 0 {
      assert w == [all[0]] + all;
      forall i | 0 <= i < |w| - 1 ensures w[i] in messages {
        if i > 0 { assert w[i] == messages[i - 1]; }
      }
    } else {
      assert w == [all[0]] + all[|all| - max..];
      forall i | 0 <= i < |w| - 1 ensures w[i] in messages {
        if i > 0 { assert w[i] == messages[|all| - max + i - 1]; }
      }
    }
  }

  const RateQuery := "current exchange rate USD EUR"

  /** The model's request for the exchange rate, `SEARCH: current exchange rate
      USD EUR`, is a search request for exactly that query. */
  lemma RateRequest()
    ensures IsDirective(DirectiveTag + " " + RateQuery)
    ensures DirectiveQuery(DirectiveTag + " " + RateQuery) == RateQuery
  {
    var q := RateQuery;
    assert q[0] == 'c' && q[|q| - 1] == 'R';
    assert ':' !in q by {
      forall i | 0 <= i < |q| ensures q[i] != ':' { }
    }
    DirectiveQueryOf(q);
  }

  /** The exchange-rate turn: the model asks for `SEARCH: current exchange rate
      USD EUR`, the search succeeds and the retry answers `The rate is 1.08.`.
      The history then ends with that answer, one reply is counted, and no
      stored message is a search request when none was before. */
  lemma ExchangeRateScenario(setup: Setup, o: Oracles, c: Conversation, text: string)
    requires var asked := Asked(setup, o, c, text);
      var r := SearchSpec(RateQuery, asked, o.search);
      && o.chat(c.model, asked) == Some(DirectiveTag + " " + RateQuery)
      && Found(r)
      && o.chat(c.model, asked[..|asked| - 1] + [Message(User, AutoBlock(text, RateQuery, r.context, r.results.value))]) == Some("The rate is 1.08.")
    requires forall i :: 0 <= i < |c.messages| ==> !StartsWith(c.messages[i].content, DirectiveTag)
    ensures var d := PlainTurn(setup, o, c, text).0;
      && d.messages != []
      && d.messages[|d.messages| - 1] == Message(Assistant, "The rate is 1.08.")
      && d.count == c.count + 1
      && forall i :: 0 <= i < |d.messages| ==> !StartsWith(d.messages[i].content, DirectiveTag)
  {
    var a := DirectiveTag + " " + RateQuery;
    var u := Question(o, c.messages, text);
    var asked := Asked(setup, o, c, text);
    var kept := asked[..|asked| - 1];
    RateRequest();
    AutoSearchEndings(setup, o, c, text, a);
    assert !StartsWith("The rate is 1.08.", DirectiveTag) by {
      assert "The rate is 1.08."[0] != DirectiveTag[0];
    }
    NoRequestAfterPop(c.messages, u, setup.max, [Message(Assistant, "The rate is 1.08.")]);
  }

  /** Popping the last message of a window over a history free of search
      requests, then adding messages free of them, stores none. */
  lemma NoRequestAfterPop(messages: seq<Message>, m: Message, max: nat, added: seq<Message>)
    requires forall i :: 0 <= i < |messages| ==> !StartsWith(messages[i].content, DirectiveTag)
    requires forall i :: 0 <= i < |added| ==> !StartsWith(added[i].content, DirectiveTag)
    ensures var w := SlidingWindow(messages + [m], max);
      && w != []
      && var after := w[..|w| - 1] + added;
        forall i :: 0 <= i < |after| ==> !StartsWith(after[i].content, DirectiveTag)
  {
    var w := SlidingWindow(messages + [m], max);
    WindowInitFromOld(messages, m, max);
    var after := w[..|w| - 1] + added;
    forall i | 0 <= i < |after| ensures !StartsWith(after[i].content, DirectiveTag) {
      if i < |w| - 1 {
        assert after[i] == w[i];
        var k :| 0 <= k < |messages| && messages[k] == w[i];
      } else {
        assert after[i] == added[i - (|w| - 1)];
      }
    }
  }

  /** A search request is never stored, and once its search succeeds the user's
      own question is gone from the history as well: the pop meant for the
      request removes the question, which the retry's answer replaces. */
  lemma AutoSearchDropsQuestion(setup: Setup, o: Oracles, c: Conversation, text: string, a: string)
    requires setup.max >= 1
    requires o.chat(c.model, Asked(setup, o, c, text)) == Some(a) && IsDirective(a)
    requires Found(SearchSpec(DirectiveQuery(a), Asked(setup, o, c, text), o.search))
    requires Question(o, c.messages, text) !in c.messages
    ensures var d := PlainTurn(setup, o, c, text).0;
      && Question(o, c.messages, text) !in d.messages
      && (d.count == c.count || d.count == c.count + 1)
      && |d.messages| <= |Asked(setup, o, c, text)|
  {
    var u := Question(o, c.messages, text);
    var asked := Asked(setup, o, c, text);
    WindowDropsLast(c.messages, u, setup.max);
    RetryPops(o, c.(messages := asked), text, DirectiveQuery(a), SearchSpec(DirectiveQuery(a), asked, o.search), u);
    assert PlainTurn(setup, o, c, text).0 == AutoSearch(o, c.(messages := asked), text, DirectiveQuery(a));
  }

  /** Once the requested search succeeds, the list is the old one minus its last
      message, followed by the retry's answer when the retry works. */
  lemma RetryPops(o: Oracles, c: Conversation, text: string, query: string, r: SearchOutcome, u: Message)
    requires c.messages != [] && Found(r)
    requires u.role == User && u !in c.messages[..|c.messages| - 1]
    ensures var d := Retry(o, c, text, query, r);
      && u !in d.messages
      && (d.count == c.count || d.count == c.count + 1)
      && |d.messages| <= |c.messages|
  {
    var kept := c.messages[..|c.messages| - 1];
    var retry := kept + [Message(User, AutoBlock(text, query, r.context, r.results.value))];
    match o.chat(c.model, retry)
    case None =>
      assert Retry(o, c, text, query, r) == c.(messages := kept);
    case Some(f) =>
      assert Retry(o, c, text, query, r) == c.(messages := kept + [Message(Assistant, f)], count := c.count + 1);
  }

  /** When the requested search itself finds nothing, the turn still counts a
      reply, yet stores none: the history ends with the user's message. */
  lemma FailedAutoSearchCounts(setup: Setup, o: Oracles, c: Conversation, text: string, a: string)
    requires o.chat(c.model, Asked(setup, o, c, text)) == Some(a) && IsDirective(a)
    requires !Found(SearchSpec(DirectiveQuery(a), Asked(setup, o, c, text), o.search))
    ensures var d := PlainTurn(setup, o, c, text).0;
      && d.count == c.count + 1
      && d.messages == Asked(setup, o, c, text)
      && d.messages[|d.messages| - 1] == Question(o, c.messages, text)
  {
    WindowKeepsLast(c.messages, Question(o, c.messages, text), setup.max);
    var asked := Asked(setup, o, c, text);
    assert PlainTurn(setup, o, c, text).0 == AutoSearch(o, c.(messages := asked), text, DirectiveQuery(a));
  }

  /** With a zero window nothing is ever cut: a stored reply grows the history
      by three messages, a second copy of the head among them. */
  lemma ZeroWindowGrows(setup: Setup, o: Oracles, c: Conversation, text: string, a: string)
    requires setup.max == 0 && c.messages != []
    requires o.chat(c.model, Asked(setup, o, c, text)) == Some(a) && !IsDirective(a)
    ensures var d := PlainTurn(setup, o, c, text).0;
      |d.messages| == |c.messages| + 3 && d.messages[1] == c.messages[0]
  {
    var u := Question(o, c.messages, text);
    ZeroWindowDuplicatesHead(c.messages + [u]);
  }

  /** The query of a `SEARCH: <q>` reply is `q` itself when `q` has no colon and
      no surrounding whitespace. */
  lemma DirectiveQueryOf(q: string)
    requires q != [] && !IsSpace(q[0]) && !IsSpace(q[|q| - 1]) && ':' !in q
    ensures IsDirective(DirectiveTag + " " + q)
    ensures DirectiveQuery(DirectiveTag + " " + q) == q
  {
    var s := DirectiveTag + " " + q;
    var rest := " " + q;
    assert s == DirectiveTag + rest;
    assert IsDirective(s) by {
      assert s[0] == 'S' && s[|s| - 1] == q[|q| - 1];
      StripUnchanged(s);
      StartsWithConcat(DirectiveTag, rest);
    }
    assert RemoveAll(s, DirectiveTag) == rest by {
      StartsWithConcat(DirectiveTag, rest);
      assert s[|DirectiveTag|..] == rest;
      assert ':' !in rest;
      AbsentCharNotContained(rest, DirectiveTag, ':');
      RemoveAllShrinks(rest, DirectiveTag);
    }
    StripOneSpace(q);
  }

  /** A single leading space is all that stripping removes from `" " + q`. */
  lemma StripOneSpace(q: string)
    requires q != [] && !IsSpace(q[0]) && !IsSpace(q[|q| - 1])
    ensures Strip(" " + q) == q
  {
    var t := " " + q;
    assert t[1..] == q;
    assert LeadingSpaces(q) == 0;
    assert LeadingSpaces(t) == 1;
    assert TrimLeft(t) == q;
    StripUnchanged(q);
  }

  /** Every run ends with the session written out with its final state: both
      `exit` and the end of input save before the loop ends. */
  lemma {:induction false} RunEndsSaved(setup: Setup, o: Oracles, c: Conversation, input: seq<string>)
    ensures var (final, saves) := RunSpec(setup, o, c, input);
      saves != [] && saves[|saves| - 1] == final
    decreases |input|
  {
    var out := Step(setup, o, c, input);
    RunSpecStep(setup, o, c, input, out);
    if !out.stop {
      RunEndsSaved(setup, o, out.after, input[out.consumed..]);
    } else if input != [] {
      StopImpliesSave(setup, o, c, input);
    }
  }

  lemma StopImpliesSave(setup: Setup, o: Oracles, c: Conversation, input: seq<string>)
    requires input != []
    ensures Step(setup, o, c, input).stop ==> Step(setup, o, c, input).saved
  {
  }

  /** With a positive window every state a run writes out, and the state it ends
      in, has the system prompt at the head and at most `max + 2` messages. */
  lemma {:induction false} RunKeepsSound(setup: Setup, o: Oracles, c: Conversation, input: seq<string>)
    requires setup.max >= 1 && Sound(setup, c.messages)
    ensures var (final, saves) := RunSpec(setup, o, c, input);
      && Sound(setup, final.messages)
      && forall i :: 0 <= i < |saves| ==> Sound(setup, saves[i].messages)
    decreases |input|
  {
    var out := Step(setup, o, c, input);
    RunSpecStep(setup, o, c, input, out);
    StepKeepsSound(setup, o, c, input);
    if !out.stop {
      RunKeepsSound(setup, o, out.after, input[out.consumed..]);
    }
  }

  /** A session starts sound. */
  lemma StartIsSound(setup: Setup, model: string)
    ensures Sound(setup, Start(setup, model).messages)
  {
  }
}
