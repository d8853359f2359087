/**
 * One turn of the `asistente` loop in assistant.py, and the loop itself.
 *
 * The conversation state is the `messages` list, the reply counter
 * `mensaje_count`, the number of model switches `cambios_modelo` and the
 * current model name. The backends are oracles: the chat call is a function
 * from the model name and the message list to a reply (`None` when the call
 * raises), the web search a function from the query sent to the hits found
 * (`None` when it raises), and the models Ollama lists for the model menu a
 * fixed list. The model menu and the setup wizard read their answers from the
 * same input lines as the prompt.
 *
 * `Step` says what a turn does; `Session.Turn` does it in place and is proved
 * to agree with `Step`; the lemmas state what the turns promise.
 */
module Dialogue {
  import opened Wrappers
  import opened Text
  import opened History
  import opened Context
  import opened WebSearch
  import opened Blocks
  import opened Input
  import opened Menus
  import opened Settings

  datatype Oracles = Oracles(
    chat: (string, seq<Message>) -> Option<string>,
    search: string -> Option<seq<Hit>>,
    installed: seq<string>)

  /** The values `asistente` fixes when it starts: the system prompt, the
      window size `max_messages_context` and `auto_save_interval`. */
  datatype Setup = Setup(prompt: string, max: nat, interval: nat)

  datatype Conversation = Conversation(messages: seq<Message>, count: nat, switches: nat, model: string)

  /** What a command leaves behind: the new state, whether the session was
      written out (with that state), whether the loop ends, and how many input
      lines the command itself read after its own. */
  datatype Reply = Reply(after: Conversation, saved: bool, stop: bool, used: nat)

  datatype Outcome = Outcome(after: Conversation, saved: bool, stop: bool, consumed: nat)

  /** The opening state, and the state `clear` returns to. */
  function Start(setup: Setup, model: string): Conversation {
    Conversation([Message(System, setup.prompt)], 0, 0, model)
  }

  /** `result and result[1]`: the search produced formatted results. */
  predicate Found(r: SearchOutcome) {
    r.results.Some? && r.results.value != ""
  }

  /** `if messages[-1]["role"] == "user": messages.pop()` */
  function DropLastUser(messages: seq<Message>): (r: seq<Message>)
    requires messages != []
    ensures messages[|messages| - 1].role == User ==> r == messages[..|messages| - 1]
    ensures messages[|messages| - 1].role != User ==> r == messages
  {
    if messages[|messages| - 1].role == User then messages[..|messages| - 1] else messages
  }

  const DirectiveTag := "SEARCH:"

  /** A reply that asks for a web search instead of answering. */
  predicate IsDirective(reply: string) {
    StartsWith(Strip(reply), DirectiveTag)
  }

  /** The query of a directive: every `SEARCH:` removed, then stripped. */
  function DirectiveQuery(reply: string): string {
    Strip(RemoveAll(reply, DirectiveTag))
  }

  /** The auto-save test `mensaje_count % auto_save_interval == 0`. An interval
      of zero raises inside the turn's handler after the reply is stored, so no
      save happens. */
  predicate AutoSave(interval: nat, count: nat) {
    interval != 0 && count % interval == 0
  }

  /** The implicit-search block for a plain message, or "" when no keyword
      matches or the search finds nothing. */
  function ImplicitContext(o: Oracles, history: seq<Message>, text: string): string {
    if NeedsSearch(text) then
      var r := SearchSpec(text, history, o.search);
      if Found(r) then ImplicitBlock(text, r.context, r.results.value) else ""
    else ""
  }

  /** The list the first chat call sees on a plain turn: the user message
      appended, then the window applied. */
  function Asked(setup: Setup, o: Oracles, c: Conversation, text: string): seq<Message> {
    SlidingWindow(c.messages + [Question(o, c.messages, text)], setup.max)
  }

  /** The user message of a plain turn: the text, after the implicit-search block if any. */
  function Question(o: Oracles, history: seq<Message>, text: string): Message {
    Message(User, UserMessage(ImplicitContext(o, history, text), text))
  }

  /** A reply that asked for a search, with the windowed list in place: the
      search runs on it, then the retry. */
  function AutoSearch(o: Oracles, c: Conversation, text: string, query: string): Conversation
    requires c.messages != []
  {
    Retry(o, c, text, query, SearchSpec(query, c.messages, o.search))
  }

  /** What follows the requested search `r`: when it found nothing the reply
      is counted but not stored; otherwise the last message (the user's own)
      is popped, the auto-search block is sent, and the retry's answer takes
      the block's place. */
  function Retry(o: Oracles, c: Conversation, text: string, query: string, r: SearchOutcome): Conversation
    requires c.messages != []
  {
    if !Found(r) then c.(count := c.count + 1)
    else
      var kept := c.messages[..|c.messages| - 1];
      var retry := kept + [Message(User, AutoBlock(text, query, r.context, r.results.value))];
      match o.chat(c.model, retry)
      case None => c.(messages := kept)
      case Some(f) => c.(messages := kept + [Message(Assistant, f)], count := c.count + 1)
  }

  /** A message that is no command: the first call, then a stored reply, an
      auto-search or a rollback. The flag says whether the turn auto-saved. */
  function PlainTurn(setup: Setup, o: Oracles, c: Conversation, text: string): (Conversation, bool) {
    var asked := Asked(setup, o, c, text);
    match o.chat(c.model, asked)
    case None => (c.(messages := DropLastUser(asked)), false)
    case Some(a) => Answered(setup, o, c.(messages := asked), text, a)
  }

  /** The first reply arrived: store it and test for an auto-save, or run the
      auto-search it asks for. */
  function Answered(setup: Setup, o: Oracles, c: Conversation, text: string, reply: string): (Conversation, bool)
    requires c.messages != []
  {
    if IsDirective(reply) then (AutoSearch(o, c, text, DirectiveQuery(reply)), false)
    else (c.(messages := c.messages + [Message(Assistant, reply)], count := c.count + 1), AutoSave(setup.interval, c.count + 1))
  }

  /** A user message sent on its own: appended, the window applied and the
      model called; the reply is stored, or the pending user message popped. */
  function Exchange(setup: Setup, o: Oracles, c: Conversation, u: Message): Conversation {
    var asked := SlidingWindow(c.messages + [u], setup.max);
    match o.chat(c.model, asked)
    case None => c.(messages := DropLastUser(asked))
    case Some(a) => c.(messages := asked + [Message(Assistant, a)], count := c.count + 1)
  }

  /** `search <query>`: nothing happens for an empty query or when the search
      finds nothing; otherwise the block is sent as the user message. */
  function ExplicitTurn(setup: Setup, o: Oracles, c: Conversation, query: string): Conversation {
    if query == "" then c
    else
      var r := SearchSpec(query, c.messages, o.search);
      if !Found(r) then c
      else Exchange(setup, o, c, Message(User, ExplicitBlock(query, r.context, r.results.value)))
  }

  /** A command, given the input lines after it. End of input inside the model
      menu or the setup wizard raises an `EOFError` that neither catches: the
      session is saved and the loop ends, having read every remaining line. */
  function Dispatch(setup: Setup, o: Oracles, c: Conversation, cmd: Command, rest: seq<string>): (r: Reply)
    ensures r.used <= |rest|
  {
    match cmd
    case Blank => Reply(c, false, false, 0)
    case Exit => Reply(c, true, true, 0)
    case Clear => Reply(c.(messages := [Message(System, setup.prompt)], count := 0), false, false, 0)
    case Save => Reply(c, true, false, 0)
    case SwitchModel =>
      ChangeModelShape(c.model, o.installed, rest);
      (match ChangeModelSpec(c.model, o.installed, rest)
       case None => Reply(c, true, true, |rest|)
       case Some(e) =>
         Reply(if e.model != c.model then c.(model := e.model, switches := c.switches + 1) else c, false, false, e.used))
    case ListModels => Reply(c, false, false, 0)
    case Configure =>
      (match WizardLines(rest)
       case None => Reply(c, true, true, |rest|)
       case Some(k) => Reply(c, false, false, k))
    case ExplicitSearch(q) => Reply(ExplicitTurn(setup, o, c, q), false, false, 0)
    case Chat(t) =>
      var (d, saved) := PlainTurn(setup, o, c, t);
      Reply(d, saved, false, 0)
  }

  /** The text of a turn and how many lines it took: the stripped prompt line,
      or a whole multi-line block when that line opens one. */
  datatype Reading = Reading(text: string, used: nat)

  function Read(input: seq<string>): (r: Reading)
    requires input != []
    ensures 1 <= r.used <= |input|
  {
    var line := Strip(input[0]);
    if OpensBlock(line) then
      var cap := CaptureSpec(line, input[1..]);
      CaptureShape(line, input[1..]);
      Reading(cap.text, 1 + cap.used)
    else Reading(line, 1)
  }

  /** One turn. End of input at the prompt saves the session and ends the loop;
      otherwise the turn consumes at least one line and never more than there are. */
  function Step(setup: Setup, o: Oracles, c: Conversation, input: seq<string>): (out: Outcome)
    ensures input == [] ==> out == Outcome(c, true, true, 0)
    ensures input != [] ==> 1 <= out.consumed <= |input|
  {
    if input == [] then Outcome(c, true, true, 0)
    else
      var rd := Read(input);
      var r := Dispatch(setup, o, c, Classify(rd.text), input[rd.used..]);
      Outcome(r.after, r.saved, r.stop, rd.used + r.used)
  }

  /** The loop: turns until one stops it; the result is the final state and
      every state written out, in order. */
  function RunSpec(setup: Setup, o: Oracles, c: Conversation, input: seq<string>): (Conversation, seq<Conversation>)
    decreases |input|
  {
    var out := Step(setup, o, c, input);
    var saves := if out.saved then [out.after] else [];
    if out.stop then (out.after, saves)
    else
      var (final, later) := RunSpec(setup, o, out.after, input[out.consumed..]);
      (final, saves + later)
  }

  /** One unfolding of the loop: the first turn's outcome, then the rest. */
  lemma RunSpecStep(setup: Setup, o: Oracles, c: Conversation, input: seq<string>, out: Outcome)
    requires out == Step(setup, o, c, input)
    ensures var saves := if out.saved then [out.after] else [];
      && (out.stop ==> RunSpec(setup, o, c, input) == (out.after, saves))
      && (!out.stop ==>
            && 1 <= out.consumed <= |input|
            && RunSpec(setup, o, c, input).0 == RunSpec(setup, o, out.after, input[out.consumed..]).0
            && RunSpec(setup, o, c, input).1 == saves + RunSpec(setup, o, out.after, input[out.consumed..]).1)
  {
  }

  /** The state of `asistente` as an object updated in place. */
  class Session {
    const setup: Setup
    var messages: seq<Message>
    var count: nat
    var switches: nat
    var model: string

    function Current(): Conversation
      reads this
    {
      Conversation(messages, count, switches, model)
    }

    constructor (setup: Setup, model: string)
      ensures this.setup == setup && Current() == Start(setup, model)
    {
      this.setup := setup;
      messages := [Message(System, setup.prompt)];
      count := 0;
      switches := 0;
      this.model := model;
    }

    method Clear()
      modifies this
      ensures Current() == old(Current()).(messages := [Message(System, setup.prompt)], count := 0)
    {
      messages := [Message(System, setup.prompt)];
      count := 0;
    }

    /** The `model` command: the menu, over the lines after the command. */
    method SwitchModel(o: Oracles, rest: seq<string>) returns (saved: bool, stop: bool, used: nat)
      modifies this
      ensures Reply(Current(), saved, stop, used) == Dispatch(setup, o, old(Current()), Command.SwitchModel, rest)
    {
      var e := ChangeModel(model, o.installed, rest);
      match e
      case None =>
        return true, true, |rest|;
      case Some(end) =>
        if end.model != model {
          model := end.model;
          switches := switches + 1;
        }
        return false, false, end.used;
    }

    /** Sending one user message and taking the reply. */
    method Send(o: Oracles, u: Message)
      modifies this
      ensures Current() == Exchange(setup, o, old(Current()), u)
    {
      ghost var c := Current();
      messages := messages + [u];
      messages := SlidingWindow(messages, setup.max);
      ghost var asked := messages;
      var reply := o.chat(model, messages);
      match reply
      case None =>
        if messages[|messages| - 1].role == User {
          messages := messages[..|messages| - 1];
        }
        assert messages == DropLastUser(asked);
        assert Exchange(setup, o, c, u) == c.(messages := DropLastUser(asked));
      case Some(a) =>
        messages := messages + [Message(Assistant, a)];
        count := count + 1;
        assert Exchange(setup, o, c, u) == c.(messages := asked + [Message(Assistant, a)], count := c.count + 1);
    }

    /** The explicit `search <query>` command. */
    method ExplicitSearchTurn(o: Oracles, query: string)
      modifies this
      ensures Current() == ExplicitTurn(setup, o, old(Current()), query)
    {
      if query == "" {
        return;
      }
      var r := Search(query, messages, o.search);
      if !Found(r) {
        return;
      }
      Send(o, Message(User, ExplicitBlock(query, r.context, r.results.value)));
    }

    /** The second phase of a reply that asked for a search. */
    method AutoSearchTurn(o: Oracles, text: string, query: string)
      requires messages != []
      modifies this
      ensures Current() == AutoSearch(o, old(Current()), text, query)
    {
      var r := Search(query, messages, o.search);
      RetryTurn(o, text, query, r);
    }

    /** The pop, the auto-search block and the retry, once the search ran. */
    method RetryTurn(o: Oracles, text: string, query: string, r: SearchOutcome)
      requires messages != []
      modifies this
      ensures Current() == Retry(o, old(Current()), text, query, r)
    {
      if Found(r) {
        messages := messages[..|messages| - 1];
        ghost var kept := messages;
        messages := messages + [Message(User, AutoBlock(text, query, r.context, r.results.value))];
        var retry := o.chat(model, messages);
        assert messages[..|messages| - 1] == kept;
        match retry
        case None =>
          messages := messages[..|messages| - 1];
        case Some(f) =>
          messages := messages[..|messages| - 1];
          messages := messages + [Message(Assistant, f)];
          count := count + 1;
      } else {
        count := count + 1;
      }
    }

    /** The implicit search of a plain message: the block to put before it. */
    method ImplicitSearch(o: Oracles, text: string) returns (block: string)
      ensures block == ImplicitContext(o, messages, text)
    {
      block := "";
      if NeedsSearch(text) {
        var r := Search(text, messages, o.search);
        if Found(r) {
          block := ImplicitBlock(text, r.context, r.results.value);
        }
      }
    }

    /** A plain message; returns whether the turn auto-saved. */
    method PlainMessage(o: Oracles, text: string) returns (saved: bool)
      modifies this
      ensures (Current(), saved) == PlainTurn(setup, o, old(Current()), text)
    {
      ghost var c := Current();
      var block := ImplicitSearch(o, text);
      var userMessage := if block != "" then block + "\n\n" + text else text;
      messages := messages + [Message(User, userMessage)];
      messages := SlidingWindow(messages, setup.max);
      ghost var asked := messages;
      assert asked == Asked(setup, o, c, text);
      saved := false;
      var reply := o.chat(model, messages);
      match reply
      case None =>
        if messages[|messages| - 1].role == User {
          messages := messages[..|messages| - 1];
        }
        assert messages == DropLastUser(asked);
        assert PlainTurn(setup, o, c, text) == (c.(messages := DropLastUser(asked)), false);
      case Some(a) =>
        assert PlainTurn(setup, o, c, text) == Answered(setup, o, Current(), text, a);
        saved := Answer(o, text, a);
    }

    /** What follows a reply: the auto-search it asks for, or storing it. */
    method Answer(o: Oracles, text: string, reply: string) returns (saved: bool)
      requires messages != []
      modifies this
      ensures (Current(), saved) == Answered(setup, o, old(Current()), text, reply)
    {
      saved := false;
      if StartsWith(Strip(reply), DirectiveTag) {
        var query := Strip(RemoveAll(reply, DirectiveTag));
        AutoSearchTurn(o, text, query);
      } else {
        messages := messages + [Message(Assistant, reply)];
        count := count + 1;
        saved := setup.interval != 0 && count % setup.interval == 0;
      }
    }

    /** `input().strip()` at the prompt, and the multi-line block it may open. */
    static method ReadInput(input: seq<string>) returns (rd: Reading)
      requires input != []
      ensures rd == Read(input)
    {
      var line := Strip(input[0]);
      if OpensBlock(line) {
        var cap := CaptureBlock(line, input[1..]);
        rd := Reading(cap.text, 1 + cap.used);
      } else {
        rd := Reading(line, 1);
      }
    }

    /** One pass of the loop body over the remaining input lines. */
    method Turn(o: Oracles, input: seq<string>) returns (saved: bool, stop: bool, consumed: nat)
      modifies this
      ensures Outcome(Current(), saved, stop, consumed) == Step(setup, o, old(Current()), input)
    {
      if input == [] {
        return true, true, 0;
      }
      var rd := ReadInput(input);
      consumed := rd.used;
      var text := rd.text;
      var rest := input[rd.used..];
      saved, stop := false, false;
      match Classify(text)
      case Blank =>
      case Exit =>
        saved, stop := true, true;
      case Clear =>
        Clear();
      case Save =>
        saved := true;
      case SwitchModel =>
        var used;
        saved, stop, used := SwitchModel(o, rest);
        consumed := consumed + used;
      case ListModels =>
      case Configure =>
        match WizardLines(rest) {
          case None =>
            saved, stop := true, true;
            consumed := consumed + |rest|;
          case Some(k) =>
            consumed := consumed + k;
        }
      case ExplicitSearch(q) =>
        ExplicitSearchTurn(o, q);
      case Chat(t) =>
        saved := PlainMessage(o, t);
    }

    /** The `while True` loop: turns until one ends it; returns every state
        written out. */
    method Run(o: Oracles, input: seq<string>) returns (saves: seq<Conversation>)
      modifies this
      ensures (Current(), saves) == RunSpec(setup, o, old(Current()), input)
    {
      ghost var start := Current();
      saves := [];
      var rest := input;
      while true
        invariant RunSpec(setup, o, start, input).0 == RunSpec(setup, o, Current(), rest).0
        invariant RunSpec(setup, o, start, input).1 == saves + RunSpec(setup, o, Current(), rest).1
        decreases |rest|
      {
        ghost var before := Current();
        ghost var earlier := saves;
        var saved, stop, consumed := Turn(o, rest);
        RunSpecStep(setup, o, before, rest, Outcome(Current(), saved, stop, consumed));
        ghost var now := if saved then [Current()] else [];
        if saved {
          saves := saves + [Current()];
        }
        assert saves == earlier + now;
        if stop {
          assert RunSpec(setup, o, before, rest) == (Current(), now);
          return;
        }
        ghost var later := RunSpec(setup, o, Current(), rest[consumed..]);
        assert RunSpec(setup, o, before, rest).1 == now + later.1;
        AppendAssoc(earlier, now, later.1);
        rest := rest[consumed..];
      }
    }
  }
}
