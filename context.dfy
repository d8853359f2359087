/**
 * The conversational digest put beside search results
 * (`extraer_contexto_conversacional` in assistant.py): one short line per
 * recent user or assistant message.
 */
module Context {
  import opened Wrappers
  import opened Text
  import opened History

  /** The number of exchanges the callers ask for (the Python default). */
  const DefaultExchanges: nat := 3

  /** A user message that carries injected search data, as the extractor recognises it.
      The auto-search block's header is not among the markers. */
  predicate IsSearchData(content: string) {
    Contains(content, "=== WEB SEARCH DATA") || Contains(content, "=== SEARCH RESULTS")
  }

  /** A line that may stand for a search-data message: not blank and not a header. */
  predicate Qualifies(line: string) {
    Strip(line) != "" && !StartsWith(line, "===") && !StartsWith(line, "IMPORTANT")
    && !StartsWith(line, "CONTEXT")
  }

  /** Index of the first qualifying line. */
  function FirstQualifying(lines: seq<string>): (r: Option<nat>)
    ensures r.Some? ==> r.value < |lines| && Qualifies(lines[r.value])
    ensures r.Some? ==> forall j :: 0 <= j < r.value ==> !Qualifies(lines[j])
    ensures r.None? ==> forall j :: 0 <= j < |lines| ==> !Qualifies(lines[j])
  {
    if lines == [] then None
    else if Qualifies(lines[0]) then Some(0)
    else match FirstQualifying(lines[1..])
      case Some(k) =>
        assert forall j :: 1 <= j <= k ==> lines[j] == lines[1..][j - 1];
        Some(k + 1)
      case None =>
        assert forall j :: 1 <= j < |lines| ==> lines[j] == lines[1..][j - 1];
        None
  }

  /** What a user message contributes: for search data its first qualifying line
      cut to 100 characters, or the whole content untouched when there is none;
      otherwise its first 100 characters with line breaks flattened. */
  function UserText(content: string): string {
    if IsSearchData(content) then
      var lines := Split(content, '\n');
      match FirstQualifying(lines)
      case Some(k) => Take(lines[k], 100)
      case None => content
    else
      Flatten(Take(content, 100))
  }

  /** The digest line of one message; system messages have none. */
  function LineOf(m: Message): Option<string> {
    match m.role
    case System => None
    case User => Some("User: " + UserText(m.content) + "...")
    case Assistant => Some("Assistant: " + Flatten(Take(m.content, 100)) + "...")
  }

  /** The digest lines of `msgs`, oldest first. */
  function Lines(msgs: seq<Message>): seq<string> {
    if msgs == [] then []
    else
      var last := msgs[|msgs| - 1];
      Lines(msgs[..|msgs| - 1]) + (if LineOf(last).Some? then [LineOf(last).value] else [])
  }

  /** The messages the digest looks at: the last `2 * exchanges`, or all but
      index 0 when there are not more than that. */
  function Recent(history: seq<Message>, exchanges: nat): seq<Message>
    requires history != []
  {
    if |history| > 2 * exchanges then LastN(history, 2 * exchanges) else history[1..]
  }

  /** The digest itself: empty for a history of at most one message. */
  function Digest(history: seq<Message>, exchanges: nat): string {
    if |history| <= 1 then "" else Join(Lines(Recent(history, exchanges)), "\n")
  }

  /** What the loop of `extraer_contexto_conversacional` takes from one user
      message: the scan for the first qualifying line of search data. */
  method UserLine(content: string) returns (text: string)
    ensures text == UserText(content)
  {
    if Contains(content, "=== WEB SEARCH DATA") || Contains(content, "=== SEARCH RESULTS") {
      var lines := Split(content, '\n');
      text := content;
      var j := 0;
      while j < |lines|
        invariant 0 <= j <= |lines|
        invariant forall k :: 0 <= k < j ==> !Qualifies(lines[k])
        invariant text == content
      {
        if Qualifies(lines[j]) {
          text := Take(lines[j], 100);
          break;
        }
        j := j + 1;
      }
      assert text == UserText(content) by {
        if j < |lines| {
          var f := FirstQualifying(lines);
          assert f.Some? && f.value == j;
        }
      }
    } else {
      text := Flatten(Take(content, 100));
    }
  }

  /** The loop of `extraer_contexto_conversacional`. */
  method ExtractContext(messages: seq<Message>, exchanges: nat) returns (r: string)
    ensures r == Digest(messages, exchanges)
  {
    if |messages| <= 1 {
      return "";
    }
    var n := 2 * exchanges;
    var recent := if |messages| > n then LastN(messages, n) else messages[1..];
    assert recent == Recent(messages, exchanges);
    if recent == [] {
      return "";
    }
    var parts: seq<string> := [];
    for i := 0 to |recent|
      invariant parts == Lines(recent[..i])
    {
      var msg := recent[i];
      LinesSnoc(recent, i);
      if msg.role == User {
        var content := UserLine(msg.content);
        parts := parts + ["User: " + content + "..."];
      } else if msg.role == Assistant {
        var content := Flatten(Take(msg.content, 100));
        parts := parts + ["Assistant: " + content + "..."];
      }
    }
    assert recent[..|recent|] == recent;
    if parts != [] {
      r := Join(parts, "\n");
    } else {
      r := "";
    }
  }

  /** One more message adds its own line, if it has one, to the digest lines. */
  lemma LinesSnoc(msgs: seq<Message>, i: nat)
    requires i < |msgs|
    ensures Lines(msgs[..i + 1]) == Lines(msgs[..i]) + (if LineOf(msgs[i]).Some? then [LineOf(msgs[i]).value] else [])
  {
    assert msgs[..i + 1][..i] == msgs[..i];
  }

  /** Messages that produce a digest line: user and assistant messages. */
  predicate Speaks(m: Message) {
    m.role != System
  }

  /** The number of user and assistant messages in `msgs`. */
  function SpeakerCount(msgs: seq<Message>): nat {
    if msgs == [] then 0
    else SpeakerCount(msgs[..|msgs| - 1]) + (if Speaks(msgs[|msgs| - 1]) then 1 else 0)
  }

  /** Exactly the user and assistant messages produce lines, one each. */
  lemma {:induction false} LinesCount(msgs: seq<Message>)
    ensures |Lines(msgs)| == SpeakerCount(msgs)
    ensures Lines(msgs) == [] <==> forall i :: 0 <= i < |msgs| ==> !Speaks(msgs[i])
  {
    if msgs != [] {
      var init := msgs[..|msgs| - 1];
      LinesCount(init);
      if forall i :: 0 <= i < |msgs| ==> !Speaks(msgs[i]) {
        assert forall i :: 0 <= i < |init| ==> !Speaks(init[i]) by {
          forall i | 0 <= i < |init| ensures !Speaks(init[i]) {
            assert init[i] == msgs[i];
          }
        }
      } else if !Speaks(msgs[|msgs| - 1]) {
        var i :| 0 <= i < |msgs| && Speaks(msgs[i]);
        assert init[i] == msgs[i];
      }
    }
  }

  /** Every line starts with its role label. */
  lemma {:induction false} LinesLabelled(msgs: seq<Message>)
    ensures forall k :: 0 <= k < |Lines(msgs)| ==>
      StartsWith(Lines(msgs)[k], "User: ") || StartsWith(Lines(msgs)[k], "Assistant: ")
  {
    if msgs != [] {
      var last := msgs[|msgs| - 1];
      LinesLabelled(msgs[..|msgs| - 1]);
      var line := LineOf(last);
      if line.Some? {
        assert StartsWith(line.value, "User: ") || StartsWith(line.value, "Assistant: ") by {
          if last.role == User {
            assert line.value[..6] == "User: ";
          } else {
            assert line.value[..11] == "Assistant: ";
          }
        }
      }
    }
  }

  /** Joining non-empty parts gives the empty text exactly when there are no parts. */
  lemma {:induction false} JoinEmptyIff(parts: seq<string>, sep: string)
    requires forall k :: 0 <= k < |parts| ==> parts[k] != ""
    ensures Join(parts, sep) == "" <==> parts == []
  {
    if |parts| > 1 {
      assert |Join(parts, sep)| >= |parts[0]|;
    }
  }

  /** The digest is empty exactly when the history is at most the system message or
      the messages it looks at contain no user or assistant message; callers
      read an empty digest as "no context". */
  lemma DigestEmptyIff(history: seq<Message>, exchanges: nat)
    ensures Digest(history, exchanges) == "" <==>
      |history| <= 1 || forall i :: 0 <= i < |Recent(history, exchanges)| ==> !Speaks(Recent(history, exchanges)[i])
  {
    if |history| > 1 {
      var lines := Lines(Recent(history, exchanges));
      LinesCount(Recent(history, exchanges));
      LinesLabelled(Recent(history, exchanges));
      forall k | 0 <= k < |lines| ensures lines[k] != "" {
        assert StartsWith(lines[k], "User: ") || StartsWith(lines[k], "Assistant: ");
      }
      JoinEmptyIff(lines, "\n");
    }
  }

  /** The shape of an assistant line, and of a user line without search data:
      the first 100 characters of the content with each line break replaced by
      a space, between the role label and "...". */
  lemma PlainLineShape(m: Message)
    requires m.role == Assistant || (m.role == User && !IsSearchData(m.content))
    ensures var tag := if m.role == User then "User: " else "Assistant: ";
      exists t ::
        && LineOf(m) == Some(tag + t + "...")
        && |t| == (if |m.content| < 100 then |m.content| else 100)
        && '\n' !in t
        && forall i :: 0 <= i < |t| ==> t[i] == (if m.content[i] == '\n' then ' ' else m.content[i])
  {
    var t := Flatten(Take(m.content, 100));
    assert forall i :: 0 <= i < |t| ==> Take(m.content, 100)[i] == m.content[i];
    assert LineOf(m) == Some((if m.role == User then "User: " else "Assistant: ") + t + "...");
  }

  /** The shape of a user line with search data: the first qualifying line of
      the content cut to 100 characters, or, when no line qualifies, the whole content,
      line breaks included. */
  lemma SearchLineShape(m: Message)
    requires m.role == User && IsSearchData(m.content)
    ensures exists t ::
      LineOf(m) == Some("User: " + t + "...") &&
      ((exists k :: 0 <= k < |Split(m.content, '\n')| && Qualifies(Split(m.content, '\n')[k])
                    && (forall j :: 0 <= j < k ==> !Qualifies(Split(m.content, '\n')[j]))
                    && t == Take(Split(m.content, '\n')[k], 100) && '\n' !in t)
       || ((forall k :: 0 <= k < |Split(m.content, '\n')| ==> !Qualifies(Split(m.content, '\n')[k]))
           && t == m.content))
  {
    var lines := Split(m.content, '\n');
    var t := UserText(m.content);
    assert LineOf(m) == Some("User: " + t + "...");
    match FirstQualifying(lines)
    case Some(k) =>
      assert '\n' !in lines[k];
      assert t == Take(lines[k], 100);
      assert '\n' !in t by {
        forall i | 0 <= i < |t| ensures t[i] != '\n' {
          assert t[i] == lines[k][i];
        }
      }
    case None =>
  }
}
