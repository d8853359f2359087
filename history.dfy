/**
 * Chat messages and the sliding window that bounds the history sent to the
 * model (`aplicar_sliding_window` in assistant.py).
 */
module History {

  datatype Role = System | User | Assistant

  /** One entry of the `messages` list: `{"role": ..., "content": ...}`. */
  datatype Message = Message(role: Role, content: string)

  /** Python's `s[-k:]`. A zero `k` reads as `s[0:]`, the whole list, and a `k`
      beyond the length also yields the whole list. */
  function LastN<T>(s: seq<T>, k: nat): (r: seq<T>)
    ensures |r| <= |s| && r == s[|s| - |r|..]
    ensures 0 < k <= |s| ==> |r| == k
    ensures k == 0 || k >= |s| ==> r == s
  {
    if k == 0 || k >= |s| then s else s[|s| - k..]
  }

  /** Keeps the message at index 0 and the last `max` messages once the list
      has more than `max + 1` entries. A `max` of zero turns `messages[-0:]`
      into the whole list, so the head is then duplicated instead. */
  function SlidingWindow(messages: seq<Message>, max: nat): (r: seq<Message>)
    ensures |messages| <= max + 1 ==> r == messages
    ensures |messages| > max + 1 ==> r != [] && r[0] == messages[0]
    ensures |messages| > max + 1 && max > 0 ==>
      |r| == max + 1 && forall i :: 1 <= i <= max ==> r[i] == messages[|messages| - 1 - max + i]
    ensures |messages| > max + 1 && max == 0 ==> r[1..] == messages
  {
    if |messages| <= max + 1 then messages else [messages[0]] + LastN(messages, max)
  }

  /** With a positive window the result never exceeds `max + 1` messages, keeps
      the first and the last message, and a second application changes nothing. */
  lemma SlidingWindowBounded(messages: seq<Message>, max: nat)
    requires max > 0 && messages != []
    ensures var r := SlidingWindow(messages, max);
      && |r| <= max + 1
      && r[0] == messages[0]
      && r[|r| - 1] == messages[|messages| - 1]
      && SlidingWindow(r, max) == r
  {
    var r := SlidingWindow(messages, max);
    if |messages| > max + 1 {
      assert r[max] == messages[|messages| - 1];
    }
  }

  /** The result is the input with one contiguous run of old messages cut out
      right after index 0: nothing is reordered or invented. */
  lemma {:induction false} SlidingWindowIsCut(messages: seq<Message>, max: nat)
    requires max > 0 && messages != []
    ensures exists cut ::
      1 <= cut <= |messages| && SlidingWindow(messages, max) == messages[..1] + messages[cut..]
  {
    var r := SlidingWindow(messages, max);
    if |messages| <= max + 1 {
      assert r == messages[..1] + messages[1..];
    } else {
      var cut := |messages| - max;
      assert r == [messages[0]] + messages[cut..];
      assert messages[..1] == [messages[0]];
    }
  }

  /** A window of zero lets the list grow: the head is written twice. */
  lemma ZeroWindowDuplicatesHead(messages: seq<Message>)
    requires |messages| >= 2
    ensures var r := SlidingWindow(messages, 0);
      |r| == |messages| + 1 && r[0] == messages[0] && r[1] == messages[0]
  {
    assert SlidingWindow(messages, 0)[1..] == messages;
  }

  /** Index 0 holds the system prompt and no other message is a system message. */
  ghost predicate SystemHeaded(messages: seq<Message>, prompt: string) {
    && messages != []
    && messages[0] == Message(System, prompt)
    && forall i :: 1 <= i < |messages| ==> messages[i].role != System
  }

  /** A positive window keeps the system prompt at the head and the rest free of
      system messages; with a zero window the second copy breaks that shape. */
  lemma SlidingWindowKeepsSystemHead(messages: seq<Message>, max: nat, prompt: string)
    requires SystemHeaded(messages, prompt)
    ensures max > 0 ==> SystemHeaded(SlidingWindow(messages, max), prompt)
    ensures max == 0 && |messages| >= 2 ==> !SystemHeaded(SlidingWindow(messages, max), prompt)
  {
    var r := SlidingWindow(messages, max);
    if max == 0 && |messages| >= 2 {
      ZeroWindowDuplicatesHead(messages);
      assert r[1].role == System;
    }
  }

  /** Twenty-five messages through a window of twenty leave twenty-one: the head
      and the last twenty. */
  lemma SlidingWindowTwentyFive(messages: seq<Message>)
    requires |messages| == 25
    ensures SlidingWindow(messages, 20) == [messages[0]] + messages[5..]
    ensures |SlidingWindow(messages, 20)| == 21
  {
  }
}
