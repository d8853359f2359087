/**
 * The model menu of `cambiar_modelo` in assistant.py, reached by the `model`
 * (or `switch`) command. It reads its answers from the same input as the
 * chat prompt, one line at a time, until a line settles it.
 */
module Menus {
  import opened Wrappers
  import opened Text

  /** `int(choice)` on a stripped line: an optional sign followed by decimal digits. */
  function ParseInt(s: string): (r: Option<int>)
    ensures r.Some? ==> s != []
    ensures r.Some? ==> s[0] in "+-0123456789" && forall k :: 0 < k < |s| ==> '0' <= s[k] <= '9'
  {
    var signed := s != [] && (s[0] == '+' || s[0] == '-');
    var digits := if signed then s[1..] else s;
    if digits != [] && forall k :: 0 <= k < |digits| ==> '0' <= digits[k] <= '9' then
      Some(if signed && s[0] == '-' then -(DigitsValue(digits) as int) else DigitsValue(digits))
    else None
  }

  /** Parsing the decimal rendering of a number gives the number back. */
  lemma ParseDecimal(n: nat)
    ensures ParseInt(Decimal(n)) == Some(n)
  {
    var s := Decimal(n);
    DecimalRoundTrip(n);
    assert '0' <= s[0] <= '9';
  }

  /** What one line typed at the menu means: an empty line cancels, a number
      from 1 to `n` picks that entry, and anything else asks again. */
  datatype Choice = Cancel | Pick(index: nat) | Again

  function ChoiceOf(line: string, n: nat): (c: Choice)
    ensures c.Pick? ==> c.index < n
    ensures c.Cancel? <==> Strip(line) == ""
  {
    var choice := Strip(line);
    if choice == "" then Cancel
    else
      match ParseInt(choice)
      case Some(k) => if 1 <= k <= n then Pick(k - 1) else Again
      case None => Again
  }

  /** Typing the number of an entry, from 1 to `n`, picks that entry. */
  lemma TypedNumberPicks(k: nat, n: nat)
    requires 1 <= k <= n
    ensures ChoiceOf(Decimal(k), n) == Pick(k - 1)
  {
    StripUnchanged(Decimal(k));
    ParseDecimal(k);
  }

  /** Index of the first line from `from` on that settles the menu, or `None`
      when every such line makes it ask again. */
  function FirstSettled(lines: seq<string>, n: nat, from: nat): (r: Option<nat>)
    requires from <= |lines|
    ensures r.Some? ==> from <= r.value < |lines| && !ChoiceOf(lines[r.value], n).Again?
    ensures r.Some? ==> forall j :: from <= j < r.value ==> ChoiceOf(lines[j], n).Again?
    ensures r.None? ==> forall j :: from <= j < |lines| ==> ChoiceOf(lines[j], n).Again?
    decreases |lines| - from
  {
    if from == |lines| then None
    else if !ChoiceOf(lines[from], n).Again? then Some(from)
    else FirstSettled(lines, n, from + 1)
  }

  /** The first settling line is the one before which every line asks again. */
  lemma FirstSettledAt(lines: seq<string>, n: nat, i: nat)
    requires i < |lines| && !ChoiceOf(lines[i], n).Again?
    requires forall j :: 0 <= j < i ==> ChoiceOf(lines[j], n).Again?
    ensures FirstSettled(lines, n, 0) == Some(i)
  {
  }

  /** How the menu ends: the model in use afterwards and the lines it read. */
  datatype MenuEnd = MenuEnd(model: string, used: nat)

  /** The menu: with no installed models it keeps the current one and reads
      nothing; otherwise the first line that settles it decides. `None` is the
      end of input inside the menu, an `EOFError` the menu does not catch. */
  function ChangeModelSpec(current: string, models: seq<string>, lines: seq<string>): Option<MenuEnd> {
    if models == [] then Some(MenuEnd(current, 0))
    else
      match FirstSettled(lines, |models|, 0)
      case None => None
      case Some(i) =>
        match ChoiceOf(lines[i], |models|)
        case Pick(k) => Some(MenuEnd(models[k], i + 1))
        case _ => Some(MenuEnd(current, i + 1))
  }

  /** The `while True` loop of the menu. */
  method ChangeModel(current: string, models: seq<string>, lines: seq<string>) returns (r: Option<MenuEnd>)
    ensures r == ChangeModelSpec(current, models, lines)
  {
    if models == [] {
      return Some(MenuEnd(current, 0));
    }
    var i := 0;
    while i < |lines|
      invariant 0 <= i <= |lines|
      invariant forall j :: 0 <= j < i ==> ChoiceOf(lines[j], |models|).Again?
    {
      var choice := ChoiceOf(lines[i], |models|);
      if !choice.Again? {
        FirstSettledAt(lines, |models|, i);
      }
      match choice
      case Cancel =>
        return Some(MenuEnd(current, i + 1));
      case Pick(k) =>
        return Some(MenuEnd(models[k], i + 1));
      case Again =>
      i := i + 1;
    }
    return None;
  }

  /** The menu ends on the current model or an installed one, having read at
      least one line when there was a menu; it runs out of input exactly when
      every line makes it ask again. */
  lemma ChangeModelShape(current: string, models: seq<string>, lines: seq<string>)
    ensures var r := ChangeModelSpec(current, models, lines);
      && (r.None? <==> models != [] && forall j :: 0 <= j < |lines| ==> ChoiceOf(lines[j], |models|).Again?)
      && (r.Some? ==> r.value.used <= |lines| && (models != [] <==> r.value.used >= 1))
      && (r.Some? ==> r.value.model == current || r.value.model in models)
  {
    var r := ChangeModelSpec(current, models, lines);
    if models != [] {
      var f := FirstSettled(lines, |models|, 0);
      if f.Some? {
        assert !ChoiceOf(lines[f.value], |models|).Again?;
      }
    }
  }

  /** An empty line cancels: the model stays and one line is read. */
  lemma EmptyLineCancels(current: string, models: seq<string>, lines: seq<string>)
    requires models != [] && lines != [] && Strip(lines[0]) == ""
    ensures ChangeModelSpec(current, models, lines) == Some(MenuEnd(current, 1))
  {
    FirstSettledAt(lines, |models|, 0);
  }

  /** Invalid answers are skipped: typing `0` and then `2` with two models
      installed picks the second one after reading both lines. */
  lemma SecondModelAfterInvalid(current: string, models: seq<string>, lines: seq<string>)
    requires |models| == 2 && |lines| >= 2 && lines[0] == "0" && lines[1] == "2"
    ensures ChangeModelSpec(current, models, lines) == Some(MenuEnd(models[1], 2))
  {
    SettlesOnSecond(lines);
    PickedAt(current, models, lines, 1, 1);
  }

  /** With two models, `0` asks again and `2` then settles the menu on the second. */
  lemma SettlesOnSecond(lines: seq<string>)
    requires |lines| >= 2 && lines[0] == "0" && lines[1] == "2"
    ensures FirstSettled(lines, 2, 0) == Some(1) && ChoiceOf(lines[1], 2) == Pick(1)
  {
    ZeroAsksAgain(lines[0], 2);
    TwoPicksSecond(lines[1], 2);
    SecondSettles(lines, 2);
  }

  /** When the first line asks again and the second does not, the second settles the menu. */
  lemma SecondSettles(lines: seq<string>, n: nat)
    requires |lines| >= 2 && ChoiceOf(lines[0], n).Again? && !ChoiceOf(lines[1], n).Again?
    ensures FirstSettled(lines, n, 0) == Some(1)
  {
    FirstSettledAt(lines, n, 1);
  }

  /** `0` is never an entry of the menu. */
  lemma ZeroAsksAgain(line: string, n: nat)
    requires line == "0"
    ensures ChoiceOf(line, n) == Again
  {
    PlainTextUnchanged("0");
    assert DigitsValue("0") == 0;
  }

  /** `2` picks the second entry once there are two. */
  lemma TwoPicksSecond(line: string, n: nat)
    requires line == "2" && 2 <= n
    ensures ChoiceOf(line, n) == Pick(1)
  {
    PlainTextUnchanged("2");
    assert DigitsValue("2") == 2;
  }

  /** The menu ends on the entry picked by its first settling line. */
  lemma PickedAt(current: string, models: seq<string>, lines: seq<string>, i: nat, k: nat)
    requires models != [] && FirstSettled(lines, |models|, 0) == Some(i)
    requires ChoiceOf(lines[i], |models|) == Pick(k)
    ensures ChangeModelSpec(current, models, lines) == Some(MenuEnd(models[k], i + 1))
  {
  }
}
