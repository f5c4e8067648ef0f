/** `juju_spell/cli/utils.py`: the command line's comma-separated lists,
    its yes/no confirmation loop and the check of a filter argument. */
module CliUtils {
  import opened Common
  import opened Strings

  // ---------------------------------------------------------------------
  // parse_comma_separated_str
  // ---------------------------------------------------------------------

  /** The non-empty pieces, each stripped; a piece of blanks only is kept
      and becomes empty, since it is tested before it is stripped. */
  function StrippedPieces(pieces: seq<string>): (r: seq<string>)
    ensures |r| <= |pieces|
    decreases |pieces|
  {
    if |pieces| == 0 then []
    else (if pieces[0] != "" then [Strip(pieces[0])] else []) + StrippedPieces(pieces[1..])
  }

  /** `parse_comma_separated_str`. */
  function ParseCommaSeparatedStr(s: string): seq<string>
  {
    StrippedPieces(Split(s, ','))
  }

  /** No item of the list holds a comma, and there are no more items than
      pieces between commas. */
  lemma {:induction false} ParsedPieces(pieces: seq<string>)
    requires forall i | 0 <= i < |pieces| :: ',' !in pieces[i]
    ensures forall i | 0 <= i < |StrippedPieces(pieces)| :: ',' !in StrippedPieces(pieces)[i]
    decreases |pieces|
  {
    if |pieces| > 0 {
      ParsedPieces(pieces[1..]);
      var head := pieces[0];
      if head != "" {
        StripInside(head);
      }
    }
  }

  /** What strip leaves is a part of the string. */
  lemma StripInside(s: string)
    ensures forall c | c in Strip(s) :: c in s
  {
    var l := LStrip(s, Whitespace);
    assert forall c | c in l :: c in s;
  }

  /** Every item of the parsed list is free of commas. */
  lemma ParsedNoComma(s: string)
    ensures forall i | 0 <= i < |ParseCommaSeparatedStr(s)| :: ',' !in ParseCommaSeparatedStr(s)[i]
  {
    ParsedPieces(Split(s, ','));
  }

  /** Splitting what was joined gives the pieces back. */
  lemma {:induction false} SplitJoin(items: seq<string>, sep: char)
    requires |items| >= 1
    requires forall i | 0 <= i < |items| :: sep !in items[i]
    ensures Split(Join(items, [sep]), sep) == items
    decreases |items|
  {
    if |items| == 1 {
      SplitNoSep(items[0], sep);
    } else {
      SplitJoin(items[1..], sep);
      SplitCons(items[0], sep, Join(items[1..], [sep]));
      assert [items[0]] + items[1..] == items;
    }
  }

  /** Items without commas, blanks at their ends or empty ones are read
      back from their comma-separated form. */
  lemma {:induction false} ParseJoined(items: seq<string>)
    requires forall i | 0 <= i < |items| ::
      items[i] != "" && ',' !in items[i] && items[i][0] !in Whitespace && items[i][|items[i]| - 1] !in Whitespace
    ensures ParseCommaSeparatedStr(Join(items, ",")) == items
  {
    if |items| == 0 {
      assert Split("", ',') == [""];
    } else {
      SplitJoin(items, ',');
      KeptAsTheyAre(items);
    }
  }

  lemma {:induction false} KeptAsTheyAre(items: seq<string>)
    requires forall i | 0 <= i < |items| ::
      items[i] != "" && items[i][0] !in Whitespace && items[i][|items[i]| - 1] !in Whitespace
    ensures StrippedPieces(items) == items
    decreases |items|
  {
    if |items| > 0 {
      KeptAsTheyAre(items[1..]);
      StripCharsKeeps(items[0], Whitespace);
      assert [items[0]] + items[1..] == items;
    }
  }

  // ---------------------------------------------------------------------
  // confirm
  // ---------------------------------------------------------------------

  const NO_TERMINAL: Error := JujuSpellError(
    "Could not confirm without terminal session. Please use `--no-confirm` orrun in virtual terminal session.")
  const ABORTED: Error := Abort("Aborted by user")

  /** The question as it is put to the user. */
  function Prompt(text: string, default: bool, suffix: string): string
  {
    text + "[" + (if default then "Y/n" else "N/y") + "]" + suffix
  }

  /** What one answer decides: the default for an empty answer, yes or
      no (an abort when asked to), or nothing for anything else. */
  function Decision(answer: string, default: bool, abort: bool): Option<Try<bool>>
  {
    if answer == "" then Some(Ok(default))
    else if answer == "y" || answer == "yes" then Some(Ok(true))
    else if (answer == "n" || answer == "no") && abort then Some(Raise(ABORTED))
    else if answer == "n" || answer == "no" then Some(Ok(false))
    else None
  }

  /** `_get_value_from_prompt`: the line the user typed, stripped; None
      stands for an interrupt or the end of the input, which abort. */
  function GetValueFromPrompt(line: Option<string>): (r: Try<string>)
    ensures r.Raise? <==> line.None?
    ensures r.Raise? ==> r.error == ABORTED
    ensures r.Ok? ==> |r.value| <= |line.value|
    ensures r.Ok? && |r.value| > 0 ==> r.value[0] !in Whitespace && r.value[|r.value| - 1] !in Whitespace
  {
    if line.None? then Raise(ABORTED) else Ok(Strip(line.value))
  }

  /** The replies `_get_value_from_prompt` gives to the typed lines. */
  function Replies(typed: seq<Option<string>>): (r: seq<Try<string>>)
    ensures |r| == |typed|
  {
    seq(|typed|, i requires 0 <= i < |typed| => GetValueFromPrompt(typed[i]))
  }

  /** The outcome of asking from the `k`-th reply on, and how many times
      the question was asked. Running out of replies is the end of the
      input, which aborts. */
  function ConfirmFrom(replies: seq<Try<string>>, k: nat, default: bool, abort: bool): (Try<bool>, nat)
    decreases |replies| - k
  {
    if k >= |replies| then (Raise(ABORTED), 1)
    else if replies[k].Raise? then (Raise(replies[k].error), 1)
    else
      match Decision(Lower(replies[k].value), default, abort)
      case Some(d) => (d, 1)
      case None =>
        var rest := ConfirmFrom(replies, k + 1, default, abort);
        (rest.0, rest.1 + 1)
  }

  /** `confirm`: without a terminal it raises at once; otherwise it asks
      until an answer decides. `replies` are the successive replies of
      `_get_value_from_prompt` (see `Replies`). Returns the outcome and the
      prompts shown. */
  method Confirm(isatty: bool, replies: seq<Try<string>>, text: string, default: bool, abort: bool,
                 suffix: string)
    returns (r: Try<bool>, prompts: seq<string>)
    ensures !isatty ==> r == Raise(NO_TERMINAL) && prompts == []
    ensures isatty ==>
      (r, |prompts|) == ConfirmFrom(replies, 0, default, abort) &&
      forall i | 0 <= i < |prompts| :: prompts[i] == Prompt(text, default, suffix)
  {
    prompts := [];
    if !isatty {
      return Raise(NO_TERMINAL), prompts;
    }
    var prompt := Prompt(text, default, suffix);
    var k := 0;
    while true
      invariant k == |prompts|
      invariant forall i | 0 <= i < |prompts| :: prompts[i] == prompt
      invariant var rest := ConfirmFrom(replies, k, default, abort);
        ConfirmFrom(replies, 0, default, abort) == (rest.0, rest.1 + k)
      decreases |replies| - k
    {
      prompts := prompts + [prompt];
      var reply := if k < |replies| then replies[k] else Raise(ABORTED);
      if reply.Raise? {
        return Raise(reply.error), prompts;
      }
      var value := Lower(reply.value);
      if value == "" {
        return Ok(default), prompts;
      } else if value == "y" || value == "yes" {
        return Ok(true), prompts;
      } else if (value == "n" || value == "no") && abort {
        return Raise(ABORTED), prompts;
      } else if value == "n" || value == "no" {
        return Ok(false), prompts;
      }
      k := k + 1;
    }
  }

  /** Replies that decide nothing are asked again: the first reply that
      decides gives the outcome, after one prompt per reply up to it. */
  lemma {:induction false} ConfirmFirstDecision(replies: seq<Try<string>>, k: nat, default: bool, abort: bool)
    requires k < |replies| && replies[k].Ok? && Decision(Lower(replies[k].value), default, abort).Some?
    requires forall i | 0 <= i < k :: replies[i].Ok? && Decision(Lower(replies[i].value), default, abort).None?
    ensures ConfirmFrom(replies, 0, default, abort) == (Decision(Lower(replies[k].value), default, abort).value, k + 1)
  {
    var j := k;
    while j > 0
      invariant 0 <= j <= k
      invariant ConfirmFrom(replies, j, default, abort) == (Decision(Lower(replies[k].value), default, abort).value, k + 1 - j)
    {
      j := j - 1;
    }
  }

  /** Without a deciding reply the user is asked once per reply and once
      more, and the end of the input aborts. */
  lemma {:induction false} ConfirmNoDecision(replies: seq<Try<string>>, default: bool, abort: bool)
    requires forall i | 0 <= i < |replies| :: replies[i].Ok? && Decision(Lower(replies[i].value), default, abort).None?
    ensures ConfirmFrom(replies, 0, default, abort) == (Raise(ABORTED), |replies| + 1)
  {
    var j := |replies|;
    while j > 0
      invariant 0 <= j <= |replies|
      invariant ConfirmFrom(replies, j, default, abort) == (Raise(ABORTED), |replies| + 1 - j)
    {
      j := j - 1;
    }
  }

  /** An empty answer takes the default, a yes is true, and a no is false
      unless it aborts; anything else is asked again. */
  lemma Answers(default: bool, abort: bool, other: string)
    requires other !in {"", "y", "yes", "n", "no"}
    ensures Decision("", default, abort) == Some(Ok(default))
    ensures Decision("y", default, abort) == Some(Ok(true)) && Decision("yes", default, abort) == Some(Ok(true))
    ensures Decision("n", default, abort) == Some(if abort then Raise(ABORTED) else Ok(false))
    ensures Decision("no", default, abort) == Decision("n", default, abort)
    ensures Decision(other, default, abort).None?
  {
  }

  // ---------------------------------------------------------------------
  // parse_filter
  // ---------------------------------------------------------------------

  /** `parse_filter`: `found` is whether the filter expression pattern
      finds anything in `value`; an empty value passes too. */
  function ParseFilter(value: string, found: bool): (r: Try<string>)
    ensures r.Ok? <==> found || |value| == 0
    ensures r.Ok? ==> r.value == value
    ensures r.Raise? ==> r.error == ArgumentTypeError("Argument filter format wrong: " + value)
  {
    if !(found || |value| == 0) then Raise(ArgumentTypeError("Argument filter format wrong: " + value))
    else Ok(value)
  }
}
