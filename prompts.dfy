/**
 * Prompt construction for the debate: literal `{{KEY}}` substitution
 * (`render_prompt`), the transcript a judge reads (`merge_responses`) and the
 * opponent context injected into a debater's next prompt
 * (`build_opponent_variables`).
 */
module Prompts {
  import opened Wrappers
  import opened Text

  /** A template variable; a Python dict of variables is a sequence of these in insertion order. */
  type Binding = (string, string)

  /** The text `{{KEY}}` that stands for variable `key` in a template. */
  function Placeholder(key: string): (p: string)
    ensures |p| == |key| + 4 && p[..2] == "{{" && p[|p| - 2..] == "}}"
    ensures p[2..|p| - 2] == key
  {
    "{{" + key + "}}"
  }

  // ---------------------------------------------------------------------------
  // str.replace(old, new): every non-overlapping occurrence, left to right
  // ---------------------------------------------------------------------------

  function ReplaceAll(s: string, pattern: string, replacement: string): string
    requires |pattern| > 0
    decreases |s|
  {
    if |s| < |pattern| then s
    else if s[..|pattern|] == pattern then replacement + ReplaceAll(s[|pattern|..], pattern, replacement)
    else [s[0]] + ReplaceAll(s[1..], pattern, replacement)
  }

  /** The number of occurrences `ReplaceAll` replaces. */
  function CountOccurrences(s: string, pattern: string): nat
    requires |pattern| > 0
    decreases |s|
  {
    if |s| < |pattern| then 0
    else if s[..|pattern|] == pattern then 1 + CountOccurrences(s[|pattern|..], pattern)
    else CountOccurrences(s[1..], pattern)
  }

  /** Each replaced occurrence changes the length by `|replacement| - |pattern|`. */
  lemma {:induction false} ReplaceAllLength(s: string, pattern: string, replacement: string)
    requires |pattern| > 0
    ensures |ReplaceAll(s, pattern, replacement)|
         == |s| + CountOccurrences(s, pattern) * (|replacement| - |pattern|)
    decreases |s|
  {
    if |s| >= |pattern| {
      var d := |replacement| - |pattern|;
      if s[..|pattern|] == pattern {
        var rest := s[|pattern|..];
        ReplaceAllLength(rest, pattern, replacement);
        var c := CountOccurrences(rest, pattern);
        var r := ReplaceAll(rest, pattern, replacement);
        assert |r| == |rest| + c * d;
        assert ReplaceAll(s, pattern, replacement) == replacement + r;
        assert CountOccurrences(s, pattern) == c + 1;
        MulSucc(c, d);
      } else {
        ReplaceAllLength(s[1..], pattern, replacement);
        assert ReplaceAll(s, pattern, replacement) == [s[0]] + ReplaceAll(s[1..], pattern, replacement);
        assert CountOccurrences(s, pattern) == CountOccurrences(s[1..], pattern);
      }
    }
  }

  lemma MulSucc(c: int, d: int)
    ensures (c + 1) * d == c * d + d
  {
  }

  /** A text in which `pattern` does not occur is left unchanged. */
  lemma {:induction false} ReplaceAllAbsent(s: string, pattern: string, replacement: string)
    requires |pattern| > 0 && !Occurs(s, pattern)
    ensures ReplaceAll(s, pattern, replacement) == s
    decreases |s|
  {
    if |s| >= |pattern| {
      assert !OccursAt(s, pattern, 0);
      forall i ensures !OccursAt(s[1..], pattern, i) {
        OccursInTail(s, pattern, i);
      }
      ReplaceAllAbsent(s[1..], pattern, replacement);
      assert [s[0]] + s[1..] == s;
    }
  }

  lemma OccursInTail(s: string, pattern: string, i: int)
    requires s != []
    ensures OccursAt(s[1..], pattern, i) ==> OccursAt(s, pattern, i + 1)
  {
    if 0 <= i && i + |pattern| <= |s| - 1 {
      assert s[1..][i..i + |pattern|] == s[i + 1..i + 1 + |pattern|];
    }
  }

  /** Replacing a text by itself changes nothing. */
  lemma {:induction false} ReplaceAllBySelf(s: string, pattern: string)
    requires |pattern| > 0
    ensures ReplaceAll(s, pattern, pattern) == s
    decreases |s|
  {
    if |s| >= |pattern| {
      if s[..|pattern|] == pattern {
        ReplaceAllBySelf(s[|pattern|..], pattern);
        assert s[..|pattern|] + s[|pattern|..] == s;
      } else {
        ReplaceAllBySelf(s[1..], pattern);
        assert [s[0]] + s[1..] == s;
      }
    }
  }

  // ---------------------------------------------------------------------------
  // render_prompt
  // ---------------------------------------------------------------------------

  /** The template after substituting the variables one after the other, in order. */
  function Rendered(template: string, vars: seq<Binding>): string {
    if vars == [] then template
    else
      var last := vars[|vars| - 1];
      ReplaceAll(Rendered(template, vars[..|vars| - 1]), Placeholder(last.0), last.1)
  }

  /** `render_prompt`: rebinds the result once per variable, in insertion order. */
  method RenderPrompt(template: string, vars: seq<Binding>) returns (result: string)
    ensures result == Rendered(template, vars)
  {
    result := template;
    for i := 0 to |vars|
      invariant result == Rendered(template, vars[..i])
    {
      var (key, value) := vars[i];
      assert vars[..i + 1][..i] == vars[..i];
      result := ReplaceAll(result, Placeholder(key), value);
    }
    assert vars[..|vars|] == vars;
  }

  /** A template mentioning none of the variables' placeholders is returned unchanged. */
  lemma {:induction false} RenderWithoutPlaceholders(template: string, vars: seq<Binding>)
    requires forall k :: 0 <= k < |vars| ==> !Occurs(template, Placeholder(vars[k].0))
    ensures Rendered(template, vars) == template
  {
    if vars != [] {
      var n := |vars| - 1;
      RenderWithoutPlaceholders(template, vars[..n]);
      ReplaceAllAbsent(template, Placeholder(vars[n].0), vars[n].1);
    }
  }

  /** A template that is exactly one placeholder becomes that variable's value. */
  lemma RenderSinglePlaceholder(key: string, value: string)
    ensures Rendered(Placeholder(key), [(key, value)]) == value
  {
    var p := Placeholder(key);
    assert [(key, value)][..0] == [];
    assert p[..|p|] == p && p[|p|..] == [];
    assert ReplaceAll(p, p, value) == value + ReplaceAll([], p, value);
  }

  // ---------------------------------------------------------------------------
  // merge_responses
  // ---------------------------------------------------------------------------

  /** `f"Round {n}:\n{content}"` */
  function RoundBlock(n: nat, content: string): string {
    "Round " + NatToString(n) + ":\n" + content
  }

  function RoundBlocks(contents: seq<string>): (blocks: seq<string>)
    ensures |blocks| == |contents|
    ensures forall k :: 0 <= k < |contents| ==> blocks[k] == RoundBlock(k + 1, contents[k])
  {
    seq(|contents|, k requires 0 <= k < |contents| => RoundBlock(k + 1, contents[k]))
  }

  /** `merge_responses`: a side's whole transcript as one text, one numbered block per round. */
  function MergeResponses(contents: seq<string>): (merged: string)
    ensures merged == "" <==> contents == []
    ensures |contents| == 1 ==> merged == RoundBlock(1, contents[0])
  {
    Join(RoundBlocks(contents), "\n\n")
  }

  /** A further round adds a blank line and that round's numbered block at the end. */
  lemma MergeSnoc(contents: seq<string>, x: string)
    requires contents != []
    ensures MergeResponses(contents + [x]) == MergeResponses(contents) + "\n\n" + RoundBlock(|contents| + 1, x)
  {
    assert RoundBlocks(contents + [x]) == RoundBlocks(contents) + [RoundBlock(|contents| + 1, x)];
    JoinSnoc(RoundBlocks(contents), "\n\n", RoundBlock(|contents| + 1, x));
  }

  /** Every round of a side appears in its merged transcript under its 1-based number. */
  lemma MergeShowsEveryRound(contents: seq<string>, k: nat)
    requires k < |contents|
    ensures Occurs(MergeResponses(contents), RoundBlock(k + 1, contents[k]))
  {
    JoinContainsPart(RoundBlocks(contents), "\n\n", k);
  }

  // ---------------------------------------------------------------------------
  // build_opponent_variables
  // ---------------------------------------------------------------------------

  /** `f"{label}_ROUND_{n}"` */
  function OpponentKey(opponentLabel: string, n: nat): string {
    opponentLabel + "_ROUND_" + NatToString(n)
  }

  /**
   * The opponent context for round `roundIndex`: at most one binding, to the
   * opponent's previous round, and none in round 1 or when that round is missing.
   */
  function OpponentVariables(roundIndex: int, opponentHistory: seq<string>, opponentLabel: string)
    : (r: seq<Binding>)
    ensures |r| <= 1
    ensures r == [] <==> roundIndex <= 1 || roundIndex - 2 >= |opponentHistory|
    ensures r != [] ==> r[0] == (OpponentKey(opponentLabel, roundIndex - 1), opponentHistory[roundIndex - 2])
  {
    if roundIndex <= 1 then []
    else if roundIndex - 2 >= |opponentHistory| then []
    else [(OpponentKey(opponentLabel, roundIndex - 1), opponentHistory[roundIndex - 2])]
  }

  /**
   * A side never sees the opponent's current round: even when the opponent has
   * already answered round `i` (B's turn), the value bound is round `i - 1`.
   */
  lemma OpponentIsOneRoundBehind(i: int, opponentHistory: seq<string>, opponentLabel: string)
    requires 2 <= i <= |opponentHistory| + 1
    ensures OpponentVariables(i, opponentHistory, opponentLabel)
         == [(OpponentKey(opponentLabel, i - 1), opponentHistory[i - 2])]
    ensures |opponentHistory| >= i ==>
              (OpponentVariables(i, opponentHistory, opponentLabel)
               == OpponentVariables(i, opponentHistory[..i - 1], opponentLabel))
  {
  }

  /** The variables of a debater's round prompt: topic, conditions, then the opponent context. */
  function RoundVariables(topic: string, conditions: string, roundIndex: int,
                          opponentHistory: seq<string>, opponentLabel: string): (vars: seq<Binding>)
    ensures 2 <= |vars| <= 3 && vars[0] == ("TOPIC", topic) && vars[1] == ("CONDITIONS", conditions)
    ensures |vars| == 3 <==> 2 <= roundIndex <= |opponentHistory| + 1
    ensures |vars| == 3 ==>
              vars[2].0 == OpponentKey(opponentLabel, roundIndex - 1) && vars[2].1 == opponentHistory[roundIndex - 2]
  {
    [("TOPIC", topic), ("CONDITIONS", conditions)]
      + OpponentVariables(roundIndex, opponentHistory, opponentLabel)
  }

  // ---------------------------------------------------------------------------
  // As written: a reply without content reaches `str.replace` as None
  // ---------------------------------------------------------------------------

  /**
   * The histories of the source keep each reply's raw content, which the
   * backend may leave as None; `build_opponent_variables` copies it as is.
   */
  function OpponentVariablesAsWritten(roundIndex: int, opponentHistory: seq<Option<string>>,
                                      opponentLabel: string): (r: seq<(string, Option<string>)>)
    ensures |r| <= 1
  {
    if roundIndex <= 1 then []
    else if roundIndex - 2 >= |opponentHistory| then []
    else [(OpponentKey(opponentLabel, roundIndex - 1), opponentHistory[roundIndex - 2])]
  }

  /** `render_prompt` on values that may be None: `str.replace(old, None)` raises TypeError. */
  function RenderAsWritten(template: string, vars: seq<(string, Option<string>)>)
    : (r: Result<string, Crash>)
    ensures r.Failure? <==> exists k :: 0 <= k < |vars| && vars[k].1.None?
  {
    if vars == [] then Success(template)
    else
      var last := vars[|vars| - 1];
      match RenderAsWritten(template, vars[..|vars| - 1])
      case Failure(e) => Failure(e)
      case Success(t) =>
        if last.1.None? then Failure(TypeError)
        else Success(ReplaceAll(t, Placeholder(last.0), last.1.value))
  }

  /** `result.get("content") or ""`: how the message thread and the rounds log store a reply. */
  function ContentOrEmpty(content: Option<string>): string {
    if content.Some? then content.value else ""
  }

  /**
   * Finding: when the opponent's round-1 reply has no content, rendering the
   * round-2 prompt raises TypeError and the whole debate is lost.
   */
  lemma MissingContentCrashesNextRound(template: string, topic: string, conditions: string)
    ensures RenderAsWritten(template,
              [("TOPIC", Some(topic)), ("CONDITIONS", Some(conditions))]
              + OpponentVariablesAsWritten(2, [None], "MODEL_B"))
         == Failure(TypeError)
  {
    var vars := [("TOPIC", Some(topic)), ("CONDITIONS", Some(conditions))]
                + OpponentVariablesAsWritten(2, [None], "MODEL_B");
    assert vars[2].1.None?;
  }

  /**
   * The corrected round prompt, which stores `content or ""` in the history as
   * the message thread does, always renders, and agrees with the source
   * whenever every opponent reply has content.
   */
  lemma {:induction false} CorrectedRoundPromptAgrees(template: string, topic: string,
                                                      conditions: string, i: int,
                                                      raw: seq<Option<string>>, opponentLabel: string)
    requires forall k :: 0 <= k < |raw| ==> raw[k].Some?
    ensures RenderAsWritten(template,
              [("TOPIC", Some(topic)), ("CONDITIONS", Some(conditions))]
              + OpponentVariablesAsWritten(i, raw, opponentLabel))
         == Success(Rendered(template,
              RoundVariables(topic, conditions, i, seq(|raw|, k requires 0 <= k < |raw| => ContentOrEmpty(raw[k])), opponentLabel)))
  {
    var clean := seq(|raw|, k requires 0 <= k < |raw| => ContentOrEmpty(raw[k]));
    var base := [("TOPIC", Some(topic)), ("CONDITIONS", Some(conditions))];
    var vars := base + OpponentVariablesAsWritten(i, raw, opponentLabel);
    var good := RoundVariables(topic, conditions, i, clean, opponentLabel);
    assert |vars| == |good|;
    forall n | 0 <= n <= |vars|
      ensures RenderAsWritten(template, vars[..n]) == Success(Rendered(template, good[..n]))
    {
      RenderPrefixAgrees(template, vars, good, n);
    }
    assert vars[..|vars|] == vars && good[..|good|] == good;
  }

  lemma {:induction false} RenderPrefixAgrees(template: string, vars: seq<(string, Option<string>)>,
                                              good: seq<Binding>, n: nat)
    requires |vars| == |good| && n <= |vars|
    requires forall k :: 0 <= k < |vars| ==> vars[k].0 == good[k].0 && vars[k].1 == Some(good[k].1)
    ensures RenderAsWritten(template, vars[..n]) == Success(Rendered(template, good[..n]))
  {
    if n > 0 {
      RenderPrefixAgrees(template, vars, good, n - 1);
      assert vars[..n][..n - 1] == vars[..n - 1];
      assert good[..n][..n - 1] == good[..n - 1];
    }
  }

  // ---------------------------------------------------------------------------
  // merge_responses on the histories as the source keeps them
  // ---------------------------------------------------------------------------

  /** The corrected histories: each reply stored as `content or ""`. */
  function StoredContents(raw: seq<Option<string>>): (clean: seq<string>)
    ensures |clean| == |raw|
    ensures forall k :: 0 <= k < |raw| ==> clean[k] == ContentOrEmpty(raw[k])
  {
    seq(|raw|, k requires 0 <= k < |raw| => ContentOrEmpty(raw[k]))
  }

  /** `f"{item['content']}"`: Python formats a null content as the text `None`. */
  function Formatted(content: Option<string>): string {
    if content.Some? then content.value else "None"
  }

  function FormattedContents(raw: seq<Option<string>>): (texts: seq<string>)
    ensures |texts| == |raw|
    ensures forall k :: 0 <= k < |raw| ==> texts[k] == Formatted(raw[k])
  {
    seq(|raw|, k requires 0 <= k < |raw| => Formatted(raw[k]))
  }

  /** `merge_responses` as written, on a history of raw replies whose content may be null. */
  function MergeResponsesAsWritten(raw: seq<Option<string>>): string {
    MergeResponses(FormattedContents(raw))
  }

  /**
   * No debater prompt up to the last round of a history binds that history's
   * last reply: round `i` reads the opponent's round `i - 1` at most.
   */
  lemma LastReplyNeverBound(i: int, raw: seq<Option<string>>, opponentLabel: string)
    requires raw != [] && i <= |raw|
    ensures OpponentVariablesAsWritten(i, raw, opponentLabel)
         == OpponentVariablesAsWritten(i, raw[..|raw| - 1], opponentLabel)
  {
  }

  /**
   * Finding: a last reply without content crashes no prompt, and every judge
   * reads it as the text `None`, where the corrected history shows an empty block.
   */
  lemma NullLastReplyReadsNone(raw: seq<Option<string>>)
    requires |raw| >= 2 && raw[|raw| - 1].None?
    ensures MergeResponsesAsWritten(raw)
         == MergeResponsesAsWritten(raw[..|raw| - 1]) + "\n\n" + RoundBlock(|raw|, "None")
    ensures MergeResponses(StoredContents(raw))
         == MergeResponses(StoredContents(raw[..|raw| - 1])) + "\n\n" + RoundBlock(|raw|, "")
    ensures (forall k :: 0 <= k < |raw| - 1 ==> raw[k].Some?) ==>
              MergeResponsesAsWritten(raw) != MergeResponses(StoredContents(raw))
  {
    var n := |raw| - 1;
    assert FormattedContents(raw) == FormattedContents(raw[..n]) + ["None"];
    assert StoredContents(raw) == StoredContents(raw[..n]) + [""];
    MergeSnoc(FormattedContents(raw[..n]), "None");
    MergeSnoc(StoredContents(raw[..n]), "");
    if forall k :: 0 <= k < n ==> raw[k].Some? {
      CorrectedMergeAgrees(raw[..n]);
    }
  }

  /**
   * The corrected transcript a judge reads shows every round with the content
   * the rounds log records, and is the source's text whenever every reply has content.
   */
  lemma CorrectedMergeAgrees(raw: seq<Option<string>>)
    ensures (forall k :: 0 <= k < |raw| ==> raw[k].Some?) ==>
              MergeResponsesAsWritten(raw) == MergeResponses(StoredContents(raw))
    ensures forall k :: 0 <= k < |raw| ==>
              Occurs(MergeResponses(StoredContents(raw)), RoundBlock(k + 1, ContentOrEmpty(raw[k])))
  {
    if forall k :: 0 <= k < |raw| ==> raw[k].Some? {
      assert FormattedContents(raw) == StoredContents(raw);
    }
    forall k | 0 <= k < |raw|
      ensures Occurs(MergeResponses(StoredContents(raw)), RoundBlock(k + 1, ContentOrEmpty(raw[k])))
    {
      MergeShowsEveryRound(StoredContents(raw), k);
    }
  }
}
