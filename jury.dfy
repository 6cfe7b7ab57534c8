/**
 * The jury protocol of one judge: blinding the two transcripts
 * (`run_jury_evaluation`), reading the judge's reply (`parse_jury_response`),
 * mapping the verdict back to the true sides (`remap_winner`,
 * `normalize_jury_scores`) and deciding whether it is usable
 * (`is_valid_jury`). JSON decoding itself is a parameter.
 */
module Jury {
  import opened Wrappers
  import opened Text

  // ---------------------------------------------------------------------------
  // Decoded JSON values and the verdict read from them
  // ---------------------------------------------------------------------------

  /** What `json.loads` can return. */
  datatype Json =
    | Null
    | Bool(b: bool)
    | Number(n: real)
    | Str(s: string)
    | Array(items: seq<Json>)
    | Object(fields: seq<(string, Json)>)

  /** Python's truth test: `None`, `False`, zero and empty containers are false. */
  predicate Falsy(j: Json) {
    match j
    case Null => true
    case Bool(b) => !b
    case Number(n) => n == 0.0
    case Str(s) => s == ""
    case Array(items) => items == []
    case Object(fields) => fields == []
  }

  /** Lists and dicts cannot be looked up in a Python set. */
  predicate Hashable(j: Json) {
    !j.Array? && !j.Object?
  }

  /** `d.get(key)` on a decoded object: the last binding of `key` wins, as in `json.loads`; absent is `None`. */
  function Lookup(fields: seq<(string, Json)>, key: string): (v: Json)
    ensures v != Null ==> exists k :: 0 <= k < |fields| && fields[k] == (key, v)
    ensures (forall k :: 0 <= k < |fields| ==> fields[k].0 != key) ==> v == Null
  {
    if fields == [] then Null
    else if fields[|fields| - 1].0 == key then fields[|fields| - 1].1
    else Lookup(fields[..|fields| - 1], key)
  }

  /** A key bound several times reads as its last binding, the one `json.loads` keeps. */
  lemma {:induction false} LookupLastBinding(fields: seq<(string, Json)>, key: string, k: nat)
    requires k < |fields| && fields[k].0 == key
    ensures exists i :: k <= i < |fields| && fields[i] == (key, Lookup(fields, key))
                        && forall j :: i < j < |fields| ==> fields[j].0 != key
  {
    var n := |fields| - 1;
    if fields[n].0 != key {
      var init := fields[..n];
      assert Lookup(fields, key) == Lookup(init, key);
      assert init[k] == fields[k];
      LookupLastBinding(init, key, k);
      var i :| k <= i < |init| && init[i] == (key, Lookup(init, key))
               && forall j :: i < j < |init| ==> init[j].0 != key;
      assert fields[i] == init[i];
      forall j | i < j < |fields|
        ensures fields[j].0 != key
      {
        if j < n {
          assert fields[j] == init[j];
        }
      }
    }
  }

  /**
   * The seven keys of a verdict the program reads. `Null` stands for both an
   * absent key and a JSON null: every read goes through `.get`, which cannot
   * tell them apart.
   */
  datatype Verdict = Verdict(
    winner: Json,
    totalA: Json,
    totalB: Json,
    detailsA: Json,
    detailsB: Json,
    reasoning: Json,
    general: Json)

  function FromFields(fields: seq<(string, Json)>): Verdict {
    Verdict(
      Lookup(fields, "winner"),
      Lookup(fields, "total_score_A"),
      Lookup(fields, "total_score_B"),
      Lookup(fields, "detailed_scores_A"),
      Lookup(fields, "detailed_scores_B"),
      Lookup(fields, "reasoning"),
      Lookup(fields, "general"))
  }

  // ---------------------------------------------------------------------------
  // Blinding
  // ---------------------------------------------------------------------------

  datatype Side = A | B

  function SideName(s: Side): string {
    if s == A then "A" else "B"
  }

  /** `side_map`: the true side behind each label the judge sees. */
  datatype SideMap = SideMap(a: Side, b: Side)

  const Identity := SideMap(A, B)
  const Swap := SideMap(B, A)

  /** What the judge is shown: the text labelled Side A, the text labelled Side B, and the map back. */
  datatype Presentation = Presentation(shownA: string, shownB: string, sideMap: SideMap)

  /**
   * Blinding in `run_jury_evaluation`: swap the transcripts and the map when
   * `blind` is set. Each label always shows the transcript of the side the
   * map sends it to.
   */
  function Blind(textA: string, textB: string, blind: bool): (p: Presentation)
    ensures p.sideMap == (if blind then Swap else Identity)
    ensures p.shownA == (if p.sideMap.a == A then textA else textB)
    ensures p.shownB == (if p.sideMap.b == A then textA else textB)
  {
    if blind then Presentation(textB, textA, Swap) else Presentation(textA, textB, Identity)
  }

  /** `remap_winner`: a label is renamed to the true side; any other truthy value passes through; a falsy one becomes "". */
  function RemapWinner(raw: Json, m: SideMap): (w: Json)
    ensures Falsy(w) <==> Falsy(raw)
    ensures Falsy(raw) ==> w == Str("")
    ensures raw == Str("Side A") || raw == Str("Side B") ==> w == Str("Side A") || w == Str("Side B")
    ensures m == Identity && !Falsy(raw) ==> w == raw
  {
    if raw == Str("Side A") then Str("Side " + SideName(m.a))
    else if raw == Str("Side B") then Str("Side " + SideName(m.b))
    else if Falsy(raw) then Str("")
    else raw
  }

  /** `normalize_jury_scores`: under a swapped map the totals and detailed scores change sides. */
  function NormalizeScores(v: Verdict, m: SideMap): (n: Verdict)
    ensures n.winner == v.winner && n.reasoning == v.reasoning && n.general == v.general
    ensures multiset{n.totalA, n.totalB} == multiset{v.totalA, v.totalB}
    ensures multiset{n.detailsA, n.detailsB} == multiset{v.detailsA, v.detailsB}
    ensures m == Identity ==> n == v
    ensures m == Swap ==> n.totalA == v.totalB && n.detailsA == v.detailsB
  {
    if m.a == A then v
    else Verdict(v.winner, v.totalB, v.totalA, v.detailsB, v.detailsA, v.reasoning, v.general)
  }

  /** The verdict in terms of the true sides: the winner is remapped first, then the scores. */
  function Deblind(v: Verdict, m: SideMap): Verdict {
    NormalizeScores(v.(winner := RemapWinner(v.winner, m)), m)
  }

  /**
   * `is_valid_jury`: the winner names a side and both totals are present. (The
   * emptiness test of the source never fires here: the winner key has just
   * been written.)
   */
  predicate IsValid(v: Verdict)
    ensures IsValid(v) ==> !Falsy(v.winner) && Hashable(v.winner)
  {
    (v.winner == Str("Side A") || v.winner == Str("Side B")) && v.totalA != Null && v.totalB != Null
  }

  // ---------------------------------------------------------------------------
  // Properties of the de-blinding protocol
  // ---------------------------------------------------------------------------

  /** A win for the label shown first goes to the side whose transcript was shown first, and likewise for the second. */
  lemma WinnerFollowsShownText(textA: string, textB: string, blind: bool)
    ensures var p := Blind(textA, textB, blind);
            && RemapWinner(Str("Side A"), p.sideMap) == Str("Side " + SideName(p.sideMap.a))
            && RemapWinner(Str("Side B"), p.sideMap) == Str("Side " + SideName(p.sideMap.b))
            && (p.shownA == textA <== p.sideMap.a == A)
            && (p.shownA == textB <== p.sideMap.a == B)
  {
  }

  /** Under the identity map only a falsy winner changes (to ""). */
  lemma IdentityKeepsVerdict(v: Verdict)
    ensures Deblind(v, Identity) == v.(winner := if Falsy(v.winner) then Str("") else v.winner)
  {
  }

  /** Under the swap map the labels exchange and other winners pass through (a falsy one as ""). */
  lemma SwapRemapsWinner(w: Json)
    ensures w == Str("Side A") ==> RemapWinner(w, Swap) == Str("Side B")
    ensures w == Str("Side B") ==> RemapWinner(w, Swap) == Str("Side A")
    ensures w != Str("Side A") && w != Str("Side B") ==>
              RemapWinner(w, Swap) == (if Falsy(w) then Str("") else w)
  {
  }

  /** De-blinding twice with the same map restores the scores, and a winner that names a side. */
  lemma DeblindTwice(v: Verdict, m: SideMap)
    requires m == Identity || m == Swap
    requires IsValid(v)
    ensures Deblind(Deblind(v, m), m) == v
  {
  }

  /** Swapping the scores twice restores them, whatever the verdict. */
  lemma NormalizeInvolutive(v: Verdict, m: SideMap)
    ensures NormalizeScores(NormalizeScores(v, m), m) == v
  {
  }

  /** Whether a verdict is usable does not depend on the labels it was given under. */
  lemma DeblindPreservesValidity(v: Verdict, m: SideMap)
    requires m == Identity || m == Swap
    ensures IsValid(Deblind(v, m)) <==> IsValid(v)
  {
  }

  // ---------------------------------------------------------------------------
  // Reading the judge's reply
  // ---------------------------------------------------------------------------

  predicate StartsWith(s: string, prefix: string) {
    |prefix| <= |s| && s[..|prefix|] == prefix
  }

  /**
   * The text handed to the decoder by `parse_jury_response`: stripped, and
   * when fenced with backticks the fence and a `json` tag are removed.
   */
  function StripFence(text: string): (r: string)
    ensures |r| <= |text|
    ensures !StartsWith(Strip(text), "```") ==> r == Strip(text)
  {
    Unfence(Strip(text))
  }

  /** Removing a backtick fence from an already stripped reply. */
  function Unfence(cleaned: string): string {
    if StartsWith(cleaned, "```") then DropJsonTag(StripChar(cleaned, '`')) else cleaned
  }

  /** Removing the `json` language tag that opens a fenced block. */
  function DropJsonTag(unfenced: string): string {
    if StartsWith(unfenced, "json") then LStrip(unfenced[4..]) else unfenced
  }

  /**
   * `parse_jury_response`: an empty reply or one the decoder rejects reads as
   * the empty object; otherwise whatever the decoder returns.
   */
  function ParseJuryResponse(text: string, decode: string -> Option<Json>): (j: Json)
    ensures text == "" ==> j == Object([])
    ensures text != "" && decode(StripFence(text)).None? ==> j == Object([])
    ensures text != "" && decode(StripFence(text)).Some? ==> j == decode(StripFence(text)).value
  {
    if text == "" then Object([])
    else
      match decode(StripFence(text))
      case None => Object([])
      case Some(j) => j
  }

  /** A fenced reply tagged `json` hands the decoder exactly the fenced body (and its newline). */
  lemma StripJsonFence(body: string)
    requires body != [] && !IsSpace(body[0])
    ensures StripFence("```json\n" + body + "\n```") == body + "\n"
  {
    var text := "```json\n" + body + "\n```";
    calc {
      StripFence(text);
      Unfence(Strip(text));
      { FencedReplyIsStripped(body); }
      Unfence(text);
      { assert text[..3] == "```"; UnfenceStarts(text); }
      DropJsonTag(StripChar(text, '`'));
      { FenceRemoved(body); }
      DropJsonTag("json\n" + body + "\n");
      { JsonTagRemoved(body); }
      LStrip("\n" + body + "\n");
      { LeadingNewlineDropped(body); }
      body + "\n";
    }
  }

  lemma LeadingNewlineDropped(body: string)
    requires body != [] && !IsSpace(body[0])
    ensures LStrip("\n" + body + "\n") == body + "\n"
  {
    var tail := "\n" + body + "\n";
    assert tail[0] == '\n' && tail[1] == body[0];
    var rest := TrimStart(tail, IsSpace);
    assert |tail| - |rest| == 1;
    assert tail[1..] == body + "\n";
  }

  lemma FencedReplyIsStripped(body: string)
    ensures Strip("```json\n" + body + "\n```") == "```json\n" + body + "\n```"
  {
    var text := "```json\n" + body + "\n```";
    assert text[0] == '`' && text[|text| - 1] == '`';
    StripIdentity(text);
  }

  lemma UnfenceStarts(text: string)
    requires |text| >= 3 && text[..3] == "```"
    ensures Unfence(text) == DropJsonTag(StripChar(text, '`'))
  {
  }

  lemma FenceRemoved(body: string)
    ensures StripChar("```json\n" + body + "\n```", '`') == "json\n" + body + "\n"
  {
    var text := "```json\n" + body + "\n```";
    var n := |text|;
    assert n == |body| + 12;
    assert text[0] == '`' && text[1] == '`' && text[2] == '`' && text[3] == 'j';
    assert text[n - 1] == '`' && text[n - 2] == '`' && text[n - 3] == '`' && text[n - 4] == '\n';
    StripCharBetween(text, '`', 3, 3);
    assert text[3..n - 3] == "json\n" + body + "\n";
  }

  lemma JsonTagRemoved(body: string)
    ensures DropJsonTag("json\n" + body + "\n") == LStrip("\n" + body + "\n")
  {
    var unfenced := "json\n" + body + "\n";
    assert unfenced[..4] == "json";
    assert unfenced[4..] == "\n" + body + "\n";
  }

  /** A reply without a fence and without surrounding whitespace reaches the decoder unchanged. */
  lemma PlainReplyUnchanged(text: string)
    requires IsStripped(text) && !StartsWith(text, "```")
    ensures StripFence(text) == text
  {
    StripIdentity(text);
  }

  // ---------------------------------------------------------------------------
  // One judge's verdict, as written and corrected
  // ---------------------------------------------------------------------------

  /**
   * The jury loop body as written: `.get` on a decoded value that is not an
   * object raises AttributeError, and a truthy list or dict winner raises
   * TypeError in the set test of `is_valid_jury`. `Success(None)` is a
   * skipped verdict.
   */
  function JudgeVerdictAsWritten(decoded: Json, m: SideMap): (r: Result<Option<Verdict>, Crash>)
    ensures !decoded.Object? ==> r == Failure(AttributeError)
  {
    if !decoded.Object? then Failure(AttributeError)
    else
      var v := Deblind(FromFields(decoded.fields), m);
      if !Hashable(v.winner) then Failure(TypeError)
      else if IsValid(v) then Success(Some(v))
      else Success(None)
  }

  /** The evidently intended behaviour: a reply that is not a usable verdict is skipped, never fatal. */
  function JudgeVerdict(decoded: Json, m: SideMap): (r: Option<Verdict>)
    ensures r.Some? ==> IsValid(r.value)
    ensures r.Some? ==> decoded.Object? && r.value == Deblind(FromFields(decoded.fields), m)
    ensures r.Some? <==> decoded.Object? && IsValid(Deblind(FromFields(decoded.fields), m))
  {
    if !decoded.Object? then None
    else
      var v := Deblind(FromFields(decoded.fields), m);
      if IsValid(v) then Some(v) else None
  }

  /**
   * The two agree except on exactly the crashing inputs: a non-object reply,
   * or a winner that is a non-empty list or object.
   */
  lemma CorrectedAgreesWhereSourceSurvives(decoded: Json, m: SideMap)
    ensures JudgeVerdictAsWritten(decoded, m).Failure? <==>
              !decoded.Object? || !Hashable(RemapWinner(Lookup(decoded.fields, "winner"), m))
    ensures JudgeVerdictAsWritten(decoded, m).Success? ==>
              JudgeVerdictAsWritten(decoded, m).value == JudgeVerdict(decoded, m)
  {
  }

  /** A remapped winner is unhashable exactly when the judge returned a non-empty list or object. */
  lemma UnhashableWinner(w: Json, m: SideMap)
    ensures !Hashable(RemapWinner(w, m)) <==> (w.Array? && w.items != []) || (w.Object? && w.fields != [])
  {
  }

  /** Finding: a judge replying with a JSON array (`[]`) aborts the run. */
  lemma ArrayReplyCrashes(decode: string -> Option<Json>, m: SideMap)
    requires decode("[]") == Some(Array([]))
    ensures JudgeVerdictAsWritten(ParseJuryResponse("[]", decode), m) == Failure(AttributeError)
    ensures JudgeVerdict(ParseJuryResponse("[]", decode), m) == None
  {
    var text := "[]";
    assert !IsSpace(text[0]) && !IsSpace(text[1]);
    assert !StartsWith(text, "```");
    PlainReplyUnchanged(text);
    assert ParseJuryResponse(text, decode) == Array([]);
  }

  /** Finding: a judge naming a list as the winner (`{"winner": ["Side A"]}`) aborts the run. */
  lemma ListWinnerCrashes(m: SideMap)
    ensures JudgeVerdictAsWritten(Object([("winner", Array([Str("Side A")]))]), m) == Failure(TypeError)
    ensures JudgeVerdict(Object([("winner", Array([Str("Side A")]))]), m) == None
  {
    var fields := [("winner", Array([Str("Side A")]))];
    assert Lookup(fields, "winner") == Array([Str("Side A")]);
  }
}
