/**
 * The data handling of `render_html.py` under its markup: how a record's
 * rounds are grouped for display, the column order of a score table, the
 * token totals of a record, the reasoning read from its verdicts, and the
 * navigation of records by topic. Records are the JSON lines `run_debate`
 * writes; the fields the page reads with `.get` are optional here.
 */
module Render {
  import opened Wrappers
  import opened Text
  import opened Seqs
  import opened Usage
  import opened Jury
  import opened Debate

  // ---------------------------------------------------------------------------
  // Grouping the rounds of a record
  // ---------------------------------------------------------------------------

  /** An item of a record's `rounds`, as the page reads it; `total_tokens` may be absent. */
  datatype RoundItem = RoundItem(id: int, side: string, prompt: string, content: string, totalTokens: Option<int>)

  /** The dictionary `group_rounds` fills: round id, then side, to item. */
  type Groups = map<int, map<string, RoundItem>>

  /** `grouped.setdefault(round_id, {})[side] = item` */
  function Put(g: Groups, item: RoundItem): (g2: Groups)
    ensures g2.Keys == g.Keys + {item.id}
  {
    g[item.id := (if item.id in g then g[item.id] else map[])[item.side := item]]
  }

  /** The dictionary after filing every item in order. */
  function Grouped(rounds: seq<RoundItem>): Groups {
    if rounds == [] then map[] else Put(Grouped(rounds[..|rounds| - 1]), rounds[|rounds| - 1])
  }

  /** The round ids that occur in the items. */
  function RoundIds(rounds: seq<RoundItem>): set<int> {
    set j | 0 <= j < |rounds| :: rounds[j].id
  }

  /** The position of the last item with this round id and side, if any. */
  function LastWith(rounds: seq<RoundItem>, id: int, side: string): (k: Option<nat>)
    ensures k.Some? ==> k.value < |rounds| && rounds[k.value].id == id && rounds[k.value].side == side
    ensures k.Some? ==> forall j :: k.value < j < |rounds| ==> !(rounds[j].id == id && rounds[j].side == side)
    ensures k.None? ==> forall j :: 0 <= j < |rounds| ==> !(rounds[j].id == id && rounds[j].side == side)
  {
    if rounds == [] then None
    else
      var n := |rounds| - 1;
      if rounds[n].id == id && rounds[n].side == side then Some(n)
      else LastWith(rounds[..n], id, side)
  }

  /**
   * The dictionary has a group for exactly the round ids that occur, and the
   * group of an id holds, for each side, the last item with that id and side.
   */
  lemma {:induction false} GroupedHolds(rounds: seq<RoundItem>, id: int, side: string)
    ensures id in Grouped(rounds) <==> id in RoundIds(rounds)
    ensures (id in Grouped(rounds) && side in Grouped(rounds)[id]) <==> LastWith(rounds, id, side).Some?
    ensures LastWith(rounds, id, side).Some? ==>
              id in Grouped(rounds) && side in Grouped(rounds)[id]
              && Grouped(rounds)[id][side] == rounds[LastWith(rounds, id, side).value]
  {
    if rounds != [] {
      var n := |rounds| - 1;
      var p := rounds[..n];
      GroupedHolds(p, id, side);
      assert RoundIds(rounds) == RoundIds(p) + {rounds[n].id} by {
        forall x | x in RoundIds(rounds) ensures x in RoundIds(p) + {rounds[n].id} {
          var j :| 0 <= j < |rounds| && rounds[j].id == x;
          if j < n {
            assert p[j].id == x;
          }
        }
        forall x | x in RoundIds(p) ensures x in RoundIds(rounds) {
          var j :| 0 <= j < |p| && p[j].id == x;
          assert rounds[j].id == x;
        }
      }
    }
  }

  predicate Increasing(xs: seq<int>) {
    forall i, j :: 0 <= i < j < |xs| ==> xs[i] < xs[j]
  }

  /** Puts `x` in its place in an increasing sequence, unless it is already there. */
  function InsertSorted(xs: seq<int>, x: int): (r: seq<int>)
    requires Increasing(xs)
    ensures Increasing(r)
    ensures forall y :: y in r <==> y in xs || y == x
  {
    if xs == [] then [x]
    else if x < xs[0] then [x] + xs
    else if x == xs[0] then xs
    else
      var rest := InsertSorted(xs[1..], x);
      assert forall y :: y in xs[1..] ==> xs[0] < y;
      ConsIncreasing(xs[0], rest);
      [xs[0]] + rest
  }

  lemma ConsIncreasing(x: int, rest: seq<int>)
    requires Increasing(rest)
    requires forall y :: y in rest ==> x < y
    ensures Increasing([x] + rest)
  {
    var r := [x] + rest;
    forall i, j | 0 <= i < j < |r| ensures r[i] < r[j] {
      assert r[j] == rest[j - 1];
      if i == 0 {
        assert rest[j - 1] in rest;
      } else {
        assert r[i] == rest[i - 1];
      }
    }
  }

  /** `sorted` of the distinct values of `ids`: increasing, with exactly those values. */
  function SortedIds(ids: seq<int>): (r: seq<int>)
    ensures Increasing(r)
    ensures forall y :: y in r <==> y in ids
  {
    if ids == [] then []
    else
      var n := |ids| - 1;
      InsertSorted(SortedIds(ids[..n]), ids[n])
  }

  /** The round id of every item, in item order. */
  function IdSeq(rounds: seq<RoundItem>): (ids: seq<int>)
    ensures |ids| == |rounds|
    ensures forall k :: 0 <= k < |rounds| ==> ids[k] == rounds[k].id
  {
    seq(|rounds|, k requires 0 <= k < |rounds| => rounds[k].id)
  }

  /**
   * `group_rounds`: one group per round id that occurs, in ascending id order;
   * a group maps each side to the last item with that id and side, so a later
   * item replaces an earlier one.
   */
  method GroupRounds(rounds: seq<RoundItem>) returns (groups: seq<map<string, RoundItem>>)
    ensures var ids := SortedIds(IdSeq(rounds));
            && (forall id :: id in ids <==> id in RoundIds(rounds))
            && |groups| == |ids|
            && (forall k, side :: 0 <= k < |groups| ==>
                  (side in groups[k] <==> LastWith(rounds, ids[k], side).Some?))
            && (forall k, side :: 0 <= k < |groups| && side in groups[k] ==>
                  groups[k][side] == rounds[LastWith(rounds, ids[k], side).value])
  {
    var grouped: Groups := map[];
    for i := 0 to |rounds|
      invariant grouped == Grouped(rounds[..i])
    {
      assert rounds[..i + 1][..i] == rounds[..i];
      grouped := Put(grouped, rounds[i]);
    }
    assert rounds[..|rounds|] == rounds;
    assert grouped.Keys == RoundIds(rounds) by {
      forall id ensures id in grouped <==> id in RoundIds(rounds) {
        GroupedHolds(rounds, id, "");
      }
    }
    var ids := SortedIds(IdSeq(rounds));
    assert forall id :: id in ids <==> id in RoundIds(rounds) by {
      forall id ensures id in IdSeq(rounds) <==> id in RoundIds(rounds) {
        if id in IdSeq(rounds) {
          var k :| 0 <= k < |rounds| && IdSeq(rounds)[k] == id;
        }
        if id in RoundIds(rounds) {
          var k :| 0 <= k < |rounds| && rounds[k].id == id;
          assert IdSeq(rounds)[k] == id;
        }
      }
    }
    groups := seq(|ids|, k requires 0 <= k < |ids| => grouped[ids[k]]);
    forall k, side | 0 <= k < |groups|
      ensures side in groups[k] <==> LastWith(rounds, ids[k], side).Some?
      ensures side in groups[k] ==> groups[k][side] == rounds[LastWith(rounds, ids[k], side).value]
    {
      GroupedHolds(rounds, ids[k], side);
    }
  }

  // ---------------------------------------------------------------------------
  // The columns of a score table
  // ---------------------------------------------------------------------------

  function Names(fields: seq<(string, Json)>): (ns: seq<string>)
    ensures |ns| == |fields|
    ensures forall k :: 0 <= k < |fields| ==> ns[k] == fields[k].0
  {
    seq(|fields|, k requires 0 <= k < |fields| => fields[k].0)
  }

  /**
   * `ensure_dict(value).keys()`: the keys of a decoded object in the order
   * they were first inserted, a repeated key keeping its first place; nothing
   * for a value that is not an object.
   */
  function DictKeys(j: Json): (ks: seq<string>)
    ensures NoDups(ks)
    ensures forall key :: key in ks <==> j.Object? && key in Names(j.fields)
  {
    if j.Object? then Dedup(Names(j.fields)) else []
  }

  /**
   * One loop of `build_score_table` over a dict's keys: each key not yet
   * listed is appended, so the list stays the deduplication of every key met.
   */
  method AppendMissing(keys: seq<string>, ghost met: seq<string>, more: seq<string>) returns (keys2: seq<string>)
    requires keys == Dedup(met)
    ensures keys2 == Dedup(met + more)
  {
    keys2 := keys;
    assert met + more[..0] == met;
    for i := 0 to |more|
      invariant keys2 == Dedup(met + more[..i])
    {
      assert met + more[..i + 1] == (met + more[..i]) + [more[i]];
      DedupSnoc(met + more[..i], more[i]);
      if more[i] !in keys2 {
        keys2 := keys2 + [more[i]];
      }
    }
    assert more[..|more|] == more;
  }

  /**
   * `score_keys` in `build_score_table`: the keys of `details_a`, then each key
   * of `details_b` not yet listed.
   */
  method ScoreKeys(detailsA: Json, detailsB: Json) returns (keys: seq<string>)
    ensures keys == Dedup(DictKeys(detailsA) + DictKeys(detailsB))
  {
    var ka, kb := DictKeys(detailsA), DictKeys(detailsB);
    keys := AppendMissing([], [], ka);
    assert [] + ka == ka;
    keys := AppendMissing(keys, ka, kb);
  }

  /**
   * The columns of a score table: no key twice, every key of `details_a` first
   * and in its order, then only keys of `details_b` missing from `details_a`,
   * and every key of either.
   */
  lemma ScoreColumns(detailsA: Json, detailsB: Json)
    ensures var ka, kb := DictKeys(detailsA), DictKeys(detailsB);
            var keys := Dedup(ka + kb);
            && NoDups(keys)
            && |ka| <= |keys|
            && keys[..|ka|] == ka
            && (forall k :: |ka| <= k < |keys| ==> keys[k] in kb && keys[k] !in ka)
            && (forall key :: key in keys <==> key in ka || key in kb)
  {
    var ka, kb := DictKeys(detailsA), DictKeys(detailsB);
    DedupAppend(ka, kb);
    DedupOfNoDups(ka);
    forall key ensures key in Dedup(ka + kb) <==> key in ka + kb {
      DedupSnoc(ka + kb, key);
    }
  }

  // ---------------------------------------------------------------------------
  // Token totals
  // ---------------------------------------------------------------------------

  /** `int(item.get("total_tokens") or 0)` */
  function Tokens(t: Option<int>): int {
    if t.Some? then t.value else 0
  }

  /** The tokens of the round items of one side. */
  function SideTokens(rounds: seq<RoundItem>, side: string): int {
    if rounds == [] then 0
    else
      var n := |rounds| - 1;
      SideTokens(rounds[..n], side) + (if rounds[n].side == side then Tokens(rounds[n].totalTokens) else 0)
  }

  /**
   * The `totals` loop of `render_record`: each item adds its tokens to its
   * side's total when its side is "A" or "B"; an item of any other side is
   * skipped.
   */
  method SideTokenTotals(rounds: seq<RoundItem>) returns (tokensA: int, tokensB: int)
    ensures tokensA == SideTokens(rounds, "A") && tokensB == SideTokens(rounds, "B")
  {
    tokensA, tokensB := 0, 0;
    for i := 0 to |rounds|
      invariant tokensA == SideTokens(rounds[..i], "A") && tokensB == SideTokens(rounds[..i], "B")
    {
      assert rounds[..i + 1][..i] == rounds[..i];
      var side := rounds[i].side;
      if side == "A" {
        tokensA := tokensA + Tokens(rounds[i].totalTokens);
      } else if side == "B" {
        tokensB := tokensB + Tokens(rounds[i].totalTokens);
      }
    }
    assert rounds[..|rounds|] == rounds;
  }

  /** An item of a record's `juries`, as the page reads it. */
  datatype JuryItem = JuryItem(model: string, totalTokens: Option<int>)

  /** `jury_tokens`: the tokens of every listed jury entry. */
  function JuryTokens(juries: seq<JuryItem>): int {
    if juries == [] then 0 else JuryTokens(juries[..|juries| - 1]) + Tokens(juries[|juries| - 1].totalTokens)
  }

  /** The tokens of every round item, whatever its side. */
  function AllTokens(rounds: seq<RoundItem>): int {
    if rounds == [] then 0 else AllTokens(rounds[..|rounds| - 1]) + Tokens(rounds[|rounds| - 1].totalTokens)
  }

  /** `total_tokens_all`: when every item is of side A or B, each item's tokens are counted exactly once. */
  function PageTokens(rounds: seq<RoundItem>, juries: seq<JuryItem>): (total: int)
    ensures (forall k :: 0 <= k < |rounds| ==> rounds[k].side == "A" || rounds[k].side == "B") ==>
              total == AllTokens(rounds) + JuryTokens(juries)
  {
    SidesCoverAll(rounds);
    SideTokens(rounds, "A") + SideTokens(rounds, "B") + JuryTokens(juries)
  }

  /** The side totals split the tokens of the items of sides A and B between them. */
  lemma {:induction false} SidesCoverAll(rounds: seq<RoundItem>)
    ensures (forall k :: 0 <= k < |rounds| ==> rounds[k].side == "A" || rounds[k].side == "B") ==>
              SideTokens(rounds, "A") + SideTokens(rounds, "B") == AllTokens(rounds)
  {
    if rounds != [] {
      var n := |rounds| - 1;
      SidesCoverAll(rounds[..n]);
      assert forall k :: 0 <= k < n ==> rounds[..n][k] == rounds[k];
    }
  }

  /** A log entry as `run_debate` saves it and the page reads it back. */
  function ItemOf(e: RoundEntry): RoundItem {
    RoundItem(e.id, SideName(e.side), e.prompt, e.content, Some(e.usage.totalTokens))
  }

  function Items(log: seq<RoundEntry>): (items: seq<RoundItem>)
    ensures |items| == |log|
    ensures forall k :: 0 <= k < |log| ==> items[k] == ItemOf(log[k])
  {
    seq(|log|, k requires 0 <= k < |log| => ItemOf(log[k]))
  }

  function JuryItemOf(e: JuryEntry): JuryItem {
    JuryItem(e.model, Some(e.usage.totalTokens))
  }

  function JuryItems(juries: seq<JuryEntry>): (items: seq<JuryItem>)
    ensures |items| == |juries|
    ensures forall k :: 0 <= k < |juries| ==> items[k] == JuryItemOf(juries[k])
  {
    seq(|juries|, k requires 0 <= k < |juries| => JuryItemOf(juries[k]))
  }

  /** The usage saved with each jury entry: the counterpart of `Debate.Usages` for jury entries. */
  function JuryUsages(juries: seq<JuryEntry>): (us: seq<UsageStats>)
    ensures |us| == |juries|
    ensures forall k :: 0 <= k < |juries| ==> us[k] == juries[k].usage
  {
    seq(|juries|, k requires 0 <= k < |juries| => juries[k].usage)
  }

  /** Every entry of a debate log is side A or B, so the two side totals add up to the log's tokens. */
  lemma {:induction false} RoundTokensAddUp(log: seq<RoundEntry>)
    ensures SideTokens(Items(log), "A") + SideTokens(Items(log), "B") == Sum(Usages(log)).totalTokens
  {
    if log != [] {
      var n := |log| - 1;
      RoundTokensAddUp(log[..n]);
      assert Items(log)[..n] == Items(log[..n]);
      assert Usages(log)[..n] == Usages(log[..n]);
    }
  }

  /** The jury tokens the page shows are those saved with the listed entries. */
  lemma {:induction false} JuryTokensAddUp(juries: seq<JuryEntry>)
    ensures JuryTokens(JuryItems(juries)) == Sum(JuryUsages(juries)).totalTokens
  {
    if juries != [] {
      var n := |juries| - 1;
      JuryTokensAddUp(juries[..n]);
      assert JuryItems(juries)[..n] == JuryItems(juries[..n]);
      assert JuryUsages(juries)[..n] == JuryUsages(juries[..n]);
    }
  }

  /** The usage of each kept judge. */
  function KeptUsages(kept: seq<(JuryEntry, Verdict)>): (us: seq<UsageStats>)
    ensures |us| == |kept|
    ensures forall q :: 0 <= q < |kept| ==> us[q] == kept[q].0.usage
  {
    seq(|kept|, q requires 0 <= q < |kept| => kept[q].0.usage)
  }

  /** One more judge adds its usage to the judges' usages, and to the kept usages at most. */
  lemma KeptUsageStep(s: Setup, o: Oracle, decode: string -> Option<Json>,
                      historyA: seq<string>, historyB: seq<string>, judges: seq<string>, n: nat)
    requires n < |judges|
    requires AllAnswered(s, o, historyA, historyB, judges[..n])
    requires JudgeReply(s, o, historyA, historyB, judges[n]).Some?
    ensures AllAnswered(s, o, historyA, historyB, judges[..n + 1])
    ensures var u := ExtractUsage(JudgeReply(s, o, historyA, historyB, judges[n]).value.usage);
            var before := KeptUsages(Kept(s, o, decode, historyA, historyB, judges[..n]));
            var after := KeptUsages(Kept(s, o, decode, historyA, historyB, judges[..n + 1]));
            && JudgeUsages(s, o, historyA, historyB, judges[..n + 1]) == JudgeUsages(s, o, historyA, historyB, judges[..n]) + [u]
            && (after == before || after == before + [u])
  {
    KeptGrowth(s, o, decode, historyA, historyB, judges, n);
    UsagesStep(s, o, historyA, historyB, judges, n);
    KeptUsagesGrow(Kept(s, o, decode, historyA, historyB, judges[..n]),
                   Kept(s, o, decode, historyA, historyB, judges[..n + 1]),
                   ExtractUsage(JudgeReply(s, o, historyA, historyB, judges[n]).value.usage));
  }

  lemma KeptUsagesGrow(before: seq<(JuryEntry, Verdict)>, after: seq<(JuryEntry, Verdict)>, u: UsageStats)
    requires || after == before
             || (|after| == |before| + 1 && after[..|before|] == before && after[|before|].0.usage == u)
    ensures KeptUsages(after) == KeptUsages(before) || KeptUsages(after) == KeptUsages(before) + [u]
  {
    if after != before {
      assert KeptUsages(after) == KeptUsages(before) + [u];
    }
  }

  lemma SumSnocTokens(us: seq<UsageStats>, u: UsageStats)
    ensures Sum(us + [u]).totalTokens == Sum(us).totalTokens + u.totalTokens
  {
    assert (us + [u])[..|us|] == us;
  }

  /** The kept judges used no more tokens than all the judges called. */
  lemma {:induction false} KeptTokensBounded(s: Setup, o: Oracle, decode: string -> Option<Json>,
                                             historyA: seq<string>, historyB: seq<string>, judges: seq<string>, n: nat)
    requires n <= |judges|
    requires AllAnswered(s, o, historyA, historyB, judges[..n])
    ensures Sum(KeptUsages(Kept(s, o, decode, historyA, historyB, judges[..n]))).totalTokens
            <= Sum(JudgeUsages(s, o, historyA, historyB, judges[..n])).totalTokens
  {
    if n > 0 {
      assert AllAnswered(s, o, historyA, historyB, judges[..n - 1]) by {
        forall m | 0 <= m < n - 1 ensures JudgeReply(s, o, historyA, historyB, judges[m]).Some? {
          assert judges[..n][m] == judges[m];
        }
      }
      assert JudgeReply(s, o, historyA, historyB, judges[n - 1]).Some? by {
        assert judges[..n][n - 1] == judges[n - 1];
      }
      KeptTokensBounded(s, o, decode, historyA, historyB, judges, n - 1);
      KeptUsageStep(s, o, decode, historyA, historyB, judges, n - 1);
      var u := ExtractUsage(JudgeReply(s, o, historyA, historyB, judges[n - 1]).value.usage);
      SumSnocTokens(JudgeUsages(s, o, historyA, historyB, judges[..n - 1]), u);
      SumSnocTokens(KeptUsages(Kept(s, o, decode, historyA, historyB, judges[..n - 1])), u);
    }
  }

  /**
   * The overall token total on the page of a record that `run_debate` saved is
   * the tokens of the eight turns and of the listed judges; it is at most the
   * record's `total_tokens`, which also counts the judges whose verdict was
   * dropped.
   */
  lemma PageTokensOfRecord(s: Setup, o: Oracle, decode: string -> Option<Json>, t: Transcript, rec: DebateRecord)
    requires ValidSetup(s)
    requires AllAnswered(s, o, t.a.history, t.b.history, s.judges)
    requires JuryRecorded(s, o, decode, t.a.history, t.b.history, s.judges, rec.juries, rec.parsed)
    requires rec.totals == Add(Sum(Usages(rec.rounds)), Sum(JudgeUsages(s, o, t.a.history, t.b.history, s.judges)))
    ensures PageTokens(Items(rec.rounds), JuryItems(rec.juries))
            == Sum(Usages(rec.rounds)).totalTokens + Sum(JuryUsages(rec.juries)).totalTokens
    ensures PageTokens(Items(rec.rounds), JuryItems(rec.juries)) <= rec.totals.totalTokens
  {
    RoundTokensAddUp(rec.rounds);
    JuryTokensAddUp(rec.juries);
    var kept := Kept(s, o, decode, t.a.history, t.b.history, s.judges);
    SavedUsages(rec.juries, kept);
    AllKeptTokensBounded(s, o, decode, t.a.history, t.b.history, s.judges);
  }

  lemma SavedUsages(juries: seq<JuryEntry>, kept: seq<(JuryEntry, Verdict)>)
    requires |juries| == |kept| && forall q :: 0 <= q < |kept| ==> juries[q] == kept[q].0
    ensures JuryUsages(juries) == KeptUsages(kept)
  {
  }

  lemma AllKeptTokensBounded(s: Setup, o: Oracle, decode: string -> Option<Json>,
                             historyA: seq<string>, historyB: seq<string>, judges: seq<string>)
    requires AllAnswered(s, o, historyA, historyB, judges)
    ensures Sum(KeptUsages(Kept(s, o, decode, historyA, historyB, judges))).totalTokens
            <= Sum(JudgeUsages(s, o, historyA, historyB, judges)).totalTokens
  {
    assert judges[..|judges|] == judges;
    KeptTokensBounded(s, o, decode, historyA, historyB, judges, |judges|);
  }

  // ---------------------------------------------------------------------------
  // The reasoning read from the verdicts
  // ---------------------------------------------------------------------------

  predicate HasKey(fields: seq<(string, Json)>, key: string) {
    exists k :: 0 <= k < |fields| && fields[k].0 == key
  }

  /** `d.get(key, default)` on a decoded object. */
  function Get(fields: seq<(string, Json)>, key: string, default: Json): (v: Json)
    ensures !HasKey(fields, key) ==> v == default
  {
    if HasKey(fields, key) then Lookup(fields, key) else default
  }

  /** `evaluation.get("parsed", [])`, a single dict being read as a one-element list. */
  function ParsedList(parsed: Option<Json>): (l: Json)
    ensures parsed.None? ==> l == Array([])
    ensures parsed.Some? && parsed.value.Object? ==> l == Array([parsed.value])
    ensures parsed.Some? && !parsed.value.Object? ==> l == parsed.value
  {
    if parsed.None? then Array([])
    else if parsed.value.Object? then Array([parsed.value])
    else parsed.value
  }

  /**
   * `reasoning` in `render_record`: the `reasoning` of the first parsed
   * verdict, "" without one. A first element that is not an object has no
   * `.get` (AttributeError), and a number or boolean cannot be indexed
   * (TypeError).
   */
  function FirstReasoning(parsed: Option<Json>): (r: Result<Json, Crash>)
    ensures parsed.None? ==> r == Success(Str(""))
    ensures parsed.Some? && parsed.value.Object? ==> r == Success(Get(parsed.value.fields, "reasoning", Str("")))
    ensures r.Failure? <==> parsed.Some? && !parsed.value.Object? && !Falsy(parsed.value)
                            && !(parsed.value.Array? && parsed.value.items[0].Object?)
    ensures r.Failure? ==> (r.error == TypeError <==> parsed.value.Bool? || parsed.value.Number?)
  {
    var l := ParsedList(parsed);
    if Falsy(l) then Success(Str(""))
    else
      match l
      case Array(items) =>
        if items[0].Object? then Success(Get(items[0].fields, "reasoning", Str(""))) else Failure(AttributeError)
      case Str(_) => Failure(AttributeError)
      case _ => Failure(TypeError)
  }

  /** A single verdict dict reads as the list holding it, and the first verdict of a list decides. */
  lemma SingleVerdictIsList(fields: seq<(string, Json)>, rest: seq<Json>)
    ensures FirstReasoning(Some(Object(fields))) == FirstReasoning(Some(Array([Object(fields)] + rest)))
    ensures FirstReasoning(Some(Object(fields))) == Success(Get(fields, "reasoning", Str("")))
  {
  }

  /** The parsed verdicts of a record `run_debate` saved never make the page fail. */
  lemma SavedVerdictsRender(parsed: seq<Verdict>)
    ensures parsed == [] ==> FirstReasoning(Some(Array(VerdictObjects(parsed)))) == Success(Str(""))
    ensures parsed != [] ==>
              FirstReasoning(Some(Array(VerdictObjects(parsed))))
                == Success(Get(VerdictObject(parsed[0]).fields, "reasoning", Str("")))
  {
  }

  /** A verdict as the dict `run_debate` writes to the record. */
  function VerdictObject(v: Verdict): (j: Json)
    ensures j.Object?
  {
    Object([("total_score_A", v.totalA), ("total_score_B", v.totalB),
            ("detailed_scores_A", v.detailsA), ("detailed_scores_B", v.detailsB),
            ("winner", v.winner), ("reasoning", v.reasoning), ("general", v.general)])
  }

  function VerdictObjects(parsed: seq<Verdict>): (js: seq<Json>)
    ensures |js| == |parsed|
    ensures forall k :: 0 <= k < |parsed| ==> js[k] == VerdictObject(parsed[k])
  {
    seq(|parsed|, k requires 0 <= k < |parsed| => VerdictObject(parsed[k]))
  }

  // ---------------------------------------------------------------------------
  // Navigation by topic
  // ---------------------------------------------------------------------------

  /** What the navigation reads of a record: its `id` and `topic`, when present. */
  datatype NavRecord = NavRecord(id: Option<string>, topic: Option<string>)

  /** The id of the `i`-th record (1-based) without one. */
  function DefaultId(i: nat): (id: string)
    ensures |id| > 7 && id[..7] == "debate-"
    ensures id[7..] == NatToString(i)
  {
    "debate-" + NatToString(i)
  }

  /** Records without an id at different positions get different default ids. */
  lemma DefaultIdsDistinct(i: nat, j: nat)
    requires i != j
    ensures DefaultId(i) != DefaultId(j)
  {
    if DefaultId(i) == DefaultId(j) {
      NatToStringInjective(i, j);
    }
  }

  /** `record.get("id", f"debate-{i}")` */
  function IdOf(r: NavRecord, i: nat): string {
    if r.id.Some? then r.id.value else DefaultId(i)
  }

  /** `record.get("topic", "Untitled")` */
  function TopicOf(r: NavRecord): string {
    if r.topic.Some? then r.topic.value else "Untitled"
  }

  /** The topics of the first `n` records, in record order. */
  function Topics(records: seq<NavRecord>, n: nat): (ts: seq<string>)
    requires n <= |records|
    ensures |ts| == n
    ensures forall k :: 0 <= k < n ==> ts[k] == TopicOf(records[k])
  {
    if n == 0 then [] else Topics(records, n - 1) + [TopicOf(records[n - 1])]
  }

  /** The ids of the first `n` records whose topic is `topic`, in record order. */
  function IdsOn(records: seq<NavRecord>, topic: string, n: nat): seq<string>
    requires n <= |records|
  {
    if n == 0 then []
    else IdsOn(records, topic, n - 1) + (if TopicOf(records[n - 1]) == topic then [IdOf(records[n - 1], n)] else [])
  }

  /** After `n` records, `topics` lists the topics met so far in first-seen order. */
  predicate NavTopics(records: seq<NavRecord>, n: nat, topics: seq<string>)
    requires n <= |records|
  {
    topics == Dedup(Topics(records, n))
  }

  /** The dict's keys are exactly the listed topics. */
  ghost predicate NavKeys(topics: seq<string>, idsByTopic: map<string, seq<string>>) {
    forall t :: t in idsByTopic <==> t in topics
  }

  /** Each key holds the ids of its records among the first `n`, and no other topic has any. */
  ghost predicate NavIds(records: seq<NavRecord>, n: nat, idsByTopic: map<string, seq<string>>)
    requires n <= |records|
  {
    && (forall t :: t in idsByTopic ==> idsByTopic[t] == IdsOn(records, t, n))
    && (forall t :: t !in idsByTopic ==> IdsOn(records, t, n) == [])
  }

  /** The ids on one topic grow by the next record exactly when it is on that topic. */
  lemma IdsOnStep(records: seq<NavRecord>, t: string, i: nat)
    requires i < |records|
    ensures IdsOn(records, t, i + 1) ==
              IdsOn(records, t, i) + (if TopicOf(records[i]) == t then [IdOf(records[i], i + 1)] else [])
  {
  }

  /** The next record's topic is appended to `topics` exactly when the dict did not hold it yet. */
  lemma NavTopicsStep(records: seq<NavRecord>, i: nat, topics: seq<string>, idsByTopic: map<string, seq<string>>)
    requires i < |records| && NavTopics(records, i, topics) && NavKeys(topics, idsByTopic)
    ensures var topic := TopicOf(records[i]);
            NavTopics(records, i + 1, if topic in idsByTopic then topics else topics + [topic])
  {
    var topic := TopicOf(records[i]);
    assert Topics(records, i + 1) == Topics(records, i) + [topic];
    DedupSnoc(Topics(records, i), topic);
  }

  /** A new key and its new topic arrive together. */
  lemma NavKeysStep(topics: seq<string>, idsByTopic: map<string, seq<string>>, topic: string, ids: seq<string>)
    requires NavKeys(topics, idsByTopic)
    ensures NavKeys(if topic in idsByTopic then topics else topics + [topic], idsByTopic[topic := ids])
  {
  }

  /** `topic_map.setdefault(topic, []).append(debate_id)` keeps the ids right one record further. */
  lemma NavIdsStep(records: seq<NavRecord>, i: nat, idsByTopic: map<string, seq<string>>)
    requires i < |records| && NavIds(records, i, idsByTopic)
    ensures var topic := TopicOf(records[i]);
            NavIds(records, i + 1, idsByTopic[topic := (if topic in idsByTopic then idsByTopic[topic] else [])
                                                       + [IdOf(records[i], i + 1)]])
  {
    var topic := TopicOf(records[i]);
    var ids2 := idsByTopic[topic := (if topic in idsByTopic then idsByTopic[topic] else []) + [IdOf(records[i], i + 1)]];
    forall t | t in ids2 ensures ids2[t] == IdsOn(records, t, i + 1) {
      IdsOnStep(records, t, i);
    }
    forall t | t !in ids2 ensures IdsOn(records, t, i + 1) == [] {
      IdsOnStep(records, t, i);
    }
  }

  /**
   * `topic_map` in `build_html` and `build_human_html`: the dict's keys in
   * insertion order (`topics`) and its lists (`idsByTopic`). Topics come in
   * the order they are first seen, and each topic lists the ids of its
   * records in record order.
   */
  method TopicNavigation(records: seq<NavRecord>) returns (topics: seq<string>, idsByTopic: map<string, seq<string>>)
    ensures topics == Dedup(Topics(records, |records|))
    ensures forall t :: t in idsByTopic <==> t in topics
    ensures forall t :: t in idsByTopic ==> idsByTopic[t] == IdsOn(records, t, |records|)
  {
    topics, idsByTopic := [], map[];
    for i := 0 to |records|
      invariant NavTopics(records, i, topics)
      invariant NavKeys(topics, idsByTopic)
      invariant NavIds(records, i, idsByTopic)
    {
      var id := IdOf(records[i], i + 1);
      var topic := TopicOf(records[i]);
      var ids := if topic in idsByTopic then idsByTopic[topic] else [];
      NavTopicsStep(records, i, topics, idsByTopic);
      NavKeysStep(topics, idsByTopic, topic, ids + [id]);
      NavIdsStep(records, i, idsByTopic);
      if topic !in idsByTopic {
        topics := topics + [topic];
      }
      idsByTopic := idsByTopic[topic := ids + [id]];
    }
  }

  /**
   * The navigation lists every record exactly where it belongs: a topic's list
   * holds the id of each record on that topic, and every id in it is the id of
   * a record on that topic.
   */
  lemma IdsOnListsRecords(records: seq<NavRecord>, topic: string, n: nat)
    requires n <= |records|
    ensures forall k :: 0 <= k < n && TopicOf(records[k]) == topic ==> IdOf(records[k], k + 1) in IdsOn(records, topic, n)
    ensures forall id :: id in IdsOn(records, topic, n) ==>
              exists k :: 0 <= k < n && TopicOf(records[k]) == topic && IdOf(records[k], k + 1) == id
    ensures |IdsOn(records, topic, n)| <= n
  {
    IdsOnHoldsEveryRecord(records, topic, n);
    IdsOnHoldsOnlyRecords(records, topic, n);
  }

  lemma {:induction false} IdsOnHoldsEveryRecord(records: seq<NavRecord>, topic: string, n: nat)
    requires n <= |records|
    ensures forall k :: 0 <= k < n && TopicOf(records[k]) == topic ==> IdOf(records[k], k + 1) in IdsOn(records, topic, n)
  {
    if n > 0 {
      IdsOnHoldsEveryRecord(records, topic, n - 1);
      IdsOnStep(records, topic, n - 1);
      var ids := IdsOn(records, topic, n);
      forall k | 0 <= k < n && TopicOf(records[k]) == topic ensures IdOf(records[k], k + 1) in ids {
        if k == n - 1 {
          assert ids[|ids| - 1] == IdOf(records[k], k + 1);
        }
      }
    }
  }

  lemma {:induction false} IdsOnHoldsOnlyRecords(records: seq<NavRecord>, topic: string, n: nat)
    requires n <= |records|
    ensures forall id :: id in IdsOn(records, topic, n) ==>
              exists k :: 0 <= k < n && TopicOf(records[k]) == topic && IdOf(records[k], k + 1) == id
    ensures |IdsOn(records, topic, n)| <= n
  {
    if n > 0 {
      IdsOnHoldsOnlyRecords(records, topic, n - 1);
      IdsOnStep(records, topic, n - 1);
      var prev := IdsOn(records, topic, n - 1);
      forall id | id in IdsOn(records, topic, n)
        ensures exists k :: 0 <= k < n && TopicOf(records[k]) == topic && IdOf(records[k], k + 1) == id
      {
        if id !in prev {
          assert TopicOf(records[n - 1]) == topic && IdOf(records[n - 1], n) == id;
        }
      }
    }
  }

  /** Topics are listed once each, in the order of their first record, and every record's topic is listed. */
  lemma TopicsInFirstSeenOrder(records: seq<NavRecord>)
    ensures var ts := Topics(records, |records|);
            && NoDups(Dedup(ts))
            && (forall i, j :: 0 <= i < j < |Dedup(ts)| ==> FirstIndex(ts, Dedup(ts)[i]) < FirstIndex(ts, Dedup(ts)[j]))
            && (forall k :: 0 <= k < |records| ==> TopicOf(records[k]) in Dedup(ts))
  {
    var ts := Topics(records, |records|);
    DedupFirstSeenOrder(ts);
    forall k | 0 <= k < |records| ensures TopicOf(records[k]) in Dedup(ts) {
      assert ts[k] == TopicOf(records[k]);
    }
  }
}
