/**
 * Winner aggregation at the end of `run_debate`: the non-empty winners of the
 * kept verdicts are tallied, Side A wins ties, and the winning reason and
 * general summary come from the first verdict naming the final winner.
 */
module Aggregate {
  import opened Wrappers
  import opened Jury

  const SideA := Str("Side A")
  const SideB := Str("Side B")

  /** `[item.get("winner") for item in jury_parsed_list if item.get("winner")]` */
  function Winners(ps: seq<Verdict>): (ws: seq<Json>)
    ensures |ws| <= |ps|
    ensures forall k :: 0 <= k < |ws| ==> !Falsy(ws[k])
  {
    if ps == [] then []
    else (if Falsy(ps[0].winner) then [] else [ps[0].winner]) + Winners(ps[1..])
  }

  /** `winners.count(w)` */
  function Count(ws: seq<Json>, w: Json): (n: nat)
    ensures n <= |ws|
    ensures n == multiset(ws)[w]
    ensures n > 0 <==> w in ws
  {
    if ws == [] then 0
    else
      assert ws == [ws[0]] + ws[1..];
      (if ws[0] == w then 1 else 0) + Count(ws[1..], w)
  }

  /** The number of verdicts whose winner is `w`, independently of the filtering. */
  function CountWins(ps: seq<Verdict>, w: Json): (n: nat)
    ensures n <= |ps|
  {
    if ps == [] then 0 else (if ps[0].winner == w then 1 else 0) + CountWins(ps[1..], w)
  }

  /** `final_winner`: empty without winners, otherwise the majority with ties to Side A. */
  function FinalWinner(ps: seq<Verdict>): (w: string)
    ensures w == "" || w == "Side A" || w == "Side B"
  {
    var ws := Winners(ps);
    if ws == [] then ""
    else if Count(ws, SideA) >= Count(ws, SideB) then "Side A"
    else "Side B"
  }

  // ---------------------------------------------------------------------------
  // Counting
  // ---------------------------------------------------------------------------

  /** Dropping the falsy winners does not change how often a truthy one is counted. */
  lemma {:induction false} CountWinnersAgrees(ps: seq<Verdict>, w: Json)
    requires !Falsy(w)
    ensures Count(Winners(ps), w) == CountWins(ps, w)
  {
    if ps != [] {
      CountWinnersAgrees(ps[1..], w);
      var head := if Falsy(ps[0].winner) then [] else [ps[0].winner];
      CountAppend(head, Winners(ps[1..]), w);
    }
  }

  lemma {:induction false} CountAppend(a: seq<Json>, b: seq<Json>, w: Json)
    ensures Count(a + b, w) == Count(a, w) + Count(b, w)
  {
    if a != [] {
      assert (a + b)[1..] == a[1..] + b;
      CountAppend(a[1..], b, w);
    } else {
      assert a + b == b;
    }
  }

  /** There are no winners exactly when every verdict's winner is falsy. */
  lemma {:induction false} WinnersEmptyIff(ps: seq<Verdict>)
    ensures Winners(ps) == [] <==> forall k :: 0 <= k < |ps| ==> Falsy(ps[k].winner)
  {
    if ps != [] {
      WinnersEmptyIff(ps[1..]);
      assert forall k :: 1 <= k < |ps| ==> ps[k].winner == ps[1..][k - 1].winner;
    }
  }

  /**
   * The two tallies never exceed the number of verdicts, and reach it exactly
   * when every verdict names a side.
   */
  lemma {:induction false} TalliesBounded(ps: seq<Verdict>)
    ensures CountWins(ps, SideA) + CountWins(ps, SideB) <= |ps|
    ensures CountWins(ps, SideA) + CountWins(ps, SideB) == |ps| <==>
              forall k :: 0 <= k < |ps| ==> ps[k].winner == SideA || ps[k].winner == SideB
  {
    if ps != [] {
      TalliesBounded(ps[1..]);
      assert forall k :: 1 <= k < |ps| ==> ps[k].winner == ps[1..][k - 1].winner;
    }
  }

  /** `winner_counts` counts each verdict at most once, so its two entries sum to at most the number of judges kept. */
  lemma WinnerCountsBounded(ps: seq<Verdict>)
    ensures Count(Winners(ps), SideA) + Count(Winners(ps), SideB) <= |ps|
    ensures (forall k :: 0 <= k < |ps| ==> IsValid(ps[k])) ==>
              Count(Winners(ps), SideA) + Count(Winners(ps), SideB) == |ps|
  {
    CountWinnersAgrees(ps, SideA);
    CountWinnersAgrees(ps, SideB);
    TalliesBounded(ps);
  }

  // ---------------------------------------------------------------------------
  // The final winner
  // ---------------------------------------------------------------------------

  /** The final winner is empty exactly when no verdict has a truthy winner. */
  lemma FinalEmptyIff(ps: seq<Verdict>)
    ensures FinalWinner(ps) == "" <==> forall k :: 0 <= k < |ps| ==> Falsy(ps[k].winner)
  {
    WinnersEmptyIff(ps);
  }

  /** With some winner, Side A wins exactly when it has at least as many votes as Side B: ties go to Side A. */
  lemma {:induction false} FinalIsMajority(ps: seq<Verdict>)
    requires exists k :: 0 <= k < |ps| && !Falsy(ps[k].winner)
    ensures FinalWinner(ps) == "Side A" <==> CountWins(ps, SideA) >= CountWins(ps, SideB)
    ensures FinalWinner(ps) == "Side B" <==> CountWins(ps, SideA) < CountWins(ps, SideB)
  {
    var ws := Winners(ps);
    assert ws != [] by {
      WinnersEmptyIff(ps);
    }
    CountWinnersAgrees(ps, SideA);
    CountWinnersAgrees(ps, SideB);
  }

  lemma {:induction false} CountWinsPositive(ps: seq<Verdict>, w: Json)
    requires CountWins(ps, w) > 0
    ensures exists k :: 0 <= k < |ps| && ps[k].winner == w
  {
    if ps[0].winner != w {
      CountWinsPositive(ps[1..], w);
      var k :| 0 <= k < |ps[1..]| && ps[1..][k].winner == w;
      assert ps[k + 1].winner == w;
    }
  }

  /** When every kept verdict is valid and there is one, some verdict names the final winner. */
  lemma ValidVerdictsMatchFinal(ps: seq<Verdict>)
    requires |ps| > 0
    requires forall k :: 0 <= k < |ps| ==> IsValid(ps[k])
    ensures exists k :: 0 <= k < |ps| && ps[k].winner == Str(FinalWinner(ps))
  {
    assert !Falsy(ps[0].winner);
    FinalIsMajority(ps);
    TalliesBounded(ps);
    if FinalWinner(ps) == "Side A" {
      CountWinsPositive(ps, SideA);
    } else {
      CountWinsPositive(ps, SideB);
    }
  }

  // ---------------------------------------------------------------------------
  // The representative verdict
  // ---------------------------------------------------------------------------

  /** The position of the first verdict whose winner is `w`. */
  function FirstWithWinner(ps: seq<Verdict>, w: Json): (k: Option<nat>)
    ensures k.Some? ==> k.value < |ps| && ps[k.value].winner == w
    ensures k.Some? ==> forall j :: 0 <= j < k.value ==> ps[j].winner != w
    ensures k.None? ==> forall j :: 0 <= j < |ps| ==> ps[j].winner != w
  {
    if ps == [] then None
    else if ps[0].winner == w then Some(0)
    else
      match FirstWithWinner(ps[1..], w)
      case None => None
      case Some(j) => Some(j + 1)
  }

  lemma {:induction false} FirstWithWinnerIs(ps: seq<Verdict>, w: Json, k: nat)
    requires k <= |ps|
    requires forall j :: 0 <= j < k ==> ps[j].winner != w
    requires k < |ps| ==> ps[k].winner == w
    ensures k < |ps| ==> FirstWithWinner(ps, w) == Some(k)
    ensures k == |ps| ==> FirstWithWinner(ps, w) == None
  {
    if k > 0 {
      FirstWithWinnerIs(ps[1..], w, k - 1);
    }
  }

  /** `x or ""` */
  function OrEmpty(x: Json): Json {
    if Falsy(x) then Str("") else x
  }

  /**
   * The loop over `jury_parsed_list` that picks `winning_reason` and
   * `general`: the first verdict whose winner equals the final winner
   * supplies both (a falsy value reads as ""), and the loop stops there.
   */
  method SelectRepresentative(ps: seq<Verdict>, finalWinner: string) returns (reason: Json, general: Json)
    ensures FirstWithWinner(ps, Str(finalWinner)).None? ==> reason == Str("") && general == Str("")
    ensures FirstWithWinner(ps, Str(finalWinner)).Some? ==>
              var k := FirstWithWinner(ps, Str(finalWinner)).value;
              reason == OrEmpty(ps[k].reasoning) && general == OrEmpty(ps[k].general)
  {
    reason, general := Str(""), Str("");
    var i := 0;
    while i < |ps|
      invariant 0 <= i <= |ps|
      invariant forall j :: 0 <= j < i ==> ps[j].winner != Str(finalWinner)
    {
      if ps[i].winner == Str(finalWinner) {
        FirstWithWinnerIs(ps, Str(finalWinner), i);
        reason := if Falsy(ps[i].reasoning) then reason else ps[i].reasoning;
        general := if Falsy(ps[i].general) then general else ps[i].general;
        return;
      }
      i := i + 1;
    }
    FirstWithWinnerIs(ps, Str(finalWinner), |ps|);
  }

  /** The representative is never a later verdict: its winning reason ignores every verdict after the first match. */
  lemma RepresentativeIgnoresLater(ps: seq<Verdict>, rest: seq<Verdict>, w: Json)
    requires FirstWithWinner(ps, w).Some?
    ensures FirstWithWinner(ps + rest, w) == FirstWithWinner(ps, w)
  {
    var k := FirstWithWinner(ps, w).value;
    FirstWithWinnerIs(ps + rest, w, k);
  }
}
