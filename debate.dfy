/**
 * `run_debate`: four rounds in which the two debaters answer in turn, each
 * seeing the opponent's previous round; then every judge evaluates the two
 * transcripts; then the verdicts are aggregated into one record.
 *
 * Every backend call goes through `Oracle`: given the model name and the
 * message thread it returns the reply, or `None` when the call raises. Prompt
 * files are the templates of `Setup`; JSON decoding is `decode`; the random
 * id generator is the sequence of its draws.
 */
module Debate {
  import opened Wrappers
  import opened Text
  import opened Usage
  import opened Prompts
  import opened Jury
  import opened Aggregate
  import opened Ids

  const Rounds := 4
  const Lang := "en"
  const JudgeSystemPrompt := "You are a neutral debate judge."

  datatype Role = System | User | Assistant

  datatype Message = Message(role: Role, content: string)

  /** A backend reply: `message.content` (possibly null) and the optional usage dictionary. */
  datatype Reply = Reply(content: Option<string>, usage: Option<UsagePayload>)

  type Oracle = (string, seq<Message>) -> Option<Reply>

  /** The inputs of one run: models, topic, the loaded prompt files and the judges. */
  datatype Setup = Setup(
    modelA: string,
    modelB: string,
    topic: string,
    conditions: string,
    systemPrompt: string,
    templatesA: seq<string>,
    templatesB: seq<string>,
    judgeTemplate: string,
    judges: seq<string>,
    blind: bool)

  /** One prompt file per round and side. */
  predicate ValidSetup(s: Setup) {
    |s.templatesA| == Rounds && |s.templatesB| == Rounds
  }

  // ---------------------------------------------------------------------------
  // The two sides
  // ---------------------------------------------------------------------------

  /** A's turn in a round comes first in the log, B's second. */
  function Offset(side: Side): nat {
    if side == A then 0 else 1
  }

  function Model(s: Setup, side: Side): string {
    if side == A then s.modelA else s.modelB
  }

  function OpponentLabel(side: Side): string {
    if side == A then "MODEL_B" else "MODEL_A"
  }

  /** The prompt file of `side` for round `i`. */
  function Template(s: Setup, side: Side, i: nat): string
    requires ValidSetup(s) && 1 <= i <= Rounds
  {
    if side == A then s.templatesA[i - 1] else s.templatesB[i - 1]
  }

  /** The prompt of `side` in round `i`, given the opponent's history at that moment. */
  function PromptFor(s: Setup, side: Side, i: nat, opponentHistory: seq<string>): string
    requires ValidSetup(s) && 1 <= i <= Rounds
  {
    Rendered(Template(s, side, i), RoundVariables(s.topic, s.conditions, i, opponentHistory, OpponentLabel(side)))
  }

  /** A side's `history_*` (the contents of its replies) and `messages_*` (its thread). */
  datatype SideState = SideState(history: seq<string>, messages: seq<Message>)

  /** An entry of `rounds_log`; the duration and the always-empty reasoning are not modelled. */
  datatype RoundEntry = RoundEntry(id: nat, side: Side, prompt: string, content: string, usage: UsageStats)

  datatype Transcript = Transcript(a: SideState, b: SideState, log: seq<RoundEntry>, totals: UsageStats)

  function Me(t: Transcript, side: Side): SideState {
    if side == A then t.a else t.b
  }

  function Opponent(t: Transcript, side: Side): SideState {
    if side == A then t.b else t.a
  }

  function Usages(log: seq<RoundEntry>): (us: seq<UsageStats>)
    ensures |us| == |log|
    ensures forall k :: 0 <= k < |log| ==> us[k] == log[k].usage
  {
    seq(|log|, k requires 0 <= k < |log| => log[k].usage)
  }

  /** The backend answered, and the entry records its content (`content or ""`) and its usage. */
  predicate Answered(reply: Option<Reply>, e: RoundEntry) {
    reply.Some? && ContentOrEmpty(reply.value.content) == e.content && ExtractUsage(reply.value.usage) == e.usage
  }

  /** Where turn `j` (0-based) of `side` sits in the log: A's entry of a round first, B's second. */
  function Slot(side: Side, j: nat): nat {
    2 * j + Offset(side)
  }

  /**
   * Turn `j` of `side` left its trace: the entry at its slot is round `j + 1`
   * of that side with the reply's content, and the thread holds the prompt
   * and then the reply.
   */
  predicate Placed(side: Side, me: SideState, log: seq<RoundEntry>, j: nat) {
    && j < Rounds
    && j < |me.history|
    && 2 * j + 2 < |me.messages|
    && Slot(side, j) < |log|
    && log[Slot(side, j)].id == j + 1
    && log[Slot(side, j)].side == side
    && log[Slot(side, j)].content == me.history[j]
    && me.messages[2 * j + 1] == Message(User, log[Slot(side, j)].prompt)
    && me.messages[2 * j + 2] == Message(Assistant, log[Slot(side, j)].content)
  }

  /** The prompt of turn `j` was rendered from the opponent's history as it stood then. */
  predicate Prompted(s: Setup, side: Side, opponentHistory: seq<string>, log: seq<RoundEntry>, j: nat)
    requires ValidSetup(s)
  {
    && j < Rounds
    && j + Offset(side) <= |opponentHistory|
    && Slot(side, j) < |log|
    && log[Slot(side, j)].prompt == PromptFor(s, side, j + 1, opponentHistory[..j + Offset(side)])
  }

  /** The entry of turn `j` is the backend's answer to the thread up to its prompt. */
  predicate Replied(s: Setup, o: Oracle, side: Side, me: SideState, log: seq<RoundEntry>, j: nat) {
    && 2 * j + 2 <= |me.messages|
    && Slot(side, j) < |log|
    && Answered(o(Model(s, side), me.messages[..2 * j + 2]), log[Slot(side, j)])
  }

  /** Every turn `side` has taken so far happened as the source does it. */
  predicate SideOk(s: Setup, o: Oracle, side: Side, me: SideState, opponentHistory: seq<string>, log: seq<RoundEntry>)
    requires ValidSetup(s)
  {
    && (forall j :: 0 <= j < |me.history| ==> Placed(side, me, log, j))
    && (forall j :: 0 <= j < |me.history| ==> Prompted(s, side, opponentHistory, log, j))
    && (forall j :: 0 <= j < |me.history| ==> Replied(s, o, side, me, log, j))
  }

  /** The state of `run_debate` after `c` backend calls of the round loop. */
  predicate Progress(s: Setup, o: Oracle, t: Transcript, c: nat)
    requires ValidSetup(s)
  {
    && c <= 2 * Rounds
    && |t.log| == c
    && |t.a.history| == (c + 1) / 2
    && |t.b.history| == c / 2
    && |t.a.messages| == 2 * |t.a.history| + 1
    && |t.b.messages| == 2 * |t.b.history| + 1
    && t.a.messages[0] == Message(System, s.systemPrompt)
    && t.b.messages[0] == Message(System, s.systemPrompt)
    && SideOk(s, o, A, t.a, t.b.history, t.log)
    && SideOk(s, o, B, t.b, t.a.history, t.log)
    && t.totals == Sum(Usages(t.log))
  }

  /** A recorded turn stays recorded when the transcript grows around it. */
  /** A placed turn stays placed when the thread, the history and the log grow. */
  lemma PlacedExtends(side: Side, me: SideState, me2: SideState, log: seq<RoundEntry>, log2: seq<RoundEntry>, j: nat)
    requires me.history <= me2.history && me.messages <= me2.messages && log <= log2
    requires Placed(side, me, log, j)
    ensures Placed(side, me2, log2, j)
  {
  }

  /** A prompt stays bound to the opponent's history as it stood, when that history and the log grow. */
  lemma PromptedExtends(s: Setup, side: Side, opp: seq<string>, opp2: seq<string>,
                        log: seq<RoundEntry>, log2: seq<RoundEntry>, j: nat)
    requires ValidSetup(s)
    requires opp <= opp2 && log <= log2
    requires Prompted(s, side, opp, log, j)
    ensures Prompted(s, side, opp2, log2, j)
  {
    assert opp2[..j + Offset(side)] == opp[..j + Offset(side)];
  }

  /** A reply stays the answer to the thread up to its prompt, when the thread and the log grow. */
  lemma RepliedExtends(s: Setup, o: Oracle, side: Side, me: SideState, me2: SideState,
                       log: seq<RoundEntry>, log2: seq<RoundEntry>, j: nat)
    requires me.messages <= me2.messages && log <= log2
    requires Replied(s, o, side, me, log, j)
    ensures Replied(s, o, side, me2, log2, j)
  {
    assert me2.messages[..2 * j + 2] == me.messages[..2 * j + 2];
  }

  /** The turns of the side that waits stay recorded while the other side's history and the log grow. */
  lemma SideOkOther(s: Setup, o: Oracle, side: Side, me: SideState,
                    opp: seq<string>, opp2: seq<string>, log: seq<RoundEntry>, log2: seq<RoundEntry>)
    requires ValidSetup(s)
    requires opp <= opp2 && log <= log2
    requires SideOk(s, o, side, me, opp, log)
    ensures SideOk(s, o, side, me, opp2, log2)
  {
    forall j | 0 <= j < |me.history| ensures Placed(side, me, log2, j) {
      PlacedExtends(side, me, me, log, log2, j);
    }
    forall j | 0 <= j < |me.history| ensures Prompted(s, side, opp2, log2, j) {
      PromptedExtends(s, side, opp, opp2, log, log2, j);
    }
    forall j | 0 <= j < |me.history| ensures Replied(s, o, side, me, log2, j) {
      RepliedExtends(s, o, side, me, me, log, log2, j);
    }
  }

  // ---------------------------------------------------------------------------
  // The round loop
  // ---------------------------------------------------------------------------

  /**
   * One turn of the round loop: render the prompt from the opponent's history,
   * append it to the thread, call the backend, append the reply to the
   * history and the thread, log the entry and add its usage. A failing call
   * leaves everything as it was.
   */
  method TakeTurn(s: Setup, o: Oracle, t: Transcript, side: Side, i: nat) returns (t2: Transcript, ok: bool)
    requires ValidSetup(s) && 1 <= i <= Rounds
    requires Progress(s, o, t, Slot(side, i - 1))
    ensures ok ==> Progress(s, o, t2, Slot(side, i - 1) + 1)
    ensures ok ==> t2.log == t.log + [t2.log[|t.log|]] && Opponent(t2, side) == Opponent(t, side)
    ensures !ok ==> t2 == t
    ensures !ok <==> o(Model(s, side), Me(t, side).messages
                        + [Message(User, PromptFor(s, side, i, Opponent(t, side).history))]).None?
  {
    var me := Me(t, side);
    var opp := Opponent(t, side).history;
    var prompt := RenderPrompt(Template(s, side, i), RoundVariables(s.topic, s.conditions, i, opp, OpponentLabel(side)));
    var asked := me.messages + [Message(User, prompt)];
    var reply := o(Model(s, side), asked);
    if reply.None? {
      return t, false;
    }
    var content := ContentOrEmpty(reply.value.content);
    var usage := ExtractUsage(reply.value.usage);
    var me2 := SideState(me.history + [content], asked + [Message(Assistant, content)]);
    var log2 := t.log + [RoundEntry(i, side, prompt, content, usage)];
    t2 := if side == A then Transcript(me2, t.b, log2, Add(t.totals, usage))
          else Transcript(t.a, me2, log2, Add(t.totals, usage));
    ok := true;
    TurnRecorded(s, o, t, side, i, prompt, reply.value, t2);
  }

  /** The new turn itself is recorded as the source does it. */
  lemma NewTurnRecorded(s: Setup, o: Oracle, side: Side, i: nat, me: SideState, opp: seq<string>,
                        log: seq<RoundEntry>, prompt: string, reply: Reply, me2: SideState, log2: seq<RoundEntry>)
    requires ValidSetup(s) && 1 <= i <= Rounds
    requires |me.history| == i - 1 && |me.messages| == 2 * (i - 1) + 1
    requires |log| == Slot(side, i - 1) && |opp| == i - 1 + Offset(side)
    requires prompt == PromptFor(s, side, i, opp)
    requires o(Model(s, side), me.messages + [Message(User, prompt)]) == Some(reply)
    requires me2 == SideState(me.history + [ContentOrEmpty(reply.content)],
                              me.messages + [Message(User, prompt), Message(Assistant, ContentOrEmpty(reply.content))])
    requires log2 == log + [RoundEntry(i, side, prompt, ContentOrEmpty(reply.content), ExtractUsage(reply.usage))]
    ensures Placed(side, me2, log2, i - 1)
    ensures Prompted(s, side, opp, log2, i - 1)
    ensures Replied(s, o, side, me2, log2, i - 1)
  {
    assert me2.messages[..2 * (i - 1) + 2] == me.messages + [Message(User, prompt)];
    assert opp[..i - 1 + Offset(side)] == opp;
  }

  /** The side that takes a turn keeps its earlier turns and adds the new one. */
  lemma SideGrows(s: Setup, o: Oracle, side: Side, me: SideState, me2: SideState, opp: seq<string>,
                  log: seq<RoundEntry>, log2: seq<RoundEntry>)
    requires ValidSetup(s)
    requires me.history <= me2.history && me.messages <= me2.messages && log <= log2
    requires |me2.history| == |me.history| + 1
    requires SideOk(s, o, side, me, opp, log)
    requires var n := |me.history|;
             Placed(side, me2, log2, n) && Prompted(s, side, opp, log2, n) && Replied(s, o, side, me2, log2, n)
    ensures SideOk(s, o, side, me2, opp, log2)
  {
    PlacedGrows(side, me, me2, log, log2);
    PromptedGrows(s, side, |me.history|, opp, log, log2);
    RepliedGrows(s, o, side, me, me2, log, log2);
  }

  lemma PlacedGrows(side: Side, me: SideState, me2: SideState, log: seq<RoundEntry>, log2: seq<RoundEntry>)
    requires me.history <= me2.history && me.messages <= me2.messages && log <= log2
    requires |me2.history| == |me.history| + 1
    requires forall j :: 0 <= j < |me.history| ==> Placed(side, me, log, j)
    requires Placed(side, me2, log2, |me.history|)
    ensures forall j :: 0 <= j < |me2.history| ==> Placed(side, me2, log2, j)
  {
    forall j | 0 <= j < |me2.history| ensures Placed(side, me2, log2, j) {
      if j < |me.history| {
        PlacedExtends(side, me, me2, log, log2, j);
      }
    }
  }

  lemma PromptedGrows(s: Setup, side: Side, n: nat, opp: seq<string>, log: seq<RoundEntry>, log2: seq<RoundEntry>)
    requires ValidSetup(s)
    requires log <= log2
    requires forall j :: 0 <= j < n ==> Prompted(s, side, opp, log, j)
    requires Prompted(s, side, opp, log2, n)
    ensures forall j :: 0 <= j < n + 1 ==> Prompted(s, side, opp, log2, j)
  {
    forall j | 0 <= j < n + 1 ensures Prompted(s, side, opp, log2, j) {
      if j < n {
        PromptedExtends(s, side, opp, opp, log, log2, j);
      }
    }
  }

  lemma RepliedGrows(s: Setup, o: Oracle, side: Side, me: SideState, me2: SideState,
                     log: seq<RoundEntry>, log2: seq<RoundEntry>)
    requires me.messages <= me2.messages && log <= log2
    requires |me2.history| == |me.history| + 1
    requires forall j :: 0 <= j < |me.history| ==> Replied(s, o, side, me, log, j)
    requires Replied(s, o, side, me2, log2, |me.history|)
    ensures forall j :: 0 <= j < |me2.history| ==> Replied(s, o, side, me2, log2, j)
  {
    forall j | 0 <= j < |me2.history| ensures Replied(s, o, side, me2, log2, j) {
      if j < |me.history| {
        RepliedExtends(s, o, side, me, me2, log, log2, j);
      }
    }
  }

  /** The proof that a successful turn keeps `Progress`, one call further. */
  lemma TurnRecorded(s: Setup, o: Oracle, t: Transcript, side: Side, i: nat, prompt: string, reply: Reply,
                     t2: Transcript)
    requires ValidSetup(s) && 1 <= i <= Rounds
    requires Progress(s, o, t, Slot(side, i - 1))
    requires prompt == PromptFor(s, side, i, Opponent(t, side).history)
    requires o(Model(s, side), Me(t, side).messages + [Message(User, prompt)]) == Some(reply)
    requires var content := ContentOrEmpty(reply.content);
             && Me(t2, side) == SideState(Me(t, side).history + [content],
                                          Me(t, side).messages + [Message(User, prompt), Message(Assistant, content)])
             && Opponent(t2, side) == Opponent(t, side)
             && t2.log == t.log + [RoundEntry(i, side, prompt, content, ExtractUsage(reply.usage))]
             && t2.totals == Add(t.totals, ExtractUsage(reply.usage))
    ensures Progress(s, o, t2, Slot(side, i - 1) + 1)
  {
    SlotHalves(side, i);
    var me, me2 := Me(t, side), Me(t2, side);
    var opp := Opponent(t, side).history;
    LogTotals(t.log, t2.log, t.totals, ExtractUsage(reply.usage));
    NewTurnRecorded(s, o, side, i, me, opp, t.log, prompt, reply, me2, t2.log);
    assert me.history <= me2.history && me.messages <= me2.messages && t.log <= t2.log;
    SideGrows(s, o, side, me, me2, opp, t.log, t2.log);
    if side == A {
      SideOkOther(s, o, B, t.b, me.history, me2.history, t.log, t2.log);
    } else {
      SideOkOther(s, o, A, t.a, me.history, me2.history, t.log, t2.log);
    }
  }

  /** The thread lengths `Progress` fixes, before and after turn `i` of `side`. */
  lemma SlotHalves(side: Side, i: nat)
    requires 1 <= i
    ensures var c := Slot(side, i - 1);
            && c / 2 == i - 1 && (c + 1) / 2 == i - 1 + Offset(side)
            && (c + 1 + 1) / 2 == i
  {
  }

  /** Appending an entry adds its usage to the totals of the log. */
  lemma LogTotals(log: seq<RoundEntry>, log2: seq<RoundEntry>, totals: UsageStats, usage: UsageStats)
    requires totals == Sum(Usages(log))
    requires |log2| == |log| + 1 && log2[..|log|] == log && log2[|log|].usage == usage
    ensures Add(totals, usage) == Sum(Usages(log2))
  {
    assert Usages(log2)[..|log|] == Usages(log);
  }

  /** Who failed, when a debater's backend call raised. */
  datatype Turn = Turn(round: nat, side: Side)

  function InitialSide(s: Setup): SideState {
    SideState([], [Message(System, s.systemPrompt)])
  }

  /**
   * The round loop of `run_debate`: for rounds 1 to 4, A's turn then B's.
   * Either all eight turns happen, or the first failing call is reported
   * with the transcript up to it.
   */
  method RunRounds(s: Setup, o: Oracle) returns (t: Transcript, failed: Option<Turn>)
    requires ValidSetup(s)
    ensures failed.None? ==> Progress(s, o, t, 2 * Rounds)
    ensures failed.Some? ==> FailedAt(s, o, t, failed.value)
  {
    t := Transcript(InitialSide(s), InitialSide(s), [], Zero);
    InitialProgress(s, o);
    for i := 1 to Rounds + 1
      invariant Progress(s, o, t, 2 * (i - 1))
    {
      t, failed := TakeRound(s, o, t, i);
      if failed.Some? {
        return;
      }
    }
    failed := None;
  }

  /** The run stopped at `turn`: every earlier turn is recorded, and the backend call of `turn` failed. */
  predicate FailedAt(s: Setup, o: Oracle, t: Transcript, turn: Turn)
    requires ValidSetup(s)
  {
    var Turn(i, side) := turn;
    && 1 <= i <= Rounds
    && Progress(s, o, t, Slot(side, i - 1))
    && o(Model(s, side), Me(t, side).messages
           + [Message(User, PromptFor(s, side, i, Opponent(t, side).history))]).None?
  }

  lemma InitialProgress(s: Setup, o: Oracle)
    requires ValidSetup(s)
    ensures Progress(s, o, Transcript(InitialSide(s), InitialSide(s), [], Zero), 0)
  {
  }

  /** Round `i` of the loop: A's turn, then B's, stopping at the first failing call. */
  method TakeRound(s: Setup, o: Oracle, t: Transcript, i: nat) returns (t2: Transcript, failed: Option<Turn>)
    requires ValidSetup(s) && 1 <= i <= Rounds
    requires Progress(s, o, t, 2 * (i - 1))
    ensures failed.None? ==> Progress(s, o, t2, 2 * i)
    ensures failed.Some? ==> FailedAt(s, o, t2, failed.value)
  {
    assert Slot(A, i - 1) == 2 * (i - 1);
    t2, failed := TurnOrStop(s, o, t, A, i);
    if failed.Some? {
      return;
    }
    assert Slot(A, i - 1) + 1 == Slot(B, i - 1);
    t2, failed := TurnOrStop(s, o, t2, B, i);
    assert Slot(B, i - 1) + 1 == 2 * i;
  }

  /** One turn of the loop, reporting the turn when its backend call fails. */
  method TurnOrStop(s: Setup, o: Oracle, t: Transcript, side: Side, i: nat) returns (t2: Transcript, failed: Option<Turn>)
    requires ValidSetup(s) && 1 <= i <= Rounds
    requires Progress(s, o, t, Slot(side, i - 1))
    ensures failed.None? ==> Progress(s, o, t2, Slot(side, i - 1) + 1)
    ensures failed.Some? ==> failed.value == Turn(i, side) && FailedAt(s, o, t2, failed.value)
  {
    var ok;
    t2, ok := TakeTurn(s, o, t, side, i);
    failed := if ok then None else Some(Turn(i, side));
  }

  // ---------------------------------------------------------------------------
  // What the finished round loop guarantees
  // ---------------------------------------------------------------------------

  /** Entry `k` of the log is the turn at slot `k`: round `k / 2 + 1`, of A when `k` is even. */
  lemma EntryAt(s: Setup, o: Oracle, t: Transcript, c: nat, k: nat)
    requires ValidSetup(s) && Progress(s, o, t, c) && k < c
    ensures t.log[k].id == k / 2 + 1 && t.log[k].side == (if k % 2 == 0 then A else B)
  {
    if k % 2 == 0 {
      assert Placed(A, t.a, t.log, k / 2);
    } else {
      assert Placed(B, t.b, t.log, k / 2);
    }
  }

  /** `rounds_log` is in round-major order, A before B: entry `k` is round `k / 2 + 1` of side A when `k` is even. */
  lemma LogOrder(s: Setup, o: Oracle, t: Transcript, c: nat)
    requires ValidSetup(s) && Progress(s, o, t, c)
    ensures forall k :: 0 <= k < c ==>
              t.log[k].id == k / 2 + 1 && t.log[k].side == (if k % 2 == 0 then A else B)
  {
    forall k | 0 <= k < c
      ensures t.log[k].id == k / 2 + 1 && t.log[k].side == (if k % 2 == 0 then A else B)
    {
      EntryAt(s, o, t, c, k);
    }
  }

  /**
   * After the whole loop: eight entries, and each thread is the system
   * prompt followed by four (user, assistant) pairs.
   */
  lemma CompleteShape(s: Setup, o: Oracle, t: Transcript)
    requires ValidSetup(s) && Progress(s, o, t, 2 * Rounds)
    ensures |t.log| == 8
    ensures |t.a.messages| == 9 && |t.b.messages| == 9
    ensures t.a.messages[0].role == System && t.b.messages[0].role == System
    ensures forall j :: 0 <= j < Rounds ==>
              && t.a.messages[2 * j + 1].role == User && t.a.messages[2 * j + 2].role == Assistant
              && t.b.messages[2 * j + 1].role == User && t.b.messages[2 * j + 2].role == Assistant
  {
    forall j | 0 <= j < Rounds
      ensures t.a.messages[2 * j + 1].role == User && t.a.messages[2 * j + 2].role == Assistant
      ensures t.b.messages[2 * j + 1].role == User && t.b.messages[2 * j + 2].role == Assistant
    {
      assert Placed(A, t.a, t.log, j);
      assert Placed(B, t.b, t.log, j);
    }
  }

  /** The variables every round prompt binds. */
  function BaseVariables(s: Setup): seq<Binding> {
    [("TOPIC", s.topic), ("CONDITIONS", s.conditions)]
  }

  /** The log position of the opponent's entry one round before the entry at `k`. */
  function PreviousOpponentSlot(side: Side, k: nat): int {
    if side == A then k - 1 else k - 3
  }

  /** A prompt of round 1 binds only the topic and the conditions. */
  lemma OpeningPrompt(s: Setup, o: Oracle, t: Transcript, c: nat, k: nat)
    requires ValidSetup(s) && Progress(s, o, t, c) && k < c && k < 2
    ensures t.log[k].id == 1
    ensures t.log[k].prompt == Rendered(Template(s, t.log[k].side, 1), BaseVariables(s))
  {
    EntryAt(s, o, t, c, k);
    var side := t.log[k].side;
    var opp := Opponent(t, side).history;
    assert Prompted(s, side, opp, t.log, 0);
    assert RoundVariables(s.topic, s.conditions, 1, opp[..Offset(side)], OpponentLabel(side)) == BaseVariables(s);
  }

  /** The prompt at slot `k` is rendered from the opponent's history as it stood before that turn. */
  lemma PromptAt(s: Setup, o: Oracle, t: Transcript, c: nat, k: nat)
    requires ValidSetup(s) && Progress(s, o, t, c) && k < c
    ensures var side, j := t.log[k].side, k / 2;
            && j + Offset(side) <= |Opponent(t, side).history|
            && t.log[k].prompt == PromptFor(s, side, j + 1, Opponent(t, side).history[..j + Offset(side)])
  {
    EntryAt(s, o, t, c, k);
    SlotOfEntry(k);
    var side := t.log[k].side;
    assert Prompted(s, side, Opponent(t, side).history, t.log, k / 2);
  }

  /** The slot of the turn that entry `k` records is `k` itself. */
  lemma SlotOfEntry(k: nat)
    ensures Slot(if k % 2 == 0 then A else B, k / 2) == k
  {
  }

  /** From round 2 on, the opponent's entry of the previous round holds the reply the prompt binds. */
  lemma PreviousOpponentEntry(s: Setup, o: Oracle, t: Transcript, c: nat, k: nat)
    requires ValidSetup(s) && Progress(s, o, t, c) && 2 <= k < c
    ensures var side, j, p := t.log[k].side, k / 2, PreviousOpponentSlot(t.log[k].side, k);
            && 0 <= p < k
            && j - 1 < |Opponent(t, side).history|
            && t.log[p].side != side
            && t.log[p].id == t.log[k].id - 1
            && t.log[p].content == Opponent(t, side).history[j - 1]
  {
    EntryAt(s, o, t, c, k);
    var side := t.log[k].side;
    var p := PreviousOpponentSlot(side, k);
    EntryAt(s, o, t, c, p);
    if side == A {
      assert Placed(B, t.b, t.log, k / 2 - 1);
    } else {
      assert Placed(A, t.a, t.log, k / 2 - 1);
    }
  }

  /** A prompt of a later round also binds the opponent's entry of the round before. */
  lemma AnsweringPrompt(s: Setup, o: Oracle, t: Transcript, c: nat, k: nat)
    requires ValidSetup(s) && Progress(s, o, t, c) && 2 <= k < c
    ensures 1 < t.log[k].id <= Rounds
    ensures var e, p := t.log[k], PreviousOpponentSlot(t.log[k].side, k);
            && 0 <= p < k
            && t.log[p].side != e.side
            && t.log[p].id == e.id - 1
            && e.prompt == Rendered(Template(s, e.side, e.id),
                                    BaseVariables(s) + [(OpponentKey(OpponentLabel(e.side), e.id - 1), t.log[p].content)])
  {
    EntryAt(s, o, t, c, k);
    PromptAt(s, o, t, c, k);
    PreviousOpponentEntry(s, o, t, c, k);
    var side, j := t.log[k].side, k / 2;
    var seen := Opponent(t, side).history[..j + Offset(side)];
    OpponentIsOneRoundBehind(j + 1, seen, OpponentLabel(side));
    assert seen[j - 1] == Opponent(t, side).history[j - 1];
  }

  /**
   * The opponent context of a turn is the opponent's entry of the previous
   * round: in round 1 a prompt binds only the topic and the conditions; in a
   * later round it also binds the opponent's reply of the round before, which
   * for A is the entry just before its own and for B the one three before.
   */
  lemma PromptSeesPreviousRound(s: Setup, o: Oracle, t: Transcript, c: nat, k: nat)
    requires ValidSetup(s) && Progress(s, o, t, c) && k < c
    ensures 1 <= t.log[k].id <= Rounds
    ensures t.log[k].id == 1 ==>
              t.log[k].prompt == Rendered(Template(s, t.log[k].side, 1), BaseVariables(s))
    ensures t.log[k].id > 1 ==>
              var e, p := t.log[k], PreviousOpponentSlot(t.log[k].side, k);
              && 0 <= p < k
              && t.log[p].side != e.side
              && t.log[p].id == e.id - 1
              && e.prompt == Rendered(Template(s, e.side, e.id),
                                      BaseVariables(s) + [(OpponentKey(OpponentLabel(e.side), e.id - 1), t.log[p].content)])
  {
    EntryAt(s, o, t, c, k);
    if k < 2 {
      OpeningPrompt(s, o, t, c, k);
    } else {
      AnsweringPrompt(s, o, t, c, k);
    }
  }

  // ---------------------------------------------------------------------------
  // The jury loop
  // ---------------------------------------------------------------------------

  /** An entry of `jury_results`. */
  datatype JuryEntry = JuryEntry(
    model: string,
    prompt: string,
    content: string,
    usage: UsageStats,
    blind: bool,
    sideMap: SideMap)

  /** What each judge is shown: the merged transcripts, swapped when the jury is blind. */
  function JuryPresentation(s: Setup, historyA: seq<string>, historyB: seq<string>): Presentation {
    Blind(MergeResponses(historyA), MergeResponses(historyB), s.blind)
  }

  function JuryVariables(s: Setup, p: Presentation): seq<Binding> {
    [("TOPIC", s.topic), ("CONDITIONS", s.conditions), ("SIDE_A_TEXT", p.shownA), ("SIDE_B_TEXT", p.shownB)]
  }

  function JuryPrompt(s: Setup, historyA: seq<string>, historyB: seq<string>): string {
    Rendered(s.judgeTemplate, JuryVariables(s, JuryPresentation(s, historyA, historyB)))
  }

  function JuryMessages(prompt: string): seq<Message> {
    [Message(System, JudgeSystemPrompt), Message(User, prompt)]
  }

  /** The reply of the judge running `model`. */
  function JudgeReply(s: Setup, o: Oracle, historyA: seq<string>, historyB: seq<string>, model: string): Option<Reply> {
    o(model, JuryMessages(JuryPrompt(s, historyA, historyB)))
  }

  /** The judge's de-blinded verdict when it is usable. */
  function JudgeOutcome(s: Setup, decode: string -> Option<Json>, historyA: seq<string>, historyB: seq<string>,
                        reply: Reply): Option<Verdict>
  {
    JudgeVerdict(ParseJuryResponse(ContentOrEmpty(reply.content), decode),
                 JuryPresentation(s, historyA, historyB).sideMap)
  }

  function JudgeEntry(s: Setup, historyA: seq<string>, historyB: seq<string>, model: string, reply: Reply): JuryEntry {
    JuryEntry(model, JuryPrompt(s, historyA, historyB), ContentOrEmpty(reply.content), ExtractUsage(reply.usage),
              s.blind, JuryPresentation(s, historyA, historyB).sideMap)
  }

  predicate AllAnswered(s: Setup, o: Oracle, historyA: seq<string>, historyB: seq<string>, judges: seq<string>) {
    forall m :: 0 <= m < |judges| ==> JudgeReply(s, o, historyA, historyB, judges[m]).Some?
  }

  /** The usage of every judge's call, kept verdict or not. */
  function JudgeUsages(s: Setup, o: Oracle, historyA: seq<string>, historyB: seq<string>, judges: seq<string>)
    : (us: seq<UsageStats>)
    requires AllAnswered(s, o, historyA, historyB, judges)
    ensures |us| == |judges|
  {
    if judges == [] then []
    else
      var n := |judges| - 1;
      JudgeUsages(s, o, historyA, historyB, judges[..n])
        + [ExtractUsage(JudgeReply(s, o, historyA, historyB, judges[n]).value.usage)]
  }

  /** The judges whose verdict is kept, in judge order, with their entries and verdicts. */
  function Kept(s: Setup, o: Oracle, decode: string -> Option<Json>, historyA: seq<string>, historyB: seq<string>,
                judges: seq<string>): (kept: seq<(JuryEntry, Verdict)>)
    requires AllAnswered(s, o, historyA, historyB, judges)
    ensures |kept| <= |judges|
    ensures forall q :: 0 <= q < |kept| ==> IsValid(kept[q].1)
  {
    if judges == [] then []
    else
      var n := |judges| - 1;
      var rest := Kept(s, o, decode, historyA, historyB, judges[..n]);
      var reply := JudgeReply(s, o, historyA, historyB, judges[n]).value;
      match JudgeOutcome(s, decode, historyA, historyB, reply)
      case None => rest
      case Some(v) => rest + [(JudgeEntry(s, historyA, historyB, judges[n], reply), v)]
  }

  /** `jury_results` and `jury_parsed_list` hold exactly the kept judges' entries and verdicts, in judge order. */
  predicate JuryRecorded(s: Setup, o: Oracle, decode: string -> Option<Json>, historyA: seq<string>,
                         historyB: seq<string>, judges: seq<string>, entries: seq<JuryEntry>, parsed: seq<Verdict>)
    requires AllAnswered(s, o, historyA, historyB, judges)
  {
    var kept := Kept(s, o, decode, historyA, historyB, judges);
    && |entries| == |parsed| == |kept|
    && forall q :: 0 <= q < |kept| ==> entries[q] == kept[q].0 && parsed[q] == kept[q].1
  }

  /** Every judge answered and gave a usable verdict. */
  predicate AllKept(s: Setup, o: Oracle, decode: string -> Option<Json>, historyA: seq<string>,
                    historyB: seq<string>, judges: seq<string>)
  {
    forall j :: 0 <= j < |judges| ==> JudgeKept(s, o, decode, historyA, historyB, judges[j])
  }

  /** Every judge is kept exactly when every judge's verdict is usable. */
  lemma KeptAllIff(s: Setup, o: Oracle, decode: string -> Option<Json>,
                   historyA: seq<string>, historyB: seq<string>, judges: seq<string>)
    requires AllAnswered(s, o, historyA, historyB, judges)
    ensures |Kept(s, o, decode, historyA, historyB, judges)| == |judges|
            <==> AllKept(s, o, decode, historyA, historyB, judges)
  {
    assert judges[..|judges|] == judges;
    KeptAllIffPrefix(s, o, decode, historyA, historyB, judges, |judges|);
  }

  lemma {:induction false} KeptAllIffPrefix(s: Setup, o: Oracle, decode: string -> Option<Json>,
                                            historyA: seq<string>, historyB: seq<string>, judges: seq<string>, n: nat)
    requires n <= |judges|
    requires AllAnswered(s, o, historyA, historyB, judges[..n])
    ensures |Kept(s, o, decode, historyA, historyB, judges[..n])| == n
            <==> AllKept(s, o, decode, historyA, historyB, judges[..n])
  {
    if n > 0 {
      var m := n - 1;
      UsagesStep(s, o, historyA, historyB, judges, m);
      assert judges[..n][m] == judges[m];
      KeptAllIffPrefix(s, o, decode, historyA, historyB, judges, m);
      JuryStep(s, o, decode, historyA, historyB, judges, m);
      if AllKept(s, o, decode, historyA, historyB, judges[..m]) && JudgeKept(s, o, decode, historyA, historyB, judges[m]) {
        AllKeptGrows(s, o, decode, historyA, historyB, judges, m);
      }
      if AllKept(s, o, decode, historyA, historyB, judges[..n]) {
        AllKeptShrinks(s, o, decode, historyA, historyB, judges, m);
      }
    }
  }

  /** The verdict of `model` is usable. */
  predicate JudgeKept(s: Setup, o: Oracle, decode: string -> Option<Json>,
                      historyA: seq<string>, historyB: seq<string>, model: string)
  {
    && JudgeReply(s, o, historyA, historyB, model).Some?
    && JudgeOutcome(s, decode, historyA, historyB, JudgeReply(s, o, historyA, historyB, model).value).Some?
  }

  lemma AllKeptShrinks(s: Setup, o: Oracle, decode: string -> Option<Json>,
                       historyA: seq<string>, historyB: seq<string>, judges: seq<string>, m: nat)
    requires m < |judges|
    requires AllKept(s, o, decode, historyA, historyB, judges[..m + 1])
    ensures AllKept(s, o, decode, historyA, historyB, judges[..m])
    ensures JudgeKept(s, o, decode, historyA, historyB, judges[m])
  {
    var js := judges[..m + 1];
    forall q | 0 <= q < m ensures JudgeKept(s, o, decode, historyA, historyB, judges[..m][q]) {
      assert js[q] == judges[..m][q];
    }
    assert js[m] == judges[m];
  }

  lemma AllKeptGrows(s: Setup, o: Oracle, decode: string -> Option<Json>,
                     historyA: seq<string>, historyB: seq<string>, judges: seq<string>, m: nat)
    requires m < |judges|
    requires AllKept(s, o, decode, historyA, historyB, judges[..m])
    requires JudgeKept(s, o, decode, historyA, historyB, judges[m])
    ensures AllKept(s, o, decode, historyA, historyB, judges[..m + 1])
  {
    var js := judges[..m + 1];
    forall q | 0 <= q < m + 1 ensures JudgeKept(s, o, decode, historyA, historyB, js[q]) {
      if q < m {
        assert js[q] == judges[..m][q];
      }
    }
  }

  /** One more judge: its usage is appended, and its entry and verdict are kept when the verdict is usable. */
  lemma JuryStep(s: Setup, o: Oracle, decode: string -> Option<Json>, historyA: seq<string>, historyB: seq<string>,
                 judges: seq<string>, m: nat)
    requires m < |judges|
    requires AllAnswered(s, o, historyA, historyB, judges[..m])
    requires JudgeReply(s, o, historyA, historyB, judges[m]).Some?
    ensures AllAnswered(s, o, historyA, historyB, judges[..m + 1])
    ensures var reply := JudgeReply(s, o, historyA, historyB, judges[m]).value;
            JudgeUsages(s, o, historyA, historyB, judges[..m + 1])
              == JudgeUsages(s, o, historyA, historyB, judges[..m]) + [ExtractUsage(reply.usage)]
    ensures var reply := JudgeReply(s, o, historyA, historyB, judges[m]).value;
            var outcome := JudgeOutcome(s, decode, historyA, historyB, reply);
            Kept(s, o, decode, historyA, historyB, judges[..m + 1])
              == Kept(s, o, decode, historyA, historyB, judges[..m])
                 + (if outcome.Some? then [(JudgeEntry(s, historyA, historyB, judges[m], reply), outcome.value)] else [])
  {
    AnsweredStep(s, o, historyA, historyB, judges, m);
    UsagesStep(s, o, historyA, historyB, judges, m);
    var js := judges[..m + 1];
    assert js[..m] == judges[..m];
    assert js[m] == judges[m];
  }

  lemma AnsweredStep(s: Setup, o: Oracle, historyA: seq<string>, historyB: seq<string>, judges: seq<string>, m: nat)
    requires m < |judges|
    requires AllAnswered(s, o, historyA, historyB, judges[..m])
    requires JudgeReply(s, o, historyA, historyB, judges[m]).Some?
    ensures AllAnswered(s, o, historyA, historyB, judges[..m + 1])
  {
    var js := judges[..m + 1];
    forall q | 0 <= q < |js| ensures JudgeReply(s, o, historyA, historyB, js[q]).Some? {
      if q < m {
        assert js[q] == judges[..m][q];
      }
    }
  }

  lemma UsagesStep(s: Setup, o: Oracle, historyA: seq<string>, historyB: seq<string>, judges: seq<string>, m: nat)
    requires m < |judges|
    requires AllAnswered(s, o, historyA, historyB, judges[..m + 1])
    ensures AllAnswered(s, o, historyA, historyB, judges[..m])
    ensures var reply := JudgeReply(s, o, historyA, historyB, judges[m]).value;
            JudgeUsages(s, o, historyA, historyB, judges[..m + 1])
              == JudgeUsages(s, o, historyA, historyB, judges[..m]) + [ExtractUsage(reply.usage)]
  {
    var js := judges[..m + 1];
    assert js[..m] == judges[..m];
    assert js[m] == judges[m];
  }

  /** One more judge keeps the judges kept so far and adds at most its own entry, which carries its usage. */
  lemma KeptGrowth(s: Setup, o: Oracle, decode: string -> Option<Json>, historyA: seq<string>, historyB: seq<string>,
                   judges: seq<string>, m: nat)
    requires m < |judges|
    requires AllAnswered(s, o, historyA, historyB, judges[..m])
    requires JudgeReply(s, o, historyA, historyB, judges[m]).Some?
    ensures AllAnswered(s, o, historyA, historyB, judges[..m + 1])
    ensures var before, after := Kept(s, o, decode, historyA, historyB, judges[..m]),
                                 Kept(s, o, decode, historyA, historyB, judges[..m + 1]);
            || after == before
            || (&& |after| == |before| + 1 && after[..|before|] == before
                && after[|before|].0.usage == ExtractUsage(JudgeReply(s, o, historyA, historyB, judges[m]).value.usage))
  {
    JuryStep(s, o, decode, historyA, historyB, judges, m);
  }

  /** The loop's record of kept judges grows by the next judge's entry exactly when its verdict is usable. */
  lemma RecordedStep(s: Setup, o: Oracle, decode: string -> Option<Json>, historyA: seq<string>,
                     historyB: seq<string>, judges: seq<string>, m: nat, entries: seq<JuryEntry>, parsed: seq<Verdict>)
    requires m < |judges|
    requires AllAnswered(s, o, historyA, historyB, judges[..m])
    requires JudgeReply(s, o, historyA, historyB, judges[m]).Some?
    requires JuryRecorded(s, o, decode, historyA, historyB, judges[..m], entries, parsed)
    ensures AllAnswered(s, o, historyA, historyB, judges[..m + 1])
    ensures var reply := JudgeReply(s, o, historyA, historyB, judges[m]).value;
            var outcome := JudgeOutcome(s, decode, historyA, historyB, reply);
            JuryRecorded(s, o, decode, historyA, historyB, judges[..m + 1],
                         entries + (if outcome.Some? then [JudgeEntry(s, historyA, historyB, judges[m], reply)] else []),
                         parsed + (if outcome.Some? then [outcome.value] else []))
  {
    var reply := JudgeReply(s, o, historyA, historyB, judges[m]).value;
    if JudgeOutcome(s, decode, historyA, historyB, reply).Some? {
      RecordedKept(s, o, decode, historyA, historyB, judges, m, entries, parsed);
    } else {
      RecordedSkipped(s, o, decode, historyA, historyB, judges, m, entries, parsed);
    }
  }

  lemma RecordedKept(s: Setup, o: Oracle, decode: string -> Option<Json>, historyA: seq<string>,
                     historyB: seq<string>, judges: seq<string>, m: nat, entries: seq<JuryEntry>, parsed: seq<Verdict>)
    requires m < |judges|
    requires AllAnswered(s, o, historyA, historyB, judges[..m])
    requires JudgeReply(s, o, historyA, historyB, judges[m]).Some?
    requires JudgeOutcome(s, decode, historyA, historyB, JudgeReply(s, o, historyA, historyB, judges[m]).value).Some?
    requires JuryRecorded(s, o, decode, historyA, historyB, judges[..m], entries, parsed)
    ensures AllAnswered(s, o, historyA, historyB, judges[..m + 1])
    ensures var reply := JudgeReply(s, o, historyA, historyB, judges[m]).value;
            JuryRecorded(s, o, decode, historyA, historyB, judges[..m + 1],
                         entries + [JudgeEntry(s, historyA, historyB, judges[m], reply)],
                         parsed + [JudgeOutcome(s, decode, historyA, historyB, reply).value])
  {
    JuryStep(s, o, decode, historyA, historyB, judges, m);
    var reply := JudgeReply(s, o, historyA, historyB, judges[m]).value;
    PairsAppend(Kept(s, o, decode, historyA, historyB, judges[..m]), entries, parsed,
                JudgeEntry(s, historyA, historyB, judges[m], reply), JudgeOutcome(s, decode, historyA, historyB, reply).value);
  }

  lemma RecordedSkipped(s: Setup, o: Oracle, decode: string -> Option<Json>, historyA: seq<string>,
                        historyB: seq<string>, judges: seq<string>, m: nat, entries: seq<JuryEntry>, parsed: seq<Verdict>)
    requires m < |judges|
    requires AllAnswered(s, o, historyA, historyB, judges[..m])
    requires JudgeReply(s, o, historyA, historyB, judges[m]).Some?
    requires JudgeOutcome(s, decode, historyA, historyB, JudgeReply(s, o, historyA, historyB, judges[m]).value).None?
    requires JuryRecorded(s, o, decode, historyA, historyB, judges[..m], entries, parsed)
    ensures AllAnswered(s, o, historyA, historyB, judges[..m + 1])
    ensures JuryRecorded(s, o, decode, historyA, historyB, judges[..m + 1], entries, parsed)
  {
    JuryStep(s, o, decode, historyA, historyB, judges, m);
  }

  /** Appending one pair to the kept judges appends its entry and its verdict to the two lists. */
  lemma PairsAppend(kept: seq<(JuryEntry, Verdict)>, entries: seq<JuryEntry>, parsed: seq<Verdict>,
                    e: JuryEntry, v: Verdict)
    requires |entries| == |parsed| == |kept|
    requires forall q :: 0 <= q < |kept| ==> entries[q] == kept[q].0 && parsed[q] == kept[q].1
    ensures var kept2, entries2, parsed2 := kept + [(e, v)], entries + [e], parsed + [v];
            forall q :: 0 <= q < |kept2| ==> entries2[q] == kept2[q].0 && parsed2[q] == kept2[q].1
  {
  }

  /** Adding one more call's usage to a running total keeps it the sum of all calls so far. */
  lemma TotalsStep(totals0: UsageStats, before: seq<UsageStats>, usage: UsageStats)
    ensures Add(Add(totals0, Sum(before)), usage) == Add(totals0, Sum(before + [usage]))
  {
    assert (before + [usage])[..|before|] == before;
    AddAssociative(totals0, Sum(before), usage);
  }

  /**
   * The jury loop of `run_debate`: every judge is called; its usage is added
   * to the totals whatever it says; its entry and verdict are kept only when
   * the verdict is usable. A judge whose call raises ends the run, as the
   * source does not catch the error.
   */
  method RunJury(s: Setup, o: Oracle, decode: string -> Option<Json>, historyA: seq<string>, historyB: seq<string>,
                 totals0: UsageStats)
    returns (entries: seq<JuryEntry>, parsed: seq<Verdict>, totals: UsageStats, failed: Option<nat>)
    ensures failed.None? ==>
              && AllAnswered(s, o, historyA, historyB, s.judges)
              && totals == Add(totals0, Sum(JudgeUsages(s, o, historyA, historyB, s.judges)))
              && JuryRecorded(s, o, decode, historyA, historyB, s.judges, entries, parsed)
    ensures failed.Some? ==>
              && failed.value < |s.judges|
              && AllAnswered(s, o, historyA, historyB, s.judges[..failed.value])
              && JudgeReply(s, o, historyA, historyB, s.judges[failed.value]).None?
  {
    entries, parsed, totals := [], [], totals0;
    for m := 0 to |s.judges|
      invariant AllAnswered(s, o, historyA, historyB, s.judges[..m])
      invariant totals == Add(totals0, Sum(JudgeUsages(s, o, historyA, historyB, s.judges[..m])))
      invariant JuryRecorded(s, o, decode, historyA, historyB, s.judges[..m], entries, parsed)
    {
      var model := s.judges[m];
      var shown := Blind(MergeResponses(historyA), MergeResponses(historyB), s.blind);
      var prompt := RenderPrompt(s.judgeTemplate, JuryVariables(s, shown));
      var reply := o(model, JuryMessages(prompt));
      if reply.None? {
        return entries, parsed, totals, Some(m);
      }
      JuryStep(s, o, decode, historyA, historyB, s.judges, m);
      RecordedStep(s, o, decode, historyA, historyB, s.judges, m, entries, parsed);
      var usage := ExtractUsage(reply.value.usage);
      TotalsStep(totals0, JudgeUsages(s, o, historyA, historyB, s.judges[..m]), usage);
      totals := Add(totals, usage);
      var verdict := JudgeVerdict(ParseJuryResponse(ContentOrEmpty(reply.value.content), decode), shown.sideMap);
      if verdict.Some? {
        entries := entries + [JuryEntry(model, prompt, ContentOrEmpty(reply.value.content), usage, s.blind, shown.sideMap)];
        parsed := parsed + [verdict.value];
      }
    }
    assert s.judges[..|s.judges|] == s.judges;
    failed := None;
  }

  // ---------------------------------------------------------------------------
  // The whole run
  // ---------------------------------------------------------------------------

  datatype DebateError = DebaterFailed(turn: Turn) | JudgeFailed(model: string)

  /** The `result` of a record. */
  datatype Outcome = Outcome(general: Json, winner: string, winningReason: Json)

  /** The record `run_debate` appends to the output file, without its timings. */
  datatype DebateRecord = DebateRecord(
    id: string,
    topic: string,
    conditions: string,
    lang: string,
    proposition: string,
    opposition: string,
    jury: string,
    rounds: seq<RoundEntry>,
    juries: seq<JuryEntry>,
    parsed: seq<Verdict>,
    winnerCounts: (nat, nat),
    result: Outcome,
    totals: UsageStats)

  /** The aggregation of a record follows from its kept verdicts. */
  predicate Aggregated(rec: DebateRecord) {
    && rec.winnerCounts == (Count(Winners(rec.parsed), SideA), Count(Winners(rec.parsed), SideB))
    && rec.result.winner == FinalWinner(rec.parsed)
    && var first := FirstWithWinner(rec.parsed, Str(rec.result.winner));
       && (first.Some? ==>
             rec.result.winningReason == OrEmpty(rec.parsed[first.value].reasoning)
             && rec.result.general == OrEmpty(rec.parsed[first.value].general))
       && (first.None? ==> rec.result.winningReason == Str("") && rec.result.general == Str(""))
  }

  /**
   * `run_debate`: the round loop, the jury loop, the aggregation and the
   * record. `draws` are the outputs of the id generator. The set of ids seen
   * is created empty inside the run, so the first draw is always taken.
   */
  method RunDebate(s: Setup, o: Oracle, decode: string -> Option<Json>, draws: seq<string>)
    returns (r: Result<DebateRecord, DebateError>, ghost transcript: Transcript)
    requires ValidSetup(s)
    requires |draws| > 0 && forall k :: 0 <= k < |draws| ==> IsNanoId(draws[k])
    ensures r.Failure? && r.error.DebaterFailed? ==> FailedAt(s, o, transcript, r.error.turn)
    ensures r.Failure? && r.error.JudgeFailed? ==>
              && Progress(s, o, transcript, 2 * Rounds)
              && exists m :: 0 <= m < |s.judges| && s.judges[m] == r.error.model
                   && AllAnswered(s, o, transcript.a.history, transcript.b.history, s.judges[..m])
                   && JudgeReply(s, o, transcript.a.history, transcript.b.history, s.judges[m]).None?
    ensures r.Success? ==>
              var rec := r.value;
              var hA, hB := transcript.a.history, transcript.b.history;
              && Progress(s, o, transcript, 2 * Rounds)
              && rec.rounds == transcript.log
              && rec.id == draws[0]
              && rec.topic == s.topic && rec.conditions == s.conditions && rec.lang == Lang
              && rec.proposition == s.modelA && rec.opposition == s.modelB
              && rec.jury == Join(s.judges, ",")
              && AllAnswered(s, o, hA, hB, s.judges)
              && JuryRecorded(s, o, decode, hA, hB, s.judges, rec.juries, rec.parsed)
              && Aggregated(rec)
              && rec.totals == Add(Sum(Usages(rec.rounds)), Sum(JudgeUsages(s, o, hA, hB, s.judges)))
    ensures r.Failure? && r.error.JudgeFailed? ==> r.error.model in s.judges
    ensures r.Success? ==> r.value.id == draws[0] && WellShaped(r.value, |s.judges|)
    ensures r.Success? ==>
              var total := r.value.winnerCounts.0 + r.value.winnerCounts.1;
              && total <= |s.judges|
              && (total == |s.judges| <==> AllKept(s, o, decode, transcript.a.history, transcript.b.history, s.judges))
  {
    var t, failedTurn := RunRounds(s, o);
    transcript := t;
    if failedTurn.Some? {
      return Failure(DebaterFailed(failedTurn.value)), transcript;
    }
    var entries, parsed, totals, failedJudge := RunJury(s, o, decode, t.a.history, t.b.history, t.totals);
    if failedJudge.Some? {
      return Failure(JudgeFailed(s.judges[failedJudge.value])), transcript;
    }

    var winners := Winners(parsed);
    var counts := (Count(winners, SideA), Count(winners, SideB));
    var finalWinner := FinalWinner(parsed);
    var reason, general := SelectRepresentative(parsed, finalWinner);

    var seen := new SeenIds();
    var id := seen.UniqueId(draws);
    assert FirstFresh(draws, {}) == Some(0);
    r := Success(DebateRecord(
      id.value, s.topic, s.conditions, Lang, s.modelA, s.modelB, Join(s.judges, ","),
      t.log, entries, parsed, counts, Outcome(general, finalWinner, reason), totals));
    RecordWellShaped(s, o, decode, t, r.value);
    RecordTallies(s, o, decode, t.a.history, t.b.history, r.value);
  }

  /**
   * What a saved record shows by itself: eight round entries, round-major
   * with A before B, a nanoid, and only valid verdicts, no more than there are judges.
   */
  predicate WellShaped(rec: DebateRecord, judgeCount: nat) {
    && |rec.rounds| == 2 * Rounds
    && (forall k :: 0 <= k < |rec.rounds| ==>
          rec.rounds[k].id == k / 2 + 1 && rec.rounds[k].side == (if k % 2 == 0 then A else B))
    && IsNanoId(rec.id)
    && |rec.juries| == |rec.parsed| <= judgeCount
    && (forall q :: 0 <= q < |rec.parsed| ==> IsValid(rec.parsed[q]))
  }

  /** A record built from a complete round loop and the kept verdicts of every judge is well shaped. */
  lemma RecordWellShaped(s: Setup, o: Oracle, decode: string -> Option<Json>, t: Transcript, rec: DebateRecord)
    requires ValidSetup(s) && Progress(s, o, t, 2 * Rounds) && rec.rounds == t.log && IsNanoId(rec.id)
    requires AllAnswered(s, o, t.a.history, t.b.history, s.judges)
    requires JuryRecorded(s, o, decode, t.a.history, t.b.history, s.judges, rec.juries, rec.parsed)
    ensures WellShaped(rec, |s.judges|)
  {
    LogOrder(s, o, t, 2 * Rounds);
  }

  /**
   * `winner_counts` of a record: its two entries add up to at most the number
   * of judges, and to exactly that number when every judge gave a usable verdict.
   */
  lemma RecordTallies(s: Setup, o: Oracle, decode: string -> Option<Json>, historyA: seq<string>,
                      historyB: seq<string>, rec: DebateRecord)
    requires AllAnswered(s, o, historyA, historyB, s.judges)
    requires JuryRecorded(s, o, decode, historyA, historyB, s.judges, rec.juries, rec.parsed)
    requires Aggregated(rec)
    ensures rec.winnerCounts.0 + rec.winnerCounts.1 <= |s.judges|
    ensures rec.winnerCounts.0 + rec.winnerCounts.1 == |s.judges|
            <==> AllKept(s, o, decode, historyA, historyB, s.judges)
  {
    var kept := Kept(s, o, decode, historyA, historyB, s.judges);
    assert forall q :: 0 <= q < |rec.parsed| ==> IsValid(rec.parsed[q]) by {
      forall q | 0 <= q < |rec.parsed| ensures IsValid(rec.parsed[q]) {
        assert rec.parsed[q] == kept[q].1;
      }
    }
    WinnerCountsBounded(rec.parsed);
    KeptAllIff(s, o, decode, historyA, historyB, s.judges);
  }

  /**
   * The run's totals are the sum of the usage of all eight turns and of every
   * judge called, including judges whose verdict was dropped.
   */
  lemma TotalsCountEveryCall(rounds: seq<RoundEntry>, judgeUsages: seq<UsageStats>)
    ensures Add(Sum(Usages(rounds)), Sum(judgeUsages)) == Sum(Usages(rounds) + judgeUsages)
  {
    SumAppend(Usages(rounds), judgeUsages);
  }
}
