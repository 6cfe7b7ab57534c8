# Debate competition: a verified model of the orchestration core

This project models the debate orchestration in `debate_experiment.py` and the data handling in `render_html.py`, and proves properties of the model.

In the orchestration, two language models (proposition, Side A, and opposition, Side B) debate a topic over four rounds. Each side answers a round prompt that shows it the opponent's reply from the previous round. A jury of judge models then evaluates the two transcripts, optionally blinded so that the sides' texts appear under each other's labels. The verdicts are de-blinded and validated, and the valid ones are tallied. The run produces one record holding:

- the rounds log;
- the kept verdicts;
- the winner counts;
- the final winner, with its reason and summary;
- the usage totals.

The page renderer reads such records back. It groups rounds by id, orders the columns of the score tables, adds up token totals, and builds a navigation of records by topic.

## Modules

- `Wrappers`: `Option` and `Result`.
- `Text`: the Python string operations the code relies on:
  - `str.strip`, `lstrip` and `strip(chr)`;
  - `split(",")` and `join`;
  - decimal rendering.
- `Seqs`: first-seen de-duplication, the ordered union of dict keys.
- `Usage`: `extract_usage_fields` and the addition of usage counters.
- `Prompts`:
  - `render_prompt` (`{{KEY}}` replacements in insertion order);
  - `merge_responses`;
  - `build_opponent_variables`.
- `Ids`: `unique_id` over a mutable seen-set (class `SeenIds`).
- `Config`: `parse_list_env` and `build_judge_configs` over an environment map.
- `Jury`:
  - the decoded JSON value;
  - blinding, `remap_winner`, `normalize_jury_scores` and `is_valid_jury`;
  - fence stripping in `parse_jury_response`.
- `Aggregate`: the winner tally, the final winner and the representative verdict.
- `Debate`: the round loop, the jury loop and the record of `run_debate`.
- `Render`:
  - `group_rounds`, the score-key union and the token totals;
  - the `parsed` normalisation and the topic navigation of `render_html.py`.

## Abstractions

- **The language-model backend** is an oracle, `(model name, message thread) -> Option<Reply>`.
  - `None` stands for a call that raises.
  - A reply carries its possibly-null content and its optional usage payload.
  - The clients, and the debaters' backend configuration, are abstracted away.
- **`json.loads`** is a parameter `decode: string -> Option<Json>`.
  - `None` stands for `JSONDecodeError`.
  - `Json` covers the values a decoder can return. That is enough to show which replies make Python raise.
- **`nanoid.generate`** is the sequence of the values it would produce.
- **Prompt files** are strings supplied with the run's `Setup`.
- **The environment** is a map from variable names to values.

## Model

| member | source | states |
|---|---|---|
| Usage.ExtractUsage | debate_experiment.py:148-161 | With no usage payload every counter is zero. Otherwise each token counter is the payload's value, or 0 when it is missing or null. |
| Usage.ExtractEmptyIsZero | debate_experiment.py:149-150 | An empty usage dict and a missing one both give all-zero counters. |
| Usage.ExtractCostPreference | debate_experiment.py:151-154 | The cost is `total_cost` when present; otherwise it is `cost`, or 0. |
| Usage.SumAppend | debate_experiment.py:334-338 | Summing the counters of two runs of calls is adding the two partial sums: the counters are additive. |
| Usage.SumOrderIndependent | debate_experiment.py:403-407 | Any reordering of the calls gives the same totals. |
| Text.StripCharBetween | debate_experiment.py:169 | `s.strip(c)` keeps exactly the part between the leading and the trailing runs of `c`. |
| Text.SplitJoin | debate_experiment.py:60 | Splitting on a separator undoes joining with it, for parts free of the separator. |
| Text.NatToStringInjective | render_html.py:448 | Different numbers render to different decimal strings. |
| Seqs.Dedup | render_html.py:178-184 | The de-duplicated sequence has no duplicates and has exactly the input's elements. |
| Seqs.DedupSnoc | render_html.py:179-184 | A new element is appended exactly when it has not been seen; a seen one leaves the result unchanged. |
| Seqs.DedupAppend | render_html.py:178-184 | De-duplicating `a + b` keeps `Dedup(a)` as a prefix. Everything after it comes from `b` and is not in `a`. |
| Seqs.DedupFirstSeenOrder | render_html.py:446-450 | Elements come out in the order of their first occurrence. |
| Prompts.Placeholder | debate_experiment.py:96 | The placeholder is four characters longer than the key: `{{`, then exactly the key, then `}}`. |
| Prompts.ReplaceAllLength | debate_experiment.py:96 | `str.replace` changes the length by the number of occurrences times the length difference. |
| Prompts.ReplaceAllAbsent | debate_experiment.py:96 | Replacing a pattern that does not occur leaves the string unchanged. |
| Prompts.ReplaceAllBySelf | debate_experiment.py:96 | Replacing a pattern by itself leaves the string unchanged. |
| Prompts.RenderPrompt | debate_experiment.py:93-97 | The loop's result is the template with each variable's placeholder replaced in turn, in insertion order. |
| Prompts.RenderWithoutPlaceholders | debate_experiment.py:93-97 | A template containing none of the placeholders renders to itself. |
| Prompts.RenderSinglePlaceholder | debate_experiment.py:93-97 | A template that is just one placeholder renders to that variable's value. |
| Prompts.RoundBlocks | debate_experiment.py:119-123 | There is one block per round. Block `k` is headed `Round k+1:` and holds that round's content. |
| Prompts.MergeResponses | debate_experiment.py:119-123 | The merged text is empty exactly when there are no rounds. A single round gives just its block. |
| Prompts.MergeSnoc | debate_experiment.py:119-123 | A new round adds a blank line and its numbered block at the end; earlier text is unchanged. |
| Prompts.MergeShowsEveryRound | debate_experiment.py:119-123 | Every round's numbered block occurs in the merged transcript. |
| Prompts.OpponentVariables | debate_experiment.py:126-137 | There is at most one binding. It is empty exactly when the round index is at most 1 or the opponent's previous round is missing. Otherwise it binds `{label}_ROUND_{i-1}` to the opponent's round `i-1`. |
| Prompts.OpponentIsOneRoundBehind | debate_experiment.py:126-137 | From round 2 on, the binding is to the opponent's previous round. It is unchanged by any later opponent rounds, so a side never sees the opponent's current round. |
| Prompts.RoundVariables | debate_experiment.py:301-302 | The variables are the topic, then the conditions, then at most one opponent binding. The binding is present exactly when the round index is between 2 and one past the opponent's rounds. It binds the opponent's previous round. |
| Prompts.RenderAsWritten | debate_experiment.py:93-97 | Rendering with values that may be None fails exactly when some value is None (`str.replace` raises TypeError). |
| Prompts.MissingContentCrashesNextRound | debate_experiment.py:310 | The round-2 prompt of Side A fails to render when Side B's round-1 reply had no content. |
| Prompts.CorrectedRoundPromptAgrees | debate_experiment.py:300-302 | With every opponent reply non-null, the as-written rendering succeeds and equals the corrected one, which stores `content or ""`. |
| Prompts.LastReplyNeverBound | debate_experiment.py:126-137 | The opponent bindings never depend on the opponent's latest reply, so a null reply in round 4 never reaches `str.replace`. |
| Prompts.NullLastReplyReadsNone | debate_experiment.py:119-123 | A null last reply appears in the judges' transcript as `None`, where the rounds log records "". The two texts then differ. |
| Prompts.CorrectedMergeAgrees | debate_experiment.py:119-123 | With every reply non-null, the transcript the code builds equals the corrected one. The corrected one shows every round's recorded content. |
| Ids.FirstFresh | debate_experiment.py:141-145 | Gives the first draw not already seen: every earlier draw is in the set. Gives none when every draw is seen. |
| Ids.SeenIds.UniqueId | debate_experiment.py:140-145 | The id returned is the first fresh draw: a 16-character id over `[0-9a-z]` that was not in `seen`. `seen` grows by exactly that id. |
| Ids.FirstFreshIsFirst | debate_experiment.py:141-145 | A position after only seen draws, holding an unseen draw, is the first fresh one. |
| Ids.TwoDistinctIds | debate_experiment.py:140-145 | Two calls on the same seen-set never return the same id. |
| Config.RequireEnv | debate_experiment.py:25-29 | Succeeds exactly when the variable is set and non-empty, with its value; otherwise it is the missing-variable error. |
| Config.NonEmptyStripped | debate_experiment.py:60 | The items kept are stripped and non-empty, and there are no more of them than parts. |
| Config.ParseListEnv | debate_experiment.py:59-60 | Fails exactly when the variable is missing or empty. Every item is non-empty, stripped and comma-free. A string is an item exactly when it is the non-empty stripped text of some comma-separated part of the value. |
| Config.NonEmptyStrippedSnoc | debate_experiment.py:60 | The items keep the order of the parts: a further part adds its stripped text at the end when that is non-empty, and nothing otherwise. |
| Config.NonEmptyStrippedItems | debate_experiment.py:60 | A string is kept exactly when some part contributes it, as its non-empty stripped text. |
| Config.ParseListOfJoined | debate_experiment.py:59-60 | A comma-joined value whose parts may be padded with whitespace, or empty, parses to the parts' non-empty stripped texts in order. |
| Config.ParseSpacedListRoundTrip | debate_experiment.py:59-60 | A value written as clean items separated by a comma and a space, such as `gpt-4o, llama3`, parses back to exactly those items. |
| Config.ParseListRoundTrip | debate_experiment.py:59-60 | Parsing a comma-joined list of clean items gives back the items. |
| Config.BackendOf | debate_experiment.py:71-72 | Only `local` and `online` are accepted. |
| Config.ConfigsFor | debate_experiment.py:70-81 | Succeeds exactly when every backend entry is accepted and has its base URL. Each config has the model, the backend and that URL, and asks for a key exactly when it is online. Otherwise it reports the error of the first bad entry. |
| Config.BuildJudgeConfigs | debate_experiment.py:63-82 | Reports a missing `JUDGE_MODELS`, then a missing `JUDGE_BACKENDS`, then a length mismatch, then the first bad entry. On success there is one well-formed config per model. |
| Jury.Lookup | debate_experiment.py:409-411 | A non-null value found for a key is one of its bindings. An absent key reads as null. |
| Jury.LookupLastBinding | debate_experiment.py:409-411 | A key bound more than once reads as its last binding, the one `json.loads` keeps: no later field has that key. |
| Jury.Blind | debate_experiment.py:190-195 | Blinding swaps the two texts and sets the map to {A: B, B: A}. Otherwise both the texts and the map are the identity. |
| Jury.RemapWinner | debate_experiment.py:223-228 | The result is falsy exactly when the judge's winner is, and then it is "". A side label maps to a side label. Under the identity map a truthy winner is kept as it is. |
| Jury.NormalizeScores | debate_experiment.py:231-242 | The winner, reasoning and general text are kept. The two totals, and the two detail dicts, are the same pair, swapped exactly under the swap map. |
| Jury.IsValid | debate_experiment.py:245-253 | A valid verdict has a truthy, hashable winner. |
| Jury.WinnerFollowsShownText | debate_experiment.py:190-195 | The winner label the judge gives is remapped to the true side of the text it was shown under that label. |
| Jury.IdentityKeepsVerdict | debate_experiment.py:223-234 | Under the identity map the verdict is unchanged, except that a falsy winner becomes "". |
| Jury.SwapRemapsWinner | debate_experiment.py:223-228 | Under the swap, "Side A" and "Side B" exchange, any other winner passes through, and a falsy one becomes "". |
| Jury.NormalizeInvolutive | debate_experiment.py:231-242 | Normalising twice with the same map restores the scores. |
| Jury.DeblindTwice | debate_experiment.py:223-242 | De-blinding a valid verdict twice with the same map restores it. |
| Jury.DeblindPreservesValidity | debate_experiment.py:223-253 | De-blinding keeps a verdict valid or invalid. |
| Jury.ParseJuryResponse | debate_experiment.py:164-175 | An empty reply, or one the decoder rejects, reads as `{}`. Otherwise the result is the decoding of the fence-stripped text. |
| Jury.StripFence | debate_experiment.py:164-171 | The cleaned text is no longer than the reply. An unfenced reply is only stripped of surrounding whitespace. |
| Jury.StripJsonFence | debate_experiment.py:166-171 | A reply fenced as a `json` code block is decoded from its body, stripped of the fence and the tag. |
| Jury.FenceRemoved | debate_experiment.py:169 | Stripping backticks removes the opening and closing fences. |
| Jury.JsonTagRemoved | debate_experiment.py:170-171 | A leading `json` tag is cut and the whitespace after it dropped. |
| Jury.PlainReplyUnchanged | debate_experiment.py:166-168 | An unfenced, stripped reply is decoded as it is. |
| Jury.JudgeVerdictAsWritten | debate_experiment.py:409-421 | A decoded reply that is not an object makes `.get` raise. |
| Jury.JudgeVerdict | debate_experiment.py:409-421 | A verdict is kept exactly when the reply decodes to an object whose de-blinded reading is valid. The kept verdict is that reading. |
| Jury.CorrectedAgreesWhereSourceSurvives | debate_experiment.py:409-421 | The code raises exactly for a non-object reply or an unhashable winner. Wherever it does not raise, it keeps or skips exactly as the corrected verdict does. |
| Jury.UnhashableWinner | debate_experiment.py:248 | The winner test raises exactly when the judge's winner is a non-empty list or object. |
| Jury.ArrayReplyCrashes | debate_experiment.py:409 | A judge replying `[]` aborts the run, where the corrected verdict skips it. |
| Jury.ListWinnerCrashes | debate_experiment.py:248 | A winner given as a list aborts the run, where the corrected verdict skips it. |
| Aggregate.Winners | debate_experiment.py:440 | Only truthy winners are collected, at most one per verdict. |
| Aggregate.Count | debate_experiment.py:441 | `list.count` is the number of occurrences, and is positive exactly when the value occurs. |
| Aggregate.CountWinnersAgrees | debate_experiment.py:440-441 | Counting a side among the collected winners equals counting the verdicts naming it. |
| Aggregate.WinnersEmptyIff | debate_experiment.py:440 | There are no winners exactly when every verdict's winner is falsy. |
| Aggregate.TalliesBounded | debate_experiment.py:441 | The two tallies sum to at most the number of verdicts, and to exactly that number iff every verdict names a side. |
| Aggregate.WinnerCountsBounded | debate_experiment.py:440-441 | The counts sum to at most the number of kept judges. With every verdict valid, they sum to exactly that. |
| Aggregate.FinalWinner | debate_experiment.py:442-446 | The final winner is "", "Side A" or "Side B". |
| Aggregate.FinalEmptyIff | debate_experiment.py:442-446 | The final winner is "" exactly when no verdict has a truthy winner. |
| Aggregate.FinalIsMajority | debate_experiment.py:443-446 | With some winner, Side A wins exactly when its count is at least Side B's, so ties go to A. Side B wins exactly when it has more. |
| Aggregate.ValidVerdictsMatchFinal | debate_experiment.py:440-453 | With at least one kept verdict, all valid, some verdict names the final winner. |
| Aggregate.FirstWithWinner | debate_experiment.py:449-450 | Gives the first verdict whose winner matches, or none when no verdict matches. |
| Aggregate.SelectRepresentative | debate_experiment.py:447-453 | The reason and summary come from the first verdict naming the final winner, with falsy values reading as "". Both are "" when no verdict matches. |
| Aggregate.RepresentativeIgnoresLater | debate_experiment.py:449-453 | Verdicts after the first match never change the representative. |
| Debate.TakeTurn | debate_experiment.py:299-338 | One turn renders the prompt from the opponent's history and calls the side's model on its thread plus that prompt. On success it extends the transcript by exactly that turn. It fails exactly when the call fails, leaving the transcript unchanged. |
| Debate.TurnRecorded | debate_experiment.py:300-338 | A turn recorded as the code does keeps the run's invariant one call further. The invariant covers log, threads, histories, prompts, replies and totals. |
| Debate.RunRounds | debate_experiment.py:295-381 | Either all eight turns happen in order and the invariant holds, or the run stops at the first failing call with every earlier turn recorded. |
| Debate.TakeRound | debate_experiment.py:301-369 | One round is Side A's turn and then Side B's. Either both are recorded, or the run stops at the one that failed, with the turns before it recorded. |
| Debate.LogOrder | debate_experiment.py:321-332 | The log is round-major: entry `k` has round id `k/2+1`, with A's entry before B's. |
| Debate.CompleteShape | debate_experiment.py:291-381 | After the loop the log has 8 entries. Each thread is the system prompt followed by four (user, assistant) pairs. |
| Debate.PromptSeesPreviousRound | debate_experiment.py:299-302 | A round-1 prompt binds only the topic and conditions. A later prompt also binds the content of the opponent's log entry from the round before, which precedes it in the log. |
| Debate.Kept | debate_experiment.py:419-436 | Every kept verdict is valid, and there is at most one per judge. |
| Debate.KeptAllIff | debate_experiment.py:385-436 | Every judge's verdict is kept exactly when every judge's reply decodes to a valid verdict. |
| Debate.JuryStep | debate_experiment.py:385-436 | Each judge adds its usage whether or not its verdict is kept. It adds an entry and a verdict exactly when the verdict is valid. |
| Debate.RunJury | debate_experiment.py:385-436 | On success every judge answered, the entries and verdicts are those kept, and the totals grew by every judge's usage. On failure the first failing judge is named, and every earlier judge answered. |
| Debate.RunDebate | debate_experiment.py:254-487 | A failing debater or judge is reported with the transcript so far; a failing judge is one of the configured ones. On success the record has the round log: 8 entries, round-major, A before B. It also has the first id draw (a 16-character nanoid) and the setup's fields. Every kept verdict is valid, and there are no more than judges. Its jury entries and verdicts are the kept ones. Its counts, winner, reason and summary are aggregated from them. Its totals are the sum over all eight turns and all judge calls. Its winner counts sum to at most the number of judges, and to exactly that number iff every judge's verdict is kept. |
| Debate.RecordTallies | debate_experiment.py:440-441 | The winner counts sum to at most the number of judges, and to exactly that number iff every judge gave a valid verdict. |
| Debate.TotalsCountEveryCall | debate_experiment.py:403-407 | Adding the judges' usage to the round totals is summing the usage of every call in order. |
| Render.LastWith | render_html.py:53-57 | Gives the last item with a given round id and side, or none if there is none. |
| Render.GroupedHolds | render_html.py:53-57 | A round id is grouped exactly when it occurs. A side appears under it exactly when some item has both, and its value is the last such item. |
| Render.InsertSorted | render_html.py:58 | Insertion keeps the ids strictly increasing and adds exactly the new id. |
| Render.SortedIds | render_html.py:58 | The sorted keys are strictly increasing and are exactly the ids that occur. |
| Render.GroupRounds | render_html.py:52-58 | There is one group per distinct round id, in ascending order. Each group maps a side to the last item with that id and side. |
| Render.DictKeys | render_html.py:176-177 | A non-dict reads as having no keys; a dict's keys are listed once each. |
| Render.AppendMissing | render_html.py:179-184 | Appending the keys not yet present continues the first-seen union. |
| Render.ScoreKeys | render_html.py:178-184 | The score keys are the first-seen union of both dicts' keys. |
| Render.ScoreColumns | render_html.py:178-184 | The score keys have no duplicates. They start with every key of `details_a` in order, and continue only with keys of `details_b` not in `details_a`. |
| Render.SideTokenTotals | render_html.py:139-147 | Each side's total adds the tokens of that side's items, with a missing count as 0. Items of any other side are skipped. |
| Render.RoundTokensAddUp | render_html.py:143-147 | For a saved log, the two side totals add up to the log's token total. |
| Render.PageTokens | render_html.py:262 | When every item is of side A or B, the page's token total is every round item's tokens plus the jury's tokens. |
| Render.JuryTokensAddUp | render_html.py:150 | The page's jury tokens are the token total of the saved jury entries. |
| Render.KeptTokensBounded | render_html.py:150 | The kept judges' tokens never exceed the tokens of all judges called. |
| Render.PageTokensOfRecord | render_html.py:262 | The page's overall tokens are the round tokens plus the listed judges' tokens. That is at most the record's `total_tokens`, which also counts dropped judges. |
| Render.ParsedList | render_html.py:125-127 | A missing `parsed` is the empty list, a single dict is the one-element list, and any other value is kept. |
| Render.SingleVerdictIsList | render_html.py:126-127 | A single verdict dict shows the same reasoning as a list starting with it. |
| Render.SavedVerdictsRender | render_html.py:156-157 | For saved verdicts the reasoning is the first verdict's, or "" when there are none. |
| Render.FirstReasoning | render_html.py:156-157 | No verdicts give "". A first verdict that is a dict gives its `reasoning`, or "". The page raises exactly when the saved `parsed` is truthy, is not a dict, and is not a list whose first element is a dict. A falsy first element such as `null` also raises. The error is a TypeError exactly for a number or boolean, which cannot be indexed, and an AttributeError otherwise. |
| Render.DefaultId | render_html.py:448 | A record without an id is named `debate-` followed by exactly the decimal digits of its 1-based position. |
| Render.DefaultIdsDistinct | render_html.py:447-448 | Records at different positions get different default ids. |
| Render.NavTopicsStep | render_html.py:449-450 | A record's topic is added to the topic list exactly when the dict did not hold it yet. |
| Render.NavIdsStep | render_html.py:450 | Appending a record's id keeps every topic's list equal to the ids of its records so far. |
| Render.TopicNavigation | render_html.py:446-450 | The topics are the records' topics in first-seen order. The dict holds exactly those topics, each with the ids of its records in record order. |
| Render.IdsOnListsRecords | render_html.py:446-450 | A topic's list holds the id of every record on that topic, and nothing else. |
| Render.TopicsInFirstSeenOrder | render_html.py:446-450 | Every record's topic is listed exactly once, and topics are ordered by their first record. |

## Left out

- Reading the environment and `.env`, `get_api_key` and `resolve_backend`: the environment is a map passed in.
- `load_prompt`, `save_jsonl`, `load_records` and writing files: prompt files are strings in the run's `Setup`, and the record is returned.
- `log`, `time.time` and `time.sleep`: the durations in the record are not modelled.
- The OpenAI client, `build_client` and `call_model`: foreign network calls, replaced by an oracle keyed by the model name.
  - Two judges with the same model name therefore get the same reply, although the code may give them different clients.
- `nanoid.generate`: replaced by the sequence of its draws.
- Ids.SeenIds.UniqueId: returns `None` when every available draw was already seen, where the code keeps drawing; a finite sequence of draws cannot model the unbounded retry loop.
- `json.loads` and `json.dumps`: decoding is a parameter, and the record is a datatype rather than JSON text.
- Costs are exact reals:
  - floating-point rounding is not modelled;
  - the page's cost sums and its score averages (float arithmetic) are left out.
- The HTML and JavaScript templating, the page's client-side winner logic and `minify_html`: markup and regular-expression behaviour.
- Non-integer round ids: the page reads `id` and `side` with `.get`. The model takes the round id to be an integer and the side to be a string. Items with a missing or non-integer id, which `sorted` could reject, are not modelled.
- The judge failure path: the code does not catch an exception raised by a judge call, so one failing judge aborts the whole run. The model follows the code (`Debate.RunDebate` reports `JudgeFailed`) rather than a description in which failing judges are skipped.
- `is_valid_jury`'s test for an empty verdict: it can never fire, because the winner key has just been written. `Jury.IsValid` therefore leaves it out.
- Jury.NormalizeScores: under the identity map the code saves the judge's whole decoded object: extra keys, the original key order, and `winner` written in place (appended last when absent). The model keeps only the seven keys the program reads.
- Prompts.MergeResponses: `Debate` gives the judges the histories as `content or ""`. A null reply in round 4 does not crash the code, and the code shows it to every judge as `Round 4:\nNone`, where the model shows an empty block. `Prompts.MergeResponsesAsWritten` models the code's text and `Prompts.NullLastReplyReadsNone` states the difference (see Findings).
- `render_html.py:157` computes `reasoning` but the page never uses it. Only the value is modelled, by `Render.FirstReasoning`.

## Findings

| source | as written | input that shows it | evidently intended | confidence | as-written member | corrected member |
|---|---|---|---|---|---|---|
| debate_experiment.py:409-411 | `.get` is called on whatever the judge's reply decodes to | a judge replying `[]` (or `null`, `3`): the value is a list, None or an int, `.get` raises AttributeError, and the whole run is lost | a reply that is not a JSON object is skipped like any other unusable verdict | high; not executed | Jury.ArrayReplyCrashes | Jury.JudgeVerdict |
| debate_experiment.py:248 | `parsed.get("winner") not in {"Side A", "Side B"}` hashes the winner | `{"winner": ["Side A"]}`: the list is unhashable, the set test raises TypeError, and the run is lost | a winner that is not one of the two labels makes the verdict invalid and skipped | high; not executed | Jury.ListWinnerCrashes | Jury.JudgeVerdict |
| debate_experiment.py:310 | `history_a.append(result_a)` keeps the raw reply, whose content may be null, and the next opponent prompt passes it to `str.replace` | Side B's round-1 reply has `content: null`: Side A's round-2 prompt raises TypeError | the history holds `content or ""`, as the message thread and the rounds log already do | medium; not executed | Prompts.MissingContentCrashesNextRound | Prompts.CorrectedRoundPromptAgrees |
| debate_experiment.py:119-123 | `merge_responses` formats each history item's raw content, so a null content prints as `None` | Side B's round-4 reply has `content: null`: no later prompt reads it, the run completes, and every judge's transcript ends with `Round 4:` followed by `None`, while the saved rounds log records "" | the judges read the same `content or ""` the rounds log records | medium; not executed | Prompts.NullLastReplyReadsNone | Prompts.CorrectedMergeAgrees |

`Debate` uses the corrected behaviour:

- Judge verdicts go through `Jury.JudgeVerdict`.
- Histories store `content or ""`, so both the round prompts and the judges' transcripts read the corrected content.
