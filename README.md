# IAmHere depression-support service: a Dafny model of its analysis core

The service (`ai_service.py`) is a chat backend for Vietnamese-speaking users.
Each message goes through two steps:

- **Analysis.** A keyword sentiment scorer gives a score in [-1, 1] and a
  label. A phrase-based extractor reports which of eight depression
  categories the text mentions.
- **Bookkeeping.** A recommender picks five activities by severity tier.
  An emergency gate decides whether crisis hotlines are attached. A
  per-user in-memory session keeps the conversation history, which is cut
  to 31 turns, and a mood log. Two rows are written to a database, and a
  dashboard later summarises the last 30 days of scores with a trend.

The Dafny project models that core. The modules follow the source:

- `Text` models the Python built-ins the core leans on: `str.lower()`,
  `in` on strings, `str.split()` word counting, `str.strip()` blankness.
- `Sentiment` models `analyze_sentiment`.
- `Indicators` models `extract_depression_indicators`.
- `Recommender` models `recommend_activities` and the emergency resources.
- `Tracking` models the depression level, the emergency gate, the mood
  trend and the dashboard arithmetic.
- `Sessions` models the `chat_sessions` store as a class with the
  `get_or_create_chat_session`, `enhanced_chat`, `get_mood_tracking` and
  `reset_chat` operations.

The hosted language model's answer is a parameter of a chat turn, `None`
when the call raised. The database writes are returned as the rows they
would store.

Where the written description of the system and the code disagree, the
model follows the code:

- `analyze_sentiment` counts how many distinct keywords occur, not how many
  times they occur.
- The `user_tracking` table has no unique key on the user, so its
  `INSERT OR REPLACE` adds a row on every turn rather than replacing one.
  The model only returns the row.
- The mood log of a session is never pruned. Only the read in
  `get_mood_tracking` is cut to the newest 168 samples.

## Model

| member | source | states |
|---|---|---|
| Text.LowerChar | ai_service.py:136 | lower-casing a character never turns whitespace into non-whitespace or back |
| Text.Lower | ai_service.py:136 | `text.lower()` character by character: same length, and each character is whitespace exactly when the original one is |
| Text.WordsFromLower | ai_service.py:136-141 | lower-casing cannot change the word count: the text and its lower-cased form split into the same number of words |
| Sentiment.UpperCaseFolds | ai_service.py:136 | the capitals of Vietnamese, such as Ă, Ô, Đ, Ư and Ợ, lower-case onto the keyword spelling: "KHÔNG ĂN ĐƯỢC" becomes "không ăn được" |
| Sentiment.UpperCaseHits | ai_service.py:136 | an upper-case message still counts its negative keyword |
| Text.OccursIff | ai_service.py:136-137 | Python's substring test `p in s` holds exactly when `p` matches at some index of `s` |
| Text.WordCountZeroIffBlank | ai_service.py:140-142 | `len(text.split())` is zero exactly when the text is all whitespace (what `strip()` empties) |
| Text.HitNeedsWord | ai_service.py:136-142 | if a phrase with a non-space character occurs in the lower-cased text, the text has at least one word |
| Text.OccursByLength | ai_service.py:441 | a longer pattern never occurs in a shorter string; in one of equal length, it occurs only if the two are equal |
| Sentiment.CountHits | ai_service.py:136-137 | the count of listed keywords present is at most the list length, and it is positive exactly when some keyword occurs |
| Sentiment.Clamp | ai_service.py:147 | `max(-1, min(1, x))` lies in [-1, 1], is the identity inside it and keeps the sign of `x` |
| Sentiment.RawScore | ai_service.py:140-145 | the unclamped score is negative exactly when negative hits win and positive exactly when positive hits win |
| Sentiment.AnalyzeSentiment | ai_service.py:132-158 | the score lies in [-1, 1]; the label is negative iff score < -0.3, positive iff score > 0.3, and neutral iff the score lies in [-0.3, 0.3] |
| Sentiment.CountsReported | ai_service.py:136-158 | the `except` branch is never taken: the reported counts are the keyword counts of the lower-cased text |
| Sentiment.ScoreSign | ai_service.py:139-147 | the score is negative, positive or zero exactly when negative hits win, positive hits win, or they tie |
| Sentiment.ClampBinds | ai_service.py:140-147 | one word holding two negative keywords and no positive keyword gives an unclamped score below -1, clamped to -1 |
| Sentiment.CrowdedPositive | ai_service.py:137 | no positive keyword occurs in "buồnkhóc" |
| Sentiment.ClampReached | ai_service.py:147 | the clamp is reachable: "buồnkhóc" scores exactly -1 after an unclamped score below -1 |
| Indicators.AnyOccurs | ai_service.py:164-176 | a category's alternation matches exactly when one of its phrases occurs in the text |
| Indicators.ExtractIndicators | ai_service.py:160-180 | the loop returns exactly the names of the matching categories, in category order |
| Indicators.Matching | ai_service.py:175-178 | the names whose pattern matches, kept in category order; at most one name per category (its iff is `MatchingIff`, its order `MatchingOrdered`) |
| Indicators.MatchingIff | ai_service.py:175-177 | a name is reported exactly when some category with that name matches |
| Indicators.MatchingNamed | ai_service.py:175-177 | every reported name is a category name |
| Indicators.MatchingOrdered | ai_service.py:175-177 | with distinct category names, the result has no duplicates and follows declaration order |
| Indicators.CategoryNamesDistinct | ai_service.py:164-173 | the eight category names are the listed ones and are pairwise distinct |
| Indicators.IndicatorsWellFormed | ai_service.py:160-180 | for any text, the result is duplicate-free, drawn from the eight names and in declaration order |
| Indicators.SuicidalPhraseFlagged | ai_service.py:172-177 | a text whose lower-cased form contains "tự tử" is flagged `suicidal_thoughts` |
| Recommender.RecommendActivities | ai_service.py:232-258 | exactly five activities, equal to the fixed list of the severity tier |
| Recommender.Severity | ai_service.py:237-242 | the tier rule: severe exactly when score < -0.7 or there are at least 4 indicators, mild exactly when score >= -0.4 and there are fewer than 2, moderate otherwise (monotonicity in `SeverityMonotone`) |
| Recommender.SeverityMonotone | ai_service.py:237-242 | a lower score or more indicators never gives a milder tier |
| Tracking.LevelOf | ai_service.py:352-360 | a severe level forces the recommender's severe tier whatever the indicator count; moderate excludes the mild tier; normal means score >= -0.1 |
| Tracking.LevelMonotone | ai_service.py:352-360 | a lower score never gives a milder depression level |
| Tracking.EmergencyDetected | ai_service.py:441 | the emergency gate: a `suicidal_thoughts` indicator or a score below -0.8 raises it; with no indicators it is raised exactly below -0.8 (on extracted indicators, `EmergencyOnExtracted`) |
| Tracking.OnlySuicidalNameMatches | ai_service.py:441 | among the category names, only `suicidal_thoughts` contains `suicidal_thoughts` |
| Tracking.SuicidalNotInConcentration | ai_service.py:441 | `concentration_issues` does not contain `suicidal_thoughts` |
| Tracking.EmergencyOnExtracted | ai_service.py:441 | on extracted indicators, the substring gate is the same as membership of `suicidal_thoughts` or a score below -0.8 |
| Tracking.SuicidalPhraseIsEmergency | ai_service.py:441 | a message containing "tự tử" always raises the emergency flag |
| Tracking.LowScoreIsEmergency | ai_service.py:441 | a score below -0.8 raises the flag and gives the severe level and tier |
| Tracking.MoodTrendOf | ai_service.py:450-452 | the two-sample trend: improving needs at least two samples, and a log that never rises is stable (the exact rule after a sample in `TrendAfterSample`) |
| Tracking.TrendAfterSample | ai_service.py:450-452 | after a sample is logged, the trend is improving iff there was an earlier sample and the new one is strictly higher |
| Tracking.Summarize | ai_service.py:534-553 | the count is the row count; the trend is no-data exactly when there are no rows, with average 0 |
| Tracking.SumAppend | ai_service.py:535-545 | the sum over a concatenation is the sum of the parts |
| Tracking.SumBounds | ai_service.py:535 | scores within [lo, hi] sum to between n*lo and n*hi |
| Tracking.AverageInRange | ai_service.py:535 | since stored scores lie in [-1, 1], so does the dashboard average |
| Tracking.FewRowsStable | ai_service.py:539-542 | with one to five rows the trend is "stable" |
| Tracking.SumConstant | ai_service.py:535 | n equal scores sum to n times the score |
| Tracking.ConstantScoresStable | ai_service.py:534-549 | a user whose scores are all equal is "stable", with that score as average |
| Tracking.OverlapCancels | ai_service.py:539-549 | with 6 to 9 rows the shared rows of the two windows cancel; the trend compares only the non-shared rows, with the 0.1 margin scaled to 0.5 on the sums |
| Sessions.Prune | ai_service.py:463-464 | a history over 30 turns becomes its first turn plus its newest 30; a shorter one is unchanged |
| Sessions.RecordTurn | ai_service.py:404-464 | the per-turn update of a session: the mood log grows by exactly the sample, and the history grows by two turns, capped at 31 (invariant in `RecordTurnKeepsInvariant`) |
| Sessions.Advance | ai_service.py:404-464 | the store after one turn: the sender's key is added if new, other users' sessions are unchanged, and the sender's mood log gains the sample (well-formedness in `AdvanceKeepsStore`) |
| Sessions.RecentMood | ai_service.py:481 | exactly the newest 168 samples of a longer log, and the whole log when it holds at most 168 |
| Sessions.Sentiments | ai_service.py:450-452 | the sentiment list is as long as the log and holds each sample's sentiment in order |
| Sessions.NewSessionWellFormed | ai_service.py:311-318 | a fresh session starts with the system prompt, holds two turns and has an empty mood log |
| Sessions.RecordTurnKeepsInvariant | ai_service.py:404-464 | a turn keeps the prompt first and the history at 2 to 31 turns, ends with the message and the reply, and appends exactly the sample to the mood log |
| Sessions.PruneKeepsNewest | ai_service.py:463-464 | pruning keeps the first turn, never lengthens, and the rest is a suffix of the uncut history |
| Sessions.AdvanceKeepsStore | ai_service.py:404-464 | a turn keeps every stored session well formed, adds only the sender's key, and leaves other users' sessions unchanged |
| Sessions.AdvanceLogsSample | ai_service.py:431-481 | after a turn the sender's mood log ends with the new sample, and the reported trend compares it with the previous sample |
| Sessions.StoreTwice | ai_service.py:312-320 | a map identity, not a property of the program: storing two sessions under one key in turn leaves only the second. It is the step that makes the in-place update of the session handed out by `get_or_create_chat_session` the same final store as one write-back |
| Sessions.Outcome | ai_service.py:437-457 | the hotlines are attached exactly when the emergency flag is raised, and the flag is the gate on the message's indicators and score; five activities are answered and stored; the answer and the chat row carry the reply, and both rows carry the score; the trend is improving exactly when the new sample beats the previous one |
| Sessions.Respond | ai_service.py:437-460 | assembling the recommendations, the emergency flag, the trend, the resources and the two database rows yields exactly the specified response |
| Sessions.SessionStore.constructor | ai_service.py:307 | the store starts empty |
| Sessions.SessionStore.GetOrCreate | ai_service.py:309-320 | an existing session is returned and the store is unchanged; otherwise a fresh session is stored and returned |
| Sessions.SessionStore.Reset | ai_service.py:496-500 | the user's session becomes a fresh one, other users are untouched, and the mood read is empty |
| Sessions.SessionStore.MoodTracking | ai_service.py:475-484 | changes nothing; returns exactly the newest min(168, n) samples of the user's n-sample log, or nothing for an unknown user |
| Sessions.SessionStore.ChatTurn | ai_service.py:384-467 | a blank message is refused and changes nothing; otherwise the store advances by exactly one recorded turn of the sender (fallback text when the model call failed), and the answer is the specified response for the sender's mood log with the new sample |

## Left out

- Flask routing, JSON parsing and the HTTP status codes are not modelled. A request without a body, or whose message is not a string, cannot be expressed here, because the message is typed as a string.
- The `default_user` default for a missing user id is left out; the user id is always a parameter.
- SQLite storage is left out. `save_chat_to_database` and `update_user_tracking` are modelled only as the rows they would write.
- The dashboard's SQL query (a 30-day window, newest first) is left out. `Summarize` takes the selected scores in that order.
- The calls to the hosted language model are left out, and so is the context prompt built for them. The answer is a parameter, and `None` stands for a failed call that gets the fallback text.
- The PhoBERT tokenizer and model and the sentiment pipeline are left out. They are loaded but never used by the modelled operations.
- The system prompt and the greeting are symbolic turn parts rather than their text.
- Timestamps (`last_activity`, the sample timestamps, `last_check`) and logging are left out.
- Sentiment.AnalyzeSentiment and Tracking.Summarize: scores are exact rationals (`real`), not IEEE doubles. Float rounding is not modelled, so a comparison that lands exactly on a threshold can come out differently. For example, five newest rows at -0.7·4/7 against five oldest at -0.5 give "stable" here, but "improving" in Python, where -0.7·4/7 rounds to just above -0.4.
- Tracking.Summarize: the average is not passed through `round(..., 2)`, because decimal rounding of reals adds nothing to the trend rules.
- Text.LowerChar: lower-casing follows Python's `str.lower()` on U+0000-U+017F (Basic Latin, Latin-1, Latin Extended-A), on Ơ and Ư, and on U+1E00-U+1EFF (Latin Extended Additional). Every other character, including the rest of Latin Extended-B and all non-Latin scripts, is left unchanged, where Python would lower-case its capitals.
- Text.LowerChar: İ (U+0130), which Python lower-cases to two characters, is left unchanged.
- The shared session dictionary is not modelled as an aliased object. The session returned by `get_or_create_chat_session` is mutated in place in the source and copied by value here. The final store is the same.
- Concurrent requests on the shared dictionary are left out.
- The `home` and `health_check` endpoints are left out, as they return constants.
- The browser scripts and the PHP proxy are not part of this model.
- Sessions.SessionStore.ChatTurn: the report and the rows are those the source builds. The `except` branch that answers with an error 500 is not modelled, because none of the modelled steps raises.
