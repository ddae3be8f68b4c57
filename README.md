# Study bot core: quiz sessions, question bank, notes and stats tables

This project is a Dafny model of the core of a Telegram study bot, with proofs about it.

- `/quiz <topic>` starts a quiz. It picks random questions from a fixed bank and keeps the session in the user's `user_data` dictionary.
- A text router consumes the answers. It scores each one, asks the next question and, at the end, adds the result to a per-user statistics table.
- `/note add|list|del` keeps short notes per user.

The modules follow the program's files:

| file | module | models |
|---|---|---|
| `wrappers.dfy` | `Wrappers` | `Option` |
| `pystr.dfy` | `PyStr` | the Python `str` built-ins the core calls: `strip`, `lower`, `isalnum`, `join`, `str(int)`, `int(str)` |
| `text.dfy` | `TextUtils` | `app/utils/text.py`: `clamp`, `join_lines` |
| `quiz_bank.dfy` | `QuizBank` | `app/services/quiz_bank.py`: the bank, `normalize`, `available_topics`, `pick_questions`, `check_answer` |
| `db.dfy` | `Db` | `app/db.py`: the `quiz_stats` table (`StatsTable`, a map keyed by user) and the `notes` table (`NotesTable`, a map keyed by note id plus the AUTOINCREMENT counter) |
| `notes.dfy` | `NotesHandler` | `app/handlers/notes.py`: `cmd_note` |
| `quiz.dfy` | `QuizHandler` | `app/handlers/quiz.py`: `cmd_quiz` and `on_text_quiz_router` |

The two quiz handlers are specified in two layers.

- A pure transition gives the new session, the replies and an optional stats upsert: `Start` for `cmd_quiz` and `Route` for the router. It is built from `Session`, a record of the optional `user_data` keys.
- An imperative method mirrors the source statement by statement over a `UserData` object and the stats table: `CmdQuiz` and `OnText`. Each is proved to produce exactly what the transition prescribes.

`cmd_note` has no separate transition. `ParseNote` classifies the arguments, and the contract of the method `CmdNote` gives, case by case, the reply and the new notes table.

The lemmas about the transitions state what the handlers promise:
- the no-op cases;
- stop;
- scoring;
- numbering of the next prompt;
- the single upsert on completion;
- the score/total invariant;
- what a whole run of answers adds to the statistics.

Replies are modelled as data (`QuizReply`, `NoteReply`) rather than rendered strings, except the note replies, whose texts `NoteReply.Text` spells out.

Random choices become parameters:
- `draws` are the random draws of a Fisher–Yates shuffle, standing for `random.shuffle`;
- `first` picks the element `next(iter(answers))` yields from a set.

The docstrings of app/handlers/quiz.py (lines 5-10 and 83) describe asking every picked question in turn. The code queues only one, and the model follows the code (see "## Findings").

Two further facts about the code, which the model keeps:
- a stop discards the session without writing statistics;
- the stop words are compared after `strip().lower()`, not after `normalize`.

## Model

| member | source | states |
|---|---|---|
| PyStr.Strip | app/services/quiz_bank.py:57 | `s.strip()`, a definition: `StripTrimmed`, `StripParts`, `StripIgnoresPadding` and `StripIdempotent` carry its properties |
| PyStr.LowerStr | app/services/quiz_bank.py:49 | `s.lower()` character by character, of the same length; `LowerStrIdempotent` and `LowerStrAppend` carry its properties |
| PyStr.Join | app/handlers/notes.py:38 | `sep.join(parts)`; a single part is returned as is; `JoinLinesKeepsLines` uses it |
| PyStr.ParseInt | app/handlers/notes.py:66-70 | `int(s)`: the whitespace `int()` skips (`isspace` without the separators U+001C–U+001F) is dropped at both ends, then an optional sign and digits; None where Python raises `ValueError`. A definition: `TrimmedParse`, `IntStripIsStrip`, `InfoSeparatorRejected` and `IntToStringRoundTrip` carry its properties |
| PyStr.IntStripIsStrip | app/handlers/notes.py:67 | on text without information separators, what `int()` skips at the ends is exactly what `strip()` removes |
| PyStr.InfoSeparatorRejected | app/handlers/notes.py:67-70 | a leading U+001C–U+001F is whitespace to `isspace` yet makes `int()` fail |
| PyStr.Lower | app/services/quiz_bank.py:49 | lower-casing changes a character exactly when it is upper case, never yields an upper-case letter, and keeps the alphanumeric class |
| PyStr.LowerStrIdempotent | app/services/quiz_bank.py:49 | `s.lower().lower() == s.lower()` |
| PyStr.LowerStrAppend | app/services/quiz_bank.py:49 | lower-casing distributes over concatenation |
| PyStr.StripTrimmed | app/handlers/notes.py:34 | `strip()` leaves no leading or trailing whitespace |
| PyStr.StripParts | app/handlers/notes.py:38 | `strip()` removes only a whitespace prefix and suffix: the input is whitespace + result + whitespace |
| PyStr.StripIgnoresPadding | app/services/quiz_bank.py:57 | surrounding whitespace does not change `strip()` |
| PyStr.StripIdempotent | app/services/quiz_bank.py:57 | `strip()` applied twice equals once |
| PyStr.IntToString | app/handlers/notes.py:46 | `str(id)` is non-empty and has no surrounding whitespace |
| PyStr.IntToStringRoundTrip | app/handlers/notes.py:67 | `int(str(n)) == n`, so the id printed by `add` is accepted back by `del` |
| PyStr.TrimmedParse | app/handlers/notes.py:67 | on text with none of the whitespace `int()` skips at its ends, `int()` is the bare signed-digit parse |
| TextUtils.Clamp | app/utils/text.py:9-13 | text within `max_len` is returned unchanged; longer text becomes its first `max_len - 3` characters plus "...", exactly `max_len` long when `max_len >= 3`; never longer than `max_len` when `max_len >= 3` |
| TextUtils.ClampIdempotent | app/utils/text.py:9-13 | for `max_len >= 3`, clamping a clamped text changes nothing |
| TextUtils.JoinLines | app/utils/text.py:16-17 | the result has no surrounding whitespace; `join_lines([]) == ""`; `join_lines([s]) == s.strip()` |
| TextUtils.JoinLinesKeepsLines | app/utils/text.py:16-17 | when the first line does not start and the last does not end with whitespace, the result is exactly the lines joined by newlines |
| QuizBank.Lookup | app/services/quiz_bank.py:58-60 | `QUIZ_BANK[key]` or None for a missing key, a definition: `LookupIn`, `LookupKnown` and `BankTopicsHaveFive` carry its properties |
| QuizBank.LookupIn | app/services/quiz_bank.py:58-60 | a key is found iff some catalogue entry has it, and then the questions are that entry's |
| QuizBank.BankTopicsHaveFive | app/services/quiz_bank.py:23-45 | every topic of the bank holds five questions |
| QuizBank.LookupKnown | app/services/quiz_bank.py:58 | a key is in the bank iff it is one of the bank's keys |
| QuizBank.TopicKeysValue | app/services/quiz_bank.py:23-45 | the bank's keys in insertion order are python, math, history |
| QuizBank.Normalize | app/services/quiz_bank.py:48-49 | `normalize`, a definition: the `Normalize…` lemmas below carry its properties |
| QuizBank.NormalizeChars | app/services/quiz_bank.py:49 | `normalize` output holds only alphanumerics, `*` and `^`, so no whitespace and no upper-case letter |
| QuizBank.NormalizeWithoutStrip | app/services/quiz_bank.py:49 | the strip in `normalize` is redundant: filtering the lower-cased text gives the same result |
| QuizBank.NormalizeIgnoresPadding | app/services/quiz_bank.py:49 | surrounding whitespace does not change `normalize` |
| QuizBank.NormalizeIgnoresCase | app/services/quiz_bank.py:49 | texts equal after lower-casing normalise equally |
| QuizBank.NormalizeBlank | app/services/quiz_bank.py:49 | empty or whitespace-only text normalises to "" |
| QuizBank.NormalizeIdempotent | app/services/quiz_bank.py:49 | `normalize(normalize(s)) == normalize(s)` |
| QuizBank.Insert | app/services/quiz_bank.py:53 | inserting into a sorted list keeps it sorted and adds exactly that element |
| QuizBank.Sort | app/services/quiz_bank.py:53 | `sorted` yields an ascending permutation of its input |
| QuizBank.AvailableTopics | app/services/quiz_bank.py:52-53 | the topic list is sorted, a permutation of the bank's keys, and holds exactly the keys `pick_questions` accepts |
| QuizBank.AvailableTopicsValue | app/services/quiz_bank.py:52-53 | `available_topics() == ["history", "math", "python"]` |
| QuizBank.Shuffle | app/services/quiz_bank.py:61 | `random.shuffle` as a Fisher–Yates pass driven by the draws, of the same length; `ShufflePermutes` and `ShuffleInPlace` carry its properties |
| QuizBank.ShufflePermutes | app/services/quiz_bank.py:61 | the shuffle is a permutation of the list, whatever the random draws |
| QuizBank.ShuffleInPlace | app/services/quiz_bank.py:61 | the in-place Fisher–Yates pass on an array leaves exactly the shuffle of the old contents |
| PyStr.StripLowerIdempotent | app/services/quiz_bank.py:57 | `strip().lower()` of a topic key, subcommand or stop word is its own `strip().lower()` |
| QuizBank.ShuffledPrefix | app/services/quiz_bank.py:60-62 | copying, shuffling and truncating gives `max(1, min(count, len))` questions (at most the list length) that head the shuffle, each taken at most as often as the list holds it |
| QuizBank.Picks | app/services/quiz_bank.py:56-62 | `pick_questions`, a definition: `PicksSpec` carries its properties |
| QuizBank.PicksSpec | app/services/quiz_bank.py:56-62 | the pick is empty iff the stripped, lower-cased topic is not a bank key; otherwise it has exactly `max(1, min(count, len))` questions, heads the shuffle of the topic's list and takes each question at most as often as the list holds it |
| QuizBank.PickQuestions | app/services/quiz_bank.py:56-62 | the method computes the pick described by `PicksSpec` |
| QuizBank.CheckAnswer | app/services/quiz_bank.py:65-70 | the loop answers true iff the normalised answer equals the normalised form of some accepted answer |
| QuizBank.AcceptedAnswerVariants | app/services/quiz_bank.py:65-70 | an accepted answer in any letter case and with any surrounding whitespace is accepted |
| QuizBank.LowerAnswersAccepts | app/handlers/quiz.py:113 | lower-casing the stored answers before checking changes no verdict |
| Db.Upserted | app/db.py:143-174 | after an upsert the user has a row whose three totals are the previous totals (zeros when absent) plus the deltas and whose `last_topic` is overwritten (also by None); the keys gain only that user; other rows are unchanged |
| Db.UpsertAll | app/db.py:143-174 | a sequence of upserts applied in order, a definition: `UpsertAllTotals` carries its properties |
| Db.UpsertAllTotals | app/db.py:151-155 | over any sequence of upserts each total of a user is its start value plus the sum of that user's deltas; a user no upsert names keeps their row or its absence |
| Db.StatsTable.Get | app/db.py:117-140 | the stored row, or zeros with no topic for a user without one |
| Db.StatsTable.Upsert | app/db.py:143-174 | the table becomes `Upserted` of the old table |
| Db.UserNoteIdsSpec | app/db.py:76-86 | the candidate ids are the user's notes, strictly descending, and include every note of the user |
| Db.Limited | app/db.py:82 | `LIMIT` keeps a prefix of at most `limit` rows and all rows when the limit is negative or not reached |
| Db.ListedRows | app/db.py:72-89 | the rows `list_notes` selects, a definition: `ListedRowsSpec` and `ListedRowsNewestFirst` carry its properties |
| Db.ListedRowsSpec | app/db.py:72-89 | `list_notes` returns only the user's notes with their stored fields, at most `limit`, in strictly descending id, and all of them when fewer than `limit` |
| Db.ListedRowsNewestFirst | app/db.py:76-86 | any note of the user left out of the listing is older than every listed note |
| Db.NotesTable.constructor | app/db.py:30-39 | a new table is empty with the id counter at zero |
| Db.NotesTable.AddNote | app/db.py:58-69 | exactly one note is inserted, under an id above every id issued before, which is returned |
| Db.NotesTable.ListNotes | app/db.py:72-89 | the method returns `ListedRows` of the table |
| Db.NotesTable.DeleteNote | app/db.py:92-103 | answers true iff the id exists and belongs to the user, and removes exactly that note; otherwise the table is unchanged |
| Db.NotesTable.CountNotes | app/db.py:106-114 | the count of notes whose owner is the user |
| Db.ListingMatchesCount | app/db.py:106-114 | an unlimited listing has as many rows as `count_notes` counts |
| NotesHandler.ParseNote | app/handlers/notes.py:24-70 | no arguments means usage; `add`, `list` and `del` are recognised exactly when the stripped, lower-cased first argument says so; `add` carries the stripped, space-joined rest, never empty, and the add-usage case arises only when that rest is blank; `del` carries `int(args[1])` when it fits SQLite's signed 64-bit INTEGER and the out-of-range case carries it otherwise, the del-usage case arises only with fewer than two arguments and the bad-id case only when `int(args[1])` fails |
| NotesHandler.SubcommandIgnoresPaddingAndCase | app/handlers/notes.py:34 | first arguments equal after strip and lower give the same command |
| NotesHandler.NoteLine | app/handlers/notes.py:57 | a listing line is non-empty and ends with `]` |
| NotesHandler.NoteLines | app/handlers/notes.py:56-57 | one line per row, in the rows' order |
| NotesHandler.BuildLines | app/handlers/notes.py:55-57 | the loop yields the header followed by one line per row, in order |
| NotesHandler.NoteReply.Text | app/handlers/notes.py:26-76 | the message each reply sends, verbatim, including the new note's id; the raised case has no message |
| NotesHandler.ListReply | app/handlers/notes.py:49-59 | the reply to `list`: the empty-notes reply for no rows, else the joined listing, a definition: `ListingIsJoined` and `CmdNote` carry its properties |
| NotesHandler.ListingIsJoined | app/handlers/notes.py:55-59 | `join_lines` strips nothing from a listing: the reply is the header and lines joined by newlines |
| NotesHandler.CmdNote | app/handlers/notes.py:22-76 | per subcommand: `add` inserts one note with the stripped text and replies with its id; `del` deletes exactly when the user owns the id and replies accordingly; `list` replies with the rendered listing; usage and error replies change nothing; an id outside the signed 64-bit range makes the handler raise while `delete_note` binds it (app/db.py:96-99), so there is no reply and the table is unchanged |
| QuizHandler.Start | app/handlers/quiz.py:23-79 | `cmd_quiz` as a transition, a definition: `StartRejects`, `StartEnqueuesOne` and `StartKeepsScoreBounded` carry its properties, and `CmdQuiz` is proved to implement it |
| QuizHandler.Seeded | app/handlers/quiz.py:43-75 | the successful tail of `cmd_quiz`, a definition: `SeededAppendsOne` and `StartEnqueuesOne` carry its properties, and `Seed` is proved to implement it |
| QuizHandler.SeededAppendsOne | app/handlers/quiz.py:61-71 | a successful start appends its first question to the queue, sets waiting and leaves score and total alone |
| QuizHandler.StartRejects | app/handlers/quiz.py:24-41 | without arguments, with an unknown topic or without a chat, `cmd_quiz` only replies and leaves `user_data` as it was |
| QuizHandler.StartEnqueuesOne | app/handlers/quiz.py:61-75 | a successful `cmd_quiz` appends exactly one question to the queue, the first picked one (a question of the topic), keeps the entries already there, sets waiting, topic and expected answers, leaves score and total alone, and announces question 1 of 3 |
| QuizHandler.StartKeepsScoreBounded | app/handlers/quiz.py:61-75 | from a session without counters, `cmd_quiz` keeps the score/total invariant; during an unfinished quiz it does not (`RestartOvercounts`) |
| QuizHandler.Route | app/handlers/quiz.py:80-178 | `on_text_quiz_router` as a transition, a definition: the `Route…` lemmas below carry its properties, and `OnText` is proved to implement it |
| QuizHandler.Answer | app/handlers/quiz.py:112-178 | the answer step, a definition: `RouteAnswers` carries its properties, and `AnswerFront` is proved to implement it |
| QuizHandler.Scored | app/handlers/quiz.py:112-132 | the scoring step, a definition: `RouteAnswers` carries its properties, and `ScoreFront` is proved to implement it |
| QuizHandler.RouteIgnores | app/handlers/quiz.py:86-91 | without text, or when not waiting, the router changes nothing, replies nothing and writes nothing |
| QuizHandler.RouteStops | app/handlers/quiz.py:93-102 | a stop word removes waiting, queue, score, total and topic, keeps the expected answers, writes no stats and acknowledges |
| QuizHandler.RouteNothingQueued | app/handlers/quiz.py:105-110 | waiting with a missing or empty queue clears only waiting and writes nothing |
| QuizHandler.FrontAccepts | app/handlers/quiz.py:112-125 | checking the stripped message against the rebuilt question accepts exactly what checking the raw message against the stored entry accepts |
| QuizHandler.RouteAnswers | app/handlers/quiz.py:112-178 | on an answer the score starts at 0 and the total at the queue length; the score rises by one iff the answer is accepted; the total is kept; exactly the front entry leaves. With entries left, the next prompt is numbered `total - len(queue) + 1`. Otherwise exactly one upsert (one quiz, `total` questions, `score` correct, the topic or None) is written and the quiz keys are cleared |
| QuizHandler.RouteLastAnswer | app/handlers/quiz.py:139-172 | the answer to the last queued question writes one upsert of the final counters and clears the session |
| QuizHandler.RouteNextAnswer | app/handlers/quiz.py:112-136 | an answer with questions left writes nothing and leaves the rest of the queue in order with the updated counters |
| QuizHandler.WrongShowsAccepted | app/handlers/quiz.py:129-132 | the example shown after a wrong answer is itself an accepted answer |
| QuizHandler.RouteKeepsScoreBounded | app/handlers/quiz.py:115-153 | the router keeps `score + len(queue) <= total` with score and total set together, and any upsert it writes has one quiz and `0 <= correct_add <= questions_add` |
| QuizHandler.RouterAnswerSteps | app/handlers/quiz.py:112-172 | the router, viewed as a step on the session, has the answer behaviour the run lemmas below assume |
| QuizHandler.AnswersCompleteQuiz | app/handlers/quiz.py:112-172 | answering every queued question in turn emits exactly one upsert, with the total fixed by the first answer and the score plus the number of right answers, and ends with the quiz keys cleared |
| QuizHandler.QuizRunUpdatesStats | app/handlers/quiz.py:139-153 | after such a run the user's stats row gains one quiz, `total` questions and the right answers, and records the topic |
| QuizHandler.StartAsksOneOfThree | app/handlers/quiz.py:49-75 | as written, a first `/quiz` on a known topic announces question 1 of 3, yet one answer completes the quiz with a summary and upsert of one question |
| QuizHandler.StartIntended | app/handlers/quiz.py:51-75 | the corrected `cmd_quiz`, a definition: it queues every picked question and starts the quiz afresh; `StartIntendedQueuesAll`, `IntendedQuizCountsAll` and `StartIntendedKeepsScoreBounded` carry its properties |
| QuizHandler.StartIntendedQueuesAll | app/handlers/quiz.py:51-75 | from any session, a successful corrected start queues exactly three questions with no counters and announces the first as 1 of 3 |
| QuizHandler.IntendedQuizCountsAll | app/handlers/quiz.py:5-10 | with every picked question queued, answering all three writes one upsert of three questions with the number of right answers, the total announced at the start |
| QuizHandler.RestartOvercounts | app/handlers/quiz.py:68-71 | as written, `/quiz` twice, a right answer, `/quiz` again and two more right answers upsert 3 correct answers out of 2 questions |
| QuizHandler.StartIntendedKeepsScoreBounded | app/handlers/quiz.py:116-119 | the corrected start keeps the score/total invariant from any session, mid-quiz included, so every upsert has `correct_add <= questions_add` |
| QuizHandler.Seed | app/handlers/quiz.py:43-75 | the loop over the picked questions updates `user_data` and replies exactly as `Seeded` prescribes |
| QuizHandler.CmdQuiz | app/handlers/quiz.py:23-79 | the handler updates `user_data` and replies exactly as `Start` prescribes |
| QuizHandler.ScoreFront | app/handlers/quiz.py:112-132 | the scoring statements set the counters and choose the verdict as `Scored` prescribes |
| QuizHandler.AnswerFront | app/handlers/quiz.py:112-178 | the answer step updates `user_data`, the stats table and the replies as `Answer` prescribes |
| QuizHandler.OnText | app/handlers/quiz.py:80-178 | the router updates `user_data`, the stats table and the replies exactly as `Route` prescribes; the table changes only by the upsert `Route` emits |

## Left out

- Telegram transport: `Update`, `reply_text`, async handlers and their registration. Replies are returned values; which user sent a message is a parameter, with `0` when absent.
- SQLite mechanics: connections, SQL text, commits, and the schema set-up in `init_db`. Tables are in-memory maps; the AUTOINCREMENT counter is the `lastId` field.
- The weather commands, the `/stats` rendering and the configuration loading are not part of this model. They are network I/O, floating-point formatting and environment reads.
- The summary's percentage at app/handlers/quiz.py:155 is a float. `Summary` carries only the score and the total.
- Randomness. `random.shuffle` becomes a Fisher–Yates pass driven by caller-supplied draws. `next(iter(answers))` is a caller-supplied choice function; `WrongShowsAccepted` requires only that it picks a member.
- The clock. The note timestamp `datetime.now(...).isoformat()` is a parameter of `CmdNote`.
- PyStr.Lower: case mapping covers ASCII, Latin-1 and basic Cyrillic only. Other characters are their own lower case. Multi-character lower-case expansions are not modelled.
- PyStr.IsAlnum: `isalnum` is restricted to the same scripts (Latin-1 includes ª, ², ³, µ, ¹, º, ¼, ½ and ¾). Alphanumerics of other scripts are dropped by `normalize` in this model.
- PyStr.ParseInt: accepts ASCII digits with single underscores, an optional sign and surrounding whitespace other than U+001C–U+001F. Non-ASCII digits accepted by Python's `int()` are not modelled.
- PyStr.ParseInt: there is no digit limit. Python's `int()` raises `ValueError` on more than 4300 digits, so `/note del` with such an id gets the bad-id reply (app/handlers/notes.py:68-70), while the model parses it, finds it outside the 64-bit range and raises.
- Db.NotesTable.DeleteNote: takes any integer id. Binding an id outside SQLite's signed 64-bit range raises `OverflowError` in the source (app/db.py:96-99); `CmdNote` models that case and never calls the method with such an id.
- Db.NotesTable.AddNote: the user id is taken to fit SQLite's signed 64-bit INTEGER, as Telegram user ids do; the `OverflowError` on binding a larger one is not modelled.
- Db.NotesTable.ListNotes: the user id is taken to fit SQLite's signed 64-bit INTEGER, as Telegram user ids do; the `OverflowError` on binding a larger one is not modelled.
- Db.StatsTable.Upsert: the user id is taken to fit SQLite's signed 64-bit INTEGER, as Telegram user ids do; the `OverflowError` on binding a larger one is not modelled.
- QuizHandler.AnswersCompleteQuiz: the multi-message run is stated over any step function with the router's answer behaviour. `RouterAnswerSteps` shows the router is one; a run interleaved with `/quiz` calls or stop words is not covered.
- Reply texts of the quiz handler are structured values. Their exact Russian wording is not modelled.

## Findings

| source | as written | input that shows it | evidently intended | confidence | as-written member | corrected member |
|---|---|---|---|---|---|---|
| app/handlers/quiz.py:51-75 | the loop over the picked questions returns in its first iteration, so only the first question is queued while the prompt announces `1/3` | `/quiz python` from a fresh session, then any answer: the quiz ends at once with result `x/1` and adds one question to the stats | queue every picked question and ask only the first, so the router asks the rest in turn, as the module's docstring (lines 5-10) and the loop's comments describe | high; not executed | QuizHandler.StartAsksOneOfThree | QuizHandler.IntendedQuizCountsAll |
| app/handlers/quiz.py:68-71 | a `/quiz` during an unfinished quiz appends to its queue but keeps `quiz_score` and `quiz_total`, which the router sets only when absent (lines 116-119) | `/quiz t` twice, a right answer (score 1, total 2), `/quiz t`, two more right answers: the upsert has `questions_add=2`, `correct_add=3` and the summary reads `3/2` | a new quiz starts afresh, so that `0 <= score <= total` always holds | high; not executed | QuizHandler.RestartOvercounts | QuizHandler.StartIntendedKeepsScoreBounded |

`CmdQuiz` and `Start` model the code as written. The corrected start, `StartIntended`, queues every picked question and drops an unfinished quiz's entries and counters. The lemmas about a full three-answer run and about the invariant from any session use it.
