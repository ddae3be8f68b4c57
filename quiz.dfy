/**
 * The `/quiz <topic>` dialogue (app/handlers/quiz.py). `cmd_quiz` seeds the
 * quiz keys of the per-user dictionary `context.user_data`; every later
 * text message goes through `on_text_quiz_router`, which checks it against
 * the front of the question queue, keeps the score and, when the queue
 * runs out, writes one `quiz_stats` upsert and clears the quiz keys.
 */
module QuizHandler {
  import opened Wrappers
  import opened PyStr
  import opened QuizBank
  import opened Db

  /** One entry of `quiz_queue`: `{"question": ..., "answers": [...]}`. */
  datatype QueueItem = QueueItem(question: string, answers: set<string>)

  /**
   * The quiz keys of `context.user_data`; `None` means the key is absent.
   * `quiz_waiting` is only ever stored as `True`, so absent is `false`.
   */
  datatype Session = Session(
    waiting: bool,                  // quiz_waiting
    queue: Option<seq<QueueItem>>,  // quiz_queue
    topic: Option<string>,          // quiz_topic
    expected: Option<set<string>>,  // quiz_expected_answers
    score: Option<int>,             // quiz_score
    total: Option<int>)             // quiz_total

  /** A user who has never run a quiz. */
  const NoSession := Session(false, None, None, None, None, None)

  /** The messages the two handlers send. */
  datatype QuizReply =
    | TopicMissing(topics: string)                       // "Укажи тему: /quiz <тема>\nДоступно: ..."
    | UnknownTopic(topics: string)                       // "Не знаю такую тему.\nДоступно: ..."
    | NoChat                                             // "Не удалось определить чат."
    | Started(topic: string)                             // "Викторина по теме: ..."
    | Prompt(number: int, total: int, question: string)  // "Вопрос n/total: ..."
    | Correct                                            // "Верно ✅"
    | Wrong(example: string)                             // "Не совсем ❌ Пример правильного ответа: ..."
    | Summary(score: int, total: int)                    // "Викторина завершена!\nРезультат: score/total ..."
    | Stopped                                            // "Ок, остановил викторину."
    | AlreadyFinished                                    // "Похоже, викторина уже завершена. ..."

  /** What one handler call does: the new session, its replies, its stats write. */
  datatype Outcome = Outcome(next: Session, replies: seq<QuizReply>, write: Option<StatsDelta>)

  /** `", ".join(available_topics())`. */
  function TopicList(): string {
    Join(", ", AvailableTopics())
  }

  /** The queue entry `cmd_quiz` stores for a question. */
  function ItemOf(q: Question): QueueItem {
    QueueItem(q.text, q.answers)
  }

  // ---------------------------------------------------------------------
  // cmd_quiz

  /**
   * `cmd_quiz` as written. `draws` are the random draws of the shuffle in
   * `pick_questions`; `hasChat` is whether the update names a chat. The
   * loop over the picked questions returns in its first iteration, so a
   * successful call enqueues the first picked question only, while its
   * prompt announces all of them.
   */
  function Start(s: Session, args: seq<string>, hasChat: bool, draws: seq<nat>): Outcome {
    if args == [] then Outcome(s, [TopicMissing(TopicList())], None)
    else
      var topic := StripLower(args[0]);
      var questions := Picks(topic, 3, draws);
      if questions == [] then Outcome(s, [UnknownTopic(TopicList())], None)
      else if !hasChat then Outcome(s, [NoChat], None)
      else Seeded(s, topic, questions)
  }

  /** The session and replies of a successful `cmd_quiz` that picked `questions`. */
  function Seeded(s: Session, topic: string, questions: seq<Question>): Outcome
    requires questions != []
  {
    var q := questions[0];
    Outcome(s.(waiting := true, expected := Some(q.answers), topic := Some(topic),
               queue := Some(s.queue.GetOr([]) + [ItemOf(q)])),
            [Started(topic), Prompt(1, |questions|, q.text)], None)
  }

  /**
   * Without arguments, with a topic the catalogue lacks, or without a chat,
   * `cmd_quiz` only replies: the session is left as it was.
   */
  lemma StartRejects(s: Session, args: seq<string>, hasChat: bool, draws: seq<nat>)
    requires args == [] || Lookup(StripLower(args[0])).None? || !hasChat
    ensures Start(s, args, hasChat, draws).next == s
    ensures Start(s, args, hasChat, draws).write.None?
    ensures args == [] ==> Start(s, args, hasChat, draws).replies == [TopicMissing(TopicList())]
    ensures args != [] && Lookup(StripLower(args[0])).None? ==>
              Start(s, args, hasChat, draws).replies == [UnknownTopic(TopicList())]
  {
    if args != [] {
      StripLowerIdempotent(args[0]);
      PicksSpec(StripLower(args[0]), 3, draws);
    }
  }

  /**
   * A successful `cmd_quiz` appends exactly one question of the requested
   * topic to the queue, keeps the entries already there, marks the user as
   * waiting and records the topic and the question's answers; score and
   * total are untouched. Its first prompt nevertheless announces 3 questions.
   */
  lemma StartEnqueuesOne(s: Session, args: seq<string>, draws: seq<nat>)
    requires args != [] && Lookup(StripLower(args[0])).Some?
    ensures var o := Start(s, args, true, draws);
      var oldQueue := s.queue.GetOr([]);
      && o.write.None?
      && o.next.waiting
      && o.next.topic == Some(StripLower(args[0]))
      && o.next.score == s.score && o.next.total == s.total
      && o.next.queue.Some? && |o.next.queue.value| == |oldQueue| + 1
      && o.next.queue.value[..|oldQueue|] == oldQueue
      && (exists q :: q in Lookup(StripLower(args[0])).value
                        && q == Picks(StripLower(args[0]), 3, draws)[0]
                        && o.next.queue.value[|oldQueue|] == ItemOf(q)
                        && o.next.expected == Some(q.answers)
                        && o.replies == [Started(StripLower(args[0])), Prompt(1, 3, q.text)])
  {
    var topic := StripLower(args[0]);
    StripLowerIdempotent(args[0]);
    var qs := Lookup(topic).value;
    BankTopicsHaveFive(topic);
    ShufflePermutes(qs, draws);
    var picked := Picks(topic, 3, draws);
    assert picked == Shuffle(qs, draws)[..3];
    var q := picked[0];
    assert q in multiset(Shuffle(qs, draws));
    assert q in qs;
    var o := Start(s, args, true, draws);
    var oldQueue := s.queue.GetOr([]);
    assert o.next.queue.value == oldQueue + [ItemOf(q)];
    assert o.next.queue.value[|oldQueue|] == ItemOf(q);
  }

  // ---------------------------------------------------------------------
  // on_text_quiz_router

  /** The messages that stop a quiz, after `strip().lower()`. */
  const StopWords: set<string> := {"стоп", "stop", "cancel"}

  /** `text.strip().lower() in {"стоп", "stop", "cancel"}`. */
  predicate IsStop(text: string) {
    StripLower(text) in StopWords
  }

  /** A message the router treats as an answer: non-empty and not a stop word. */
  predicate IsAnswer(text: Option<string>) {
    text.Some? && text.value != "" && !IsStop(text.value)
  }

  /** The session after the quiz keys are popped; `quiz_expected_answers` stays. */
  function Cleared(s: Session): Session {
    s.(waiting := false, queue := None, score := None, total := None, topic := None)
  }

  /** The question the router rebuilds from a queue entry, answers lower-cased. */
  function FrontQuestion(item: QueueItem): Question {
    LowerAnswers(Question(item.question, item.answers))
  }

  /**
   * The example answer shown after a wrong answer: `next(iter(answers))`,
   * or "—" for an empty set. `first` stands for the element set iteration
   * yields first, which the program does not fix.
   */
  function Example(answers: set<string>, first: set<string> -> string): string {
    if answers == {} then "—" else first(answers)
  }

  /** `str(user_data.get("quiz_topic", "")) or None`. */
  function StoredTopic(s: Session): Option<string> {
    if s.topic.None? || s.topic.value == "" then None else s.topic
  }

  /**
   * The first half of the router's answer step: `quiz_score` starts at 0
   * and `quiz_total` at the queue length when absent, the score rises when
   * `t` (the stripped message) is accepted, and the verdict is chosen.
   */
  function Scored(s: Session, t: string, first: set<string> -> string): (Session, QuizReply)
    requires s.queue.Some? && s.queue.value != []
  {
    var queue := s.queue.value;
    var q := FrontQuestion(queue[0]);
    var ok := Accepts(q, t);
    (s.(score := Some(s.score.GetOr(0) + (if ok then 1 else 0)), total := Some(s.total.GetOr(|queue|))),
     if ok then Correct else Wrong(Example(q.answers, first)))
  }

  /**
   * The router's answer step: score the front entry, drop it, then prompt
   * the next question or, when none is left, write the stats and clear the
   * quiz keys.
   */
  function Answer(s: Session, t: string, userId: int, first: set<string> -> string): Outcome
    requires s.queue.Some? && s.queue.value != []
  {
    var (m, verdict) := Scored(s, t, first);
    var rest := s.queue.value[1..];
    if rest == [] then
      Outcome(Cleared(s), [verdict, Summary(m.score.value, m.total.value)],
              Some(StatsDelta(userId, 1, m.total.value, m.score.value, StoredTopic(s))))
    else
      Outcome(m.(queue := Some(rest)),
              [verdict, Prompt(m.total.value - |rest| + 1, m.total.value, rest[0].question)], None)
  }

  /** `on_text_quiz_router` for one message `text` from user `userId`. */
  function Route(s: Session, text: Option<string>, userId: int, first: set<string> -> string): Outcome {
    if text.None? || text.value == "" || !s.waiting then Outcome(s, [], None)
    else if IsStop(text.value) then Outcome(Cleared(s), [Stopped], None)
    else if s.queue.GetOr([]) == [] then Outcome(s.(waiting := false), [AlreadyFinished], None)
    else Answer(s, Strip(text.value), userId, first)
  }

  /** Without text, or when the user is not in a quiz, the router does nothing. */
  lemma RouteIgnores(s: Session, text: Option<string>, userId: int, first: set<string> -> string)
    requires text.None? || text == Some("") || !s.waiting
    ensures Route(s, text, userId, first) == Outcome(s, [], None)
  {
  }

  /**
   * A stop word ends the quiz: waiting, queue, score, total and topic are
   * dropped, the expected answers stay, and nothing is written.
   */
  lemma RouteStops(s: Session, text: string, userId: int, first: set<string> -> string)
    requires s.waiting && text != "" && IsStop(text)
    ensures Route(s, Some(text), userId, first).next == Cleared(s)
    ensures Route(s, Some(text), userId, first).next.expected == s.expected
    ensures Route(s, Some(text), userId, first).write.None?
    ensures Route(s, Some(text), userId, first).replies == [Stopped]
  {
  }

  /** An answer while the queue is empty or missing only drops `quiz_waiting`. */
  lemma RouteNothingQueued(s: Session, text: Option<string>, userId: int, first: set<string> -> string)
    requires s.waiting && IsAnswer(text) && s.queue.GetOr([]) == []
    ensures Route(s, text, userId, first) == Outcome(s.(waiting := false), [AlreadyFinished], None)
  {
  }

  /** The router's check of the stripped text against the lower-cased answers is `check_answer` on the entry. */
  lemma FrontAccepts(item: QueueItem, text: string)
    ensures Accepts(FrontQuestion(item), Strip(text)) <==> Accepts(Question(item.question, item.answers), text)
  {
    LowerAnswersAccepts(Question(item.question, item.answers), Strip(text));
    StripIdempotent(text);
    assert Normalize(Strip(text)) == Normalize(text);
  }

  /** 1 when the answer `text` is right for `item`, else 0. */
  function Mark(item: QueueItem, text: string): int {
    if Accepts(Question(item.question, item.answers), text) then 1 else 0
  }

  /**
   * One answer: score starts at 0 and total at the queue length when
   * absent; score rises by one exactly when the answer is right; total is
   * kept; exactly the front entry leaves the queue. If entries remain the
   * next prompt is numbered `total - len(queue) + 1`; otherwise exactly one
   * upsert is written with one quiz, `total` questions and `score` correct
   * answers, and the quiz keys are cleared.
   */
  lemma RouteAnswers(s: Session, text: Option<string>, userId: int, first: set<string> -> string)
    requires s.waiting && IsAnswer(text) && s.queue.GetOr([]) != []
    ensures var o := Route(s, text, userId, first);
      var queue := s.queue.value;
      var total := s.total.GetOr(|queue|);
      var score := s.score.GetOr(0) + Mark(queue[0], text.value);
      && |o.replies| == 2
      && (o.replies[0] == Correct <==> Mark(queue[0], text.value) == 1)
      && (|queue| > 1 ==>
            && o.next == s.(queue := Some(queue[1..]), score := Some(score), total := Some(total))
            && o.write.None?
            && o.replies[1] == Prompt(total - (|queue| - 1) + 1, total, queue[1].question))
      && (|queue| == 1 ==>
            && o.next == Cleared(s)
            && o.write == Some(StatsDelta(userId, 1, total, score, StoredTopic(s)))
            && o.replies[1] == Summary(score, total))
  {
    var queue := s.queue.value;
    assert Route(s, text, userId, first) == Answer(s, Strip(text.value), userId, first);
    FrontAccepts(queue[0], text.value);
    var (m, verdict) := Scored(s, Strip(text.value), first);
    assert m.score == Some(s.score.GetOr(0) + Mark(queue[0], text.value));
    assert verdict == Correct <==> Mark(queue[0], text.value) == 1;
  }

  /** The last queued answer: one upsert, and the quiz keys are cleared. */
  lemma RouteLastAnswer(s: Session, text: Option<string>, userId: int, first: set<string> -> string)
    requires s.waiting && IsAnswer(text) && s.queue.Some? && |s.queue.value| == 1
    ensures Route(s, text, userId, first).write ==
              Some(StatsDelta(userId, 1, s.total.GetOr(1), s.score.GetOr(0) + Mark(s.queue.value[0], text.value), StoredTopic(s)))
    ensures Route(s, text, userId, first).next == Cleared(s)
  {
    RouteAnswers(s, text, userId, first);
  }

  /** An answer with more questions queued: no upsert, the counters carried on. */
  lemma RouteNextAnswer(s: Session, text: Option<string>, userId: int, first: set<string> -> string)
    requires s.waiting && IsAnswer(text) && s.queue.Some? && |s.queue.value| > 1
    ensures Route(s, text, userId, first).write.None?
    ensures Route(s, text, userId, first).next ==
              s.(queue := Some(s.queue.value[1..]),
                 score := Some(s.score.GetOr(0) + Mark(s.queue.value[0], text.value)),
                 total := Some(s.total.GetOr(|s.queue.value|)))
  {
    RouteAnswers(s, text, userId, first);
  }

  /**
   * The wrong-answer reply shows an accepted answer, when `first` does pick
   * from the set it is given.
   */
  lemma WrongShowsAccepted(s: Session, text: Option<string>, userId: int, first: set<string> -> string)
    requires forall a: set<string> :: a != {} ==> first(a) in a
    requires s.waiting && IsAnswer(text) && s.queue.GetOr([]) != []
    requires Route(s, text, userId, first).replies[0].Wrong?
    requires s.queue.value[0].answers != {}
    ensures Accepts(Question(s.queue.value[0].question, s.queue.value[0].answers),
                    Route(s, text, userId, first).replies[0].example)
  {
    var item := s.queue.value[0];
    var q := FrontQuestion(item);
    var a :| a in item.answers;
    assert LowerStr(a) in q.answers;
    var ex := first(q.answers);
    assert ex in q.answers;
    assert Accepts(q, ex);
    LowerAnswersAccepts(Question(item.question, item.answers), ex);
  }

  /**
   * The counters' invariant: score and total are present together, and
   * the score plus the questions still queued never exceed the total.
   */
  predicate ScoreBounded(s: Session) {
    && (s.score.Some? <==> s.total.Some?)
    && (s.score.Some? ==> 0 <= s.score.value && s.score.value + |s.queue.GetOr([])| <= s.total.value)
  }

  /**
   * The router keeps the counters' invariant, and any upsert it writes has
   * `0 <= correct_add <= questions_add`.
   */
  lemma RouteKeepsScoreBounded(s: Session, text: Option<string>, userId: int, first: set<string> -> string)
    requires ScoreBounded(s)
    ensures ScoreBounded(Route(s, text, userId, first).next)
    ensures Route(s, text, userId, first).write.Some? ==>
              var d := Route(s, text, userId, first).write.value;
              0 <= d.correctAdd <= d.questionsAdd && d.quizzesAdd == 1
  {
    if s.waiting && IsAnswer(text) && s.queue.GetOr([]) != [] {
      RouteAnswers(s, text, userId, first);
    }
  }

  /** `cmd_quiz` keeps the invariant as long as no quiz is half answered. */
  lemma StartKeepsScoreBounded(s: Session, args: seq<string>, hasChat: bool, draws: seq<nat>)
    requires ScoreBounded(s) && s.score.None?
    ensures ScoreBounded(Start(s, args, hasChat, draws).next)
  {
  }

  /** Messages handled one by one by `step`: the final session and the upserts written, in order. */
  function Feed(step: (Session, Option<string>) -> Outcome, s: Session, texts: seq<Option<string>>): (Session, seq<StatsDelta>)
    decreases |texts|
  {
    if texts == [] then (s, [])
    else
      var o := step(s, texts[0]);
      var (f, ws) := Feed(step, o.next, texts[1..]);
      (f, (if o.write.Some? then [o.write.value] else []) + ws)
  }

  /** `on_text_quiz_router` for the messages of user `userId`, as a step for `Feed`. */
  function RouterStep(userId: int, first: set<string> -> string): (Session, Option<string>) -> Outcome {
    (x: Session, t: Option<string>) => Route(x, t, userId, first)
  }

  /** How many of `texts` are right answers to the entries of `items`, position by position. */
  function CorrectCount(items: seq<QueueItem>, texts: seq<Option<string>>): int
    requires |items| == |texts|
  {
    if items == [] then 0
    else Mark(items[0], texts[0].GetOr("")) + CorrectCount(items[1..], texts[1..])
  }

  /** The session after an answer `t` that leaves questions queued: the front entry dropped, the counters carried on. */
  function Advanced(s: Session, t: string): Session
    requires s.queue.Some? && s.queue.value != []
  {
    s.(queue := Some(s.queue.value[1..]),
       score := Some(s.score.GetOr(0) + Mark(s.queue.value[0], t)),
       total := Some(s.total.GetOr(|s.queue.value|)))
  }

  /**
   * A handler that treats an answer as the router does while questions are
   * queued: the front entry leaves the queue and the counters move on; after
   * the last entry the quiz keys are cleared and one upsert is written.
   */
  ghost predicate AnswerSteps(step: (Session, Option<string>) -> Outcome, userId: int) {
    forall x: Session, t: Option<string> :: x.waiting && IsAnswer(t) && x.queue.Some? && x.queue.value != [] ==>
      if |x.queue.value| == 1 then
        && step(x, t).next == Cleared(x)
        && step(x, t).write == Some(StatsDelta(userId, 1, x.total.GetOr(1), x.score.GetOr(0) + Mark(x.queue.value[0], t.value), StoredTopic(x)))
      else
        && step(x, t).write.None?
        && step(x, t).next == Advanced(x, t.value)
  }

  /** The router is such a handler. */
  lemma RouterAnswerSteps(userId: int, first: set<string> -> string)
    ensures AnswerSteps(RouterStep(userId, first), userId)
  {
    forall x: Session, t: Option<string> | x.waiting && IsAnswer(t) && x.queue.Some? && x.queue.value != []
      ensures if |x.queue.value| == 1 then
          && RouterStep(userId, first)(x, t).next == Cleared(x)
          && RouterStep(userId, first)(x, t).write ==
               Some(StatsDelta(userId, 1, x.total.GetOr(1), x.score.GetOr(0) + Mark(x.queue.value[0], t.value), StoredTopic(x)))
        else
          && RouterStep(userId, first)(x, t).write.None?
          && RouterStep(userId, first)(x, t).next == Advanced(x, t.value)
    {
      RouteAnswers(x, t, userId, first);
    }
  }

  /** The messages after the first of a series of answers are answers too. */
  lemma AnswersFollow(texts: seq<Option<string>>)
    requires texts != [] && forall i :: 0 <= i < |texts| ==> IsAnswer(texts[i])
    ensures forall i :: 0 <= i < |texts[1..]| ==> IsAnswer(texts[1..][i])
  {
    forall i | 0 <= i < |texts[1..]| ensures IsAnswer(texts[1..][i]) {
      assert texts[1..][i] == texts[i + 1];
    }
  }

  /** What `Advanced` keeps: the topic, the cleared session, and the running counts. */
  lemma AdvancedCarries(s: Session, queue: seq<QueueItem>, texts: seq<Option<string>>)
    requires s.queue == Some(queue) && |queue| == |texts| > 1 && texts[0].Some?
    ensures var n := Advanced(s, texts[0].value);
      && Cleared(n) == Cleared(s)
      && StoredTopic(n) == StoredTopic(s)
      && n.waiting == s.waiting
      && n.queue == Some(queue[1..])
      && n.total.GetOr(|texts[1..]|) == s.total.GetOr(|texts|)
      && n.score.GetOr(0) + CorrectCount(queue[1..], texts[1..]) == s.score.GetOr(0) + CorrectCount(queue, texts)
  {
  }

  /**
   * Answering every queued question completes the quiz with exactly one
   * upsert: one quiz, `total` questions (the queue length when the first
   * answer came), and as many correct answers as the score already held
   * plus the right answers given; the quiz keys end cleared. Stated for any
   * handler that treats answers as the router does (`RouterAnswerSteps`).
   */
  lemma {:induction false} AnswersCompleteQuiz(step: (Session, Option<string>) -> Outcome, s: Session, queue: seq<QueueItem>,
                                               texts: seq<Option<string>>, userId: int)
    requires AnswerSteps(step, userId)
    requires s.waiting && s.queue == Some(queue) && |queue| == |texts| >= 1
    requires forall i :: 0 <= i < |texts| ==> IsAnswer(texts[i])
    ensures Feed(step, s, texts).1 ==
              [StatsDelta(userId, 1, s.total.GetOr(|texts|), s.score.GetOr(0) + CorrectCount(queue, texts), StoredTopic(s))]
    ensures Feed(step, s, texts).0 == Cleared(s)
    decreases |texts|
  {
    var o := step(s, texts[0]);
    if |texts| == 1 {
      assert texts[1..] == [];
    } else {
      AnswersFollow(texts);
      AdvancedCarries(s, queue, texts);
      AnswersCompleteQuiz(step, o.next, queue[1..], texts[1..], userId);
    }
  }

  /**
   * Over a quiz answered to the end, `upsert_quiz_stats` adds one quiz,
   * `total` questions and the correct answers to the user's row and records
   * the topic.
   */
  lemma QuizRunUpdatesStats(rows: map<int, StatsRow>, step: (Session, Option<string>) -> Outcome, s: Session,
                            queue: seq<QueueItem>, texts: seq<Option<string>>, userId: int)
    requires AnswerSteps(step, userId)
    requires s.waiting && s.queue == Some(queue) && |queue| == |texts| >= 1
    requires forall i :: 0 <= i < |texts| ==> IsAnswer(texts[i])
    ensures var after := UpsertAll(rows, Feed(step, s, texts).1);
      && RowOf(after, userId).quizzesTotal == RowOf(rows, userId).quizzesTotal + 1
      && RowOf(after, userId).questionsTotal == RowOf(rows, userId).questionsTotal + s.total.GetOr(|texts|)
      && RowOf(after, userId).correctTotal == RowOf(rows, userId).correctTotal + s.score.GetOr(0) + CorrectCount(queue, texts)
      && RowOf(after, userId).lastTopic == StoredTopic(s)
  {
    AnswersCompleteQuiz(step, s, queue, texts, userId);
    var ws := Feed(step, s, texts).1;
    assert ws[..0] == [];
  }

  // ---------------------------------------------------------------------
  // The loop in cmd_quiz

  /**
   * As written, `cmd_quiz` announces "question 1 of 3" but queues only the
   * first question, so the first answer already ends the quiz: the summary
   * and the upsert count one question.
   */
  lemma StartAsksOneOfThree(args: seq<string>, draws: seq<nat>, text: Option<string>, userId: int, first: set<string> -> string)
    requires args != [] && Lookup(StripLower(args[0])).Some?
    requires IsAnswer(text)
    ensures var o := Start(NoSession, args, true, draws);
      && |o.replies| == 2 && o.replies[1].Prompt? && o.replies[1].total == 3
      && var r := Route(o.next, text, userId, first);
         && r.write.Some? && r.write.value.questionsAdd == 1
         && r.replies[1] == Summary(r.write.value.correctAdd, 1)
  {
    StartEnqueuesOne(NoSession, args, draws);
    var o := Start(NoSession, args, true, draws);
    assert |o.next.queue.value| == 1;
    RouteAnswers(o.next, text, userId, first);
  }

  /** The queue entries for `questions`, in order. */
  function Items(questions: seq<Question>): (items: seq<QueueItem>)
    ensures |items| == |questions|
    ensures forall i :: 0 <= i < |questions| ==> items[i] == ItemOf(questions[i])
  {
    seq(|questions|, i requires 0 <= i < |questions| => ItemOf(questions[i]))
  }

  /**
   * `cmd_quiz` as its comments describe it: every picked question is
   * queued, so that the router asks them one after the other, and the quiz
   * starts afresh, without the entries and counters of an unfinished one.
   */
  function StartIntended(s: Session, args: seq<string>, hasChat: bool, draws: seq<nat>): Outcome {
    if args == [] then Outcome(s, [TopicMissing(TopicList())], None)
    else
      var topic := StripLower(args[0]);
      var questions := Picks(topic, 3, draws);
      if questions == [] then Outcome(s, [UnknownTopic(TopicList())], None)
      else if !hasChat then Outcome(s, [NoChat], None)
      else SeededAll(s, topic, questions)
  }

  /** The session and replies of an intended start that picked `questions`. */
  function SeededAll(s: Session, topic: string, questions: seq<Question>): Outcome
    requires questions != []
  {
    var q := questions[0];
    Outcome(s.(waiting := true, expected := Some(q.answers), topic := Some(topic),
               queue := Some(Items(questions)), score := None, total := None),
            [Started(topic), Prompt(1, |questions|, q.text)], None)
  }

  /** A successful intended start queues all three picked questions and announces the first. */
  lemma StartIntendedQueuesAll(s: Session, args: seq<string>, draws: seq<nat>)
    requires args != [] && Lookup(StripLower(args[0])).Some?
    ensures var o := StartIntended(s, args, true, draws);
      && o.next.waiting && o.next.total.None? && o.next.score.None?
      && o.next.topic == Some(StripLower(args[0])) && StripLower(args[0]) != ""
      && o.next.queue.Some? && |o.next.queue.value| == 3
      && o.replies == [Started(StripLower(args[0])), Prompt(1, 3, o.next.queue.value[0].question)]
  {
    var topic := StripLower(args[0]);
    StripLowerIdempotent(args[0]);
    BankTopicsHaveFive(topic);
    var picked := Picks(topic, 3, draws);
    assert picked == Shuffle(Lookup(topic).value, draws)[..3];
    assert |picked| == 3;
    var o := SeededAll(s, topic, picked);
    assert o.next.queue.value == Items(picked);
  }

  /**
   * With every picked question queued, answering them all completes the
   * quiz with the total its first prompt announced: one upsert with three
   * questions and the number of right answers.
   */
  lemma IntendedQuizCountsAll(s0: Session, args: seq<string>, draws: seq<nat>, step: (Session, Option<string>) -> Outcome,
                              texts: seq<Option<string>>, userId: int)
    requires args != [] && Lookup(StripLower(args[0])).Some?
    requires AnswerSteps(step, userId)
    requires |texts| == 3 && forall i :: 0 <= i < |texts| ==> IsAnswer(texts[i])
    ensures var s := StartIntended(s0, args, true, draws).next;
      && s.queue.Some? && |s.queue.value| == 3
      && Feed(step, s, texts).1 == [StatsDelta(userId, 1, 3, CorrectCount(s.queue.value, texts), Some(StripLower(args[0])))]
      && Feed(step, s, texts).0 == Cleared(s)
  {
    StartIntendedQueuesAll(s0, args, draws);
    var s := StartIntended(s0, args, true, draws).next;
    FreshQuizCompletes(step, s, texts, userId);
  }

  /** A fresh session holding a queue of three: answering all three writes one upsert of three. */
  lemma FreshQuizCompletes(step: (Session, Option<string>) -> Outcome, s: Session, texts: seq<Option<string>>, userId: int)
    requires AnswerSteps(step, userId)
    requires s.waiting && s.total.None? && s.score.None? && s.queue.Some? && |s.queue.value| == 3
    requires |texts| == 3 && forall i :: 0 <= i < |texts| ==> IsAnswer(texts[i])
    ensures Feed(step, s, texts).1 == [StatsDelta(userId, 1, 3, CorrectCount(s.queue.value, texts), StoredTopic(s))]
    ensures Feed(step, s, texts).0 == Cleared(s)
  {
    AnswersCompleteQuiz(step, s, s.queue.value, texts, userId);
  }

  /**
   * As written, a `/quiz` during an unfinished quiz appends to its queue but
   * keeps its counters, so the score can exceed the total: two starts, a
   * right answer (score 1 of total 2), a third start and two more right
   * answers upsert three correct answers out of two questions.
   */
  lemma RestartOvercounts(q: Question, a: string, topic: string, userId: int, first: set<string> -> string)
    requires a in q.answers && IsAnswer(Some(a))
    ensures var s1 := Seeded(Seeded(NoSession, topic, [q]).next, topic, [q]).next;
      var s2 := Route(s1, Some(a), userId, first).next;
      var s3 := Seeded(s2, topic, [q]).next;
      var s4 := Route(s3, Some(a), userId, first).next;
      var w := Route(s4, Some(a), userId, first).write;
      && w.Some? && w.value.questionsAdd == 2 && w.value.correctAdd == 3
      && w.value.correctAdd > w.value.questionsAdd
  {
    var item := ItemOf(q);
    RightAnswerMarks(item, a);
    var s0 := Seeded(NoSession, topic, [q]).next;
    SeededAppendsOne(NoSession, topic, q);
    var s1 := Seeded(s0, topic, [q]).next;
    SeededAppendsOne(s0, topic, q);
    assert s1.queue.value == [item] + [item] == [item, item];
    RouteNextAnswer(s1, Some(a), userId, first);
    var s2 := Route(s1, Some(a), userId, first).next;
    assert s2.queue.value == [item] && s2.score == Some(1) && s2.total == Some(2);
    var s3 := Seeded(s2, topic, [q]).next;
    SeededAppendsOne(s2, topic, q);
    assert s3.queue.value == [item] + [item] == [item, item];
    RouteNextAnswer(s3, Some(a), userId, first);
    var s4 := Route(s3, Some(a), userId, first).next;
    assert s4.queue.value == [item] && s4.score == Some(2) && s4.total == Some(2);
    RouteLastAnswer(s4, Some(a), userId, first);
  }

  /** A start that picked one question appends it and leaves the counters alone. */
  lemma SeededAppendsOne(s: Session, topic: string, q: Question)
    ensures var n := Seeded(s, topic, [q]).next;
      && n.waiting && n.queue == Some(s.queue.GetOr([]) + [ItemOf(q)])
      && n.score == s.score && n.total == s.total
  {
  }

  /** A stored answer, sent back as is, is marked right. */
  lemma RightAnswerMarks(item: QueueItem, a: string)
    requires a in item.answers
    ensures Mark(item, a) == 1
  {
  }

  /**
   * The intended start keeps the counters' invariant from any session, also
   * one in the middle of a quiz, so every later upsert has
   * `correct_add <= questions_add` (`RouteKeepsScoreBounded`).
   */
  lemma StartIntendedKeepsScoreBounded(s: Session, args: seq<string>, hasChat: bool, draws: seq<nat>)
    requires ScoreBounded(s)
    ensures ScoreBounded(StartIntended(s, args, hasChat, draws).next)
  {
  }

  // ---------------------------------------------------------------------
  // The state, updated in place

  /** The quiz keys of one user's `context.user_data`. */
  class UserData {
    var waiting: bool
    var queue: Option<seq<QueueItem>>
    var topic: Option<string>
    var expected: Option<set<string>>
    var score: Option<int>
    var total: Option<int>

    function Snapshot(): Session
      reads this
    {
      Session(waiting, queue, topic, expected, score, total)
    }

    constructor()
      ensures Snapshot() == NoSession
    {
      waiting, queue, topic, expected, score, total := false, None, None, None, None, None;
    }
  }

  /**
   * The tail of `cmd_quiz` once questions are picked and the chat is known:
   * the loop over the questions, which returns in its first iteration.
   */
  method Seed(ud: UserData, topic: string, questions: seq<Question>) returns (replies: seq<QuizReply>)
    requires questions != []
    modifies ud
    ensures ud.Snapshot() == Seeded(old(ud.Snapshot()), topic, questions).next
    ensures replies == Seeded(old(ud.Snapshot()), topic, questions).replies
  {
    ghost var before := ud.Snapshot();
    replies := [Started(topic)];
    var total := |questions|;
    for i := 0 to |questions|
      invariant i == 0 && replies == [Started(topic)]
      invariant ud.Snapshot() == before
    {
      var q := questions[i];
      replies := replies + [Prompt(i + 1, total, q.text)];
      ud.waiting := true;
      ud.expected := Some(q.answers);
      ud.topic := Some(topic);
      ud.queue := Some(ud.queue.GetOr([]));
      ud.queue := Some(ud.queue.value + [ItemOf(q)]);
      return;
    }
    assert false;
  }

  /** `cmd_quiz`, updating the user's dictionary in place. */
  method CmdQuiz(ud: UserData, args: seq<string>, hasChat: bool, draws: seq<nat>) returns (replies: seq<QuizReply>)
    modifies ud
    ensures ud.Snapshot() == Start(old(ud.Snapshot()), args, hasChat, draws).next
    ensures replies == Start(old(ud.Snapshot()), args, hasChat, draws).replies
  {
    if args == [] {
      return [TopicMissing(TopicList())];
    }
    var topic := StripLower(args[0]);
    var questions := PickQuestions(topic, 3, draws);
    if questions == [] {
      return [UnknownTopic(TopicList())];
    }
    if !hasChat {
      return [NoChat];
    }
    replies := Seed(ud, topic, questions);
  }

  /** The scoring half of the router's answer step. */
  method ScoreFront(ud: UserData, t: string, first: set<string> -> string) returns (verdict: QuizReply)
    requires ud.queue.Some? && ud.queue.value != []
    modifies ud
    ensures (ud.Snapshot(), verdict) == Scored(old(ud.Snapshot()), t, first)
  {
    var queue := ud.queue.value;
    var current := queue[0];
    var answers := set a | a in current.answers :: LowerStr(a);

    // Counters start at 0 and at the queue length when absent.
    ud.score := Some(ud.score.GetOr(0));
    ud.total := Some(ud.total.GetOr(|queue|));

    var q := Question(current.question, answers);
    assert q == FrontQuestion(current);
    var isOk := CheckAnswer(q, t);
    if isOk {
      ud.score := Some(ud.score.value + 1);
      verdict := Correct;
    } else {
      var example := if answers == {} then "—" else first(answers);
      verdict := Wrong(example);
    }
  }

  /**
   * The answer step of `on_text_quiz_router` for the stripped message `t`
   * while the queue is not empty.
   */
  method AnswerFront(ud: UserData, stats: StatsTable, userId: int, t: string, first: set<string> -> string)
    returns (replies: seq<QuizReply>)
    requires ud.queue.Some? && ud.queue.value != []
    modifies ud, stats
    ensures var o := Answer(old(ud.Snapshot()), t, userId, first);
      && ud.Snapshot() == o.next
      && replies == o.replies
      && stats.rows == (if o.write.Some? then Upserted(old(stats.rows), o.write.value) else old(stats.rows))
  {
    var queue := ud.queue.value;
    var verdict := ScoreFront(ud, t, first);
    replies := [verdict];

    queue := queue[1..];
    ud.queue := Some(queue);

    if queue == [] {
      var score := ud.score.value;
      var total := ud.total.value;
      var topic := if ud.topic.None? || ud.topic.value == "" then None else ud.topic;
      stats.Upsert(userId, 1, total, score, topic);
      replies := replies + [Summary(score, total)];
      ud.waiting := false;
      ud.queue := None;
      ud.score := None;
      ud.total := None;
      ud.topic := None;
      return;
    }

    var nextQ := queue[0];
    var idxDone := ud.total.value - |queue|;
    var total := ud.total.value;
    replies := replies + [Prompt(idxDone + 1, total, nextQ.question)];
  }

  /** `on_text_quiz_router`, updating the user's dictionary and the stats table in place. */
  method OnText(ud: UserData, stats: StatsTable, user: Option<int>, text: Option<string>, first: set<string> -> string)
    returns (replies: seq<QuizReply>)
    modifies ud, stats
    ensures var o := Route(old(ud.Snapshot()), text, UserIdOf(user), first);
      && ud.Snapshot() == o.next
      && replies == o.replies
      && stats.rows == (if o.write.Some? then Upserted(old(stats.rows), o.write.value) else old(stats.rows))
  {
    if text.None? || text.value == "" {
      return [];
    }
    if !ud.waiting {
      return [];
    }
    var t := Strip(text.value);
    if LowerStr(t) in StopWords {
      ud.waiting := false;
      ud.queue := None;
      ud.score := None;
      ud.total := None;
      ud.topic := None;
      return [Stopped];
    }

    var queue := ud.queue.GetOr([]);
    if queue == [] {
      ud.waiting := false;
      return [AlreadyFinished];
    }
    replies := AnswerFront(ud, stats, UserIdOf(user), t, first);
  }
}
