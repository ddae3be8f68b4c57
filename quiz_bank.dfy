/**
 * The question bank behind `/quiz` (app/services/quiz_bank.py): the fixed
 * catalogue of topics, answer normalisation, the sorted topic list, random
 * selection of questions and answer checking.
 */
module QuizBank {
  import opened Wrappers
  import opened PyStr

  /** One quiz question and the answers it accepts. */
  datatype Question = Question(text: string, answers: set<string>)

  /** A catalogue entry: a topic key and its questions, in catalogue order. */
  datatype Topic = Topic(key: string, questions: seq<Question>)

  /** The catalogue, in the insertion order of the source's dictionary. */
  function Bank(): seq<Topic> {
    [Topic("python", PythonQuestions()), Topic("math", MathQuestions()), Topic("history", HistoryQuestions())]
  }

  // The question texts.
  const Python1Text := "Как называется структура данных {1, 2, 3} в Python?"
  const Python2Text := "Какой оператор используется для создания функции?"
  const Python3Text := "Как называется ошибка деления на ноль?"
  const Python4Text := "Какой тип у значения True?"
  const Python5Text := "Как открыть файл для чтения?"
  const Math1Text := "Чему равна производная x^2?"
  const Math2Text := "Сколько градусов в развернутом угле?"
  const Math3Text := "Как называется число, делящееся только на 1 и на себя?"
  const Math4Text := "Чему равно 7*8?"
  const Math5Text := "Как называется корень квадратного уравнения?"
  const History1Text := "В каком году началась Вторая мировая война?"
  const History2Text := "Столица Франции?"
  const History3Text := "Кто был первым человеком в космосе (фамилия)?"
  const History4Text := "В каком году распался СССР?"
  const History5Text := "Как назывался древнеримский амфитеатр в Риме?"

  function PythonQuestions(): seq<Question> {
    [
      Question(Python1Text, {"set", "множество"}),
      Question(Python2Text, {"def"}),
      Question(Python3Text, {"zerodivisionerror", "zero division error"}),
      Question(Python4Text, {"bool", "boolean"}),
      Question(Python5Text, {"open", "open()"})
    ]
  }

  function MathQuestions(): seq<Question> {
    [
      Question(Math1Text, {"2x", "2*x"}),
      Question(Math2Text, {"180"}),
      Question(Math3Text, {"простое", "простое число", "prime"}),
      Question(Math4Text, {"56"}),
      Question(Math5Text, {"корень", "roots", "root"})
    ]
  }

  function HistoryQuestions(): seq<Question> {
    [
      Question(History1Text, {"1939"}),
      Question(History2Text, {"париж", "paris"}),
      Question(History3Text, {"гагарин", "gagarin"}),
      Question(History4Text, {"1991"}),
      Question(History5Text, {"колизей", "colosseum", "coliseum"})
    ]
  }

  /** The catalogue's keys, in catalogue order (`QUIZ_BANK.keys()`). */
  function TopicKeys(): seq<string> {
    seq(|Bank()|, i requires 0 <= i < |Bank()| => Bank()[i].key)
  }

  function LookupIn(topics: seq<Topic>, key: string): (r: Option<seq<Question>>)
    ensures r.Some? <==> exists i :: 0 <= i < |topics| && topics[i].key == key
    ensures r.Some? ==> exists i :: 0 <= i < |topics| && topics[i].key == key && topics[i].questions == r.value
  {
    if topics == [] then None
    else if topics[0].key == key then Some(topics[0].questions)
    else
      var r := LookupIn(topics[1..], key);
      assert forall i :: 0 < i < |topics| ==> topics[i] == topics[1..][i - 1];
      r
  }

  /** `QUIZ_BANK.get(key)`. */
  function Lookup(key: string): Option<seq<Question>> {
    LookupIn(Bank(), key)
  }

  /** Every topic of the catalogue holds five questions. */
  lemma BankTopicsHaveFive(key: string)
    ensures Lookup(key).Some? ==> |Lookup(key).value| == 5
  {
  }

  lemma LookupKnown(key: string)
    ensures Lookup(key).Some? <==> key in TopicKeys()
  {
    if key in TopicKeys() {
      var i :| 0 <= i < |TopicKeys()| && TopicKeys()[i] == key;
      assert Bank()[i].key == key;
    }
    if Lookup(key).Some? {
      var i :| 0 <= i < |Bank()| && Bank()[i].key == key;
      assert TopicKeys()[i] == key;
    }
  }

  // ---------------------------------------------------------------------
  // normalize

  /** The characters `normalize` keeps. */
  predicate Keep(c: char) {
    IsAlnum(c) || c == '*' || c == '^'
  }

  /** Drops every character that is not kept, keeping the order of the rest. */
  function KeepOnly(s: string): (r: string)
    ensures |r| <= |s|
  {
    if s == [] then []
    else (if Keep(s[0]) then [s[0]] else []) + KeepOnly(s[1..])
  }

  lemma {:induction false} KeepOnlyAppend(a: string, b: string)
    ensures KeepOnly(a + b) == KeepOnly(a) + KeepOnly(b)
  {
    if a != [] {
      assert (a + b)[0] == a[0];
      assert (a + b)[1..] == a[1..] + b;
      KeepOnlyAppend(a[1..], b);
    } else {
      assert a + b == b;
    }
  }

  lemma {:induction false} KeepOnlyOfKept(s: string)
    requires forall i :: 0 <= i < |s| ==> Keep(s[i])
    ensures KeepOnly(s) == s
  {
    if s != [] {
      KeepOnlyOfKept(s[1..]);
    }
  }

  lemma {:induction false} KeepOnlyOfSpaces(s: string)
    requires AllSpace(s)
    ensures KeepOnly(LowerStr(s)) == []
  {
    if s != [] {
      assert LowerStr(s)[1..] == LowerStr(s[1..]);
      KeepOnlyOfSpaces(s[1..]);
    }
  }

  /** `normalize(s)`: strip, lower-case, then keep only alphanumerics, `*` and `^`. */
  function Normalize(s: string): string {
    KeepOnly(StripLower(s))
  }

  lemma {:induction false} KeepOnlyChars(s: string)
    requires forall i :: 0 <= i < |s| ==> !IsUpper(s[i])
    ensures forall i :: 0 <= i < |KeepOnly(s)| ==> Keep(KeepOnly(s)[i]) && !IsUpper(KeepOnly(s)[i])
  {
    if s != [] {
      KeepOnlyChars(s[1..]);
    }
  }

  /**
   * What `normalize` returns holds only alphanumerics, `*` and `^`: no
   * whitespace and no upper-case letter.
   */
  lemma NormalizeChars(s: string)
    ensures forall i :: 0 <= i < |Normalize(s)| ==>
              Keep(Normalize(s)[i]) && !IsSpace(Normalize(s)[i]) && !IsUpper(Normalize(s)[i])
  {
    LowerStrAt(Strip(s));
    KeepOnlyChars(StripLower(s));
  }

  /** Stripping first changes nothing: whitespace is dropped by the filter anyway. */
  lemma NormalizeWithoutStrip(s: string)
    ensures Normalize(s) == KeepOnly(LowerStr(s))
  {
    var p := StripParts(s);
    var core := Strip(s);
    var pre, post := s[..p], s[p + |core|..];
    LowerStrAppend(pre + core, post);
    LowerStrAppend(pre, core);
    KeepOnlyAppend(LowerStr(pre) + LowerStr(core), LowerStr(post));
    KeepOnlyAppend(LowerStr(pre), LowerStr(core));
    KeepOnlyOfSpaces(pre);
    KeepOnlyOfSpaces(post);
    calc {
      KeepOnly(LowerStr(s));
      { assert s == pre + core + post; }
      KeepOnly(LowerStr(pre) + LowerStr(core) + LowerStr(post));
      KeepOnly(LowerStr(core));
    }
  }

  /** Surrounding whitespace does not matter to `normalize`. */
  lemma NormalizeIgnoresPadding(pre: string, s: string, post: string)
    requires AllSpace(pre) && AllSpace(post)
    ensures Normalize(pre + s + post) == Normalize(s)
  {
    StripIgnoresPadding(pre, s, post);
  }

  /** Letter case does not matter to `normalize`. */
  lemma NormalizeIgnoresCase(s: string, t: string)
    requires LowerStr(s) == LowerStr(t)
    ensures Normalize(s) == Normalize(t)
  {
    NormalizeWithoutStrip(s);
    NormalizeWithoutStrip(t);
  }

  /** Blank input normalises to the empty string. */
  lemma NormalizeBlank(s: string)
    requires AllSpace(s)
    ensures Normalize(s) == ""
  {
    NormalizeWithoutStrip(s);
    KeepOnlyOfSpaces(s);
  }

  /** `normalize` is idempotent. */
  lemma NormalizeIdempotent(s: string)
    ensures Normalize(Normalize(s)) == Normalize(s)
  {
    var n := Normalize(s);
    NormalizeChars(s);
    NormalizeWithoutStrip(n);
    LowerStrAt(n);
    assert LowerStr(n) == n;
    KeepOnlyOfKept(n);
  }

  // ---------------------------------------------------------------------
  // available_topics

  /** Python's `a <= b` on strings: code-point lexicographic order. */
  predicate LexLe(a: string, b: string) {
    if a == [] then true
    else if b == [] then false
    else if a[0] != b[0] then a[0] < b[0]
    else LexLe(a[1..], b[1..])
  }

  lemma {:induction false} LexTotal(a: string, b: string)
    ensures LexLe(a, b) || LexLe(b, a)
  {
    if a != [] && b != [] && a[0] == b[0] {
      LexTotal(a[1..], b[1..]);
    }
  }

  /** Each element is at most the next one. */
  predicate Sorted(s: seq<string>) {
    forall i :: 0 < i < |s| ==> LexLe(s[i - 1], s[i])
  }

  function Insert(x: string, s: seq<string>): (r: seq<string>)
    requires Sorted(s)
    ensures Sorted(r)
    ensures multiset(r) == multiset(s) + multiset{x}
    ensures r[0] == x || (s != [] && r[0] == s[0])
  {
    if s == [] then [x]
    else if LexLe(x, s[0]) then [x] + s
    else
      LexTotal(x, s[0]);
      var rest := Insert(x, s[1..]);
      assert s == [s[0]] + s[1..];
      [s[0]] + rest
  }

  /** `sorted(keys)`: insertion sort. */
  function Sort(s: seq<string>): (r: seq<string>)
    ensures Sorted(r)
    ensures multiset(r) == multiset(s)
  {
    if s == [] then []
    else
      assert s == [s[0]] + s[1..];
      Insert(s[0], Sort(s[1..]))
  }

  /**
   * `available_topics()`: the catalogue's keys in ascending order, each key
   * exactly once.
   */
  function AvailableTopics(): (r: seq<string>)
    ensures Sorted(r)
    ensures multiset(r) == multiset(TopicKeys())
    ensures forall k :: k in r <==> Lookup(k).Some?
  {
    var r := Sort(TopicKeys());
    forall k ensures k in r <==> Lookup(k).Some? {
      LookupKnown(k);
      assert k in r <==> k in multiset(r);
      assert k in TopicKeys() <==> k in multiset(TopicKeys());
    }
    r
  }

  lemma TopicKeysValue()
    ensures TopicKeys() == ["python", "math", "history"]
  {
    assert Bank()[0].key == "python" && Bank()[1].key == "math" && Bank()[2].key == "history";
  }

  lemma InsertMath()
    ensures Insert("math", ["history"]) == ["history", "math"]
  {
    assert !LexLe("math", "history") by {
      assert "math"[0] == 'm' && "history"[0] == 'h';
    }
    assert ["history"][1..] == [];
  }

  lemma InsertPython()
    ensures Insert("python", ["history", "math"]) == ["history", "math", "python"]
  {
    assert !LexLe("python", "history") && !LexLe("python", "math") by {
      assert "python"[0] == 'p' && "history"[0] == 'h' && "math"[0] == 'm';
    }
    assert ["history", "math"][1..] == ["math"] && ["math"][1..] == [];
  }

  lemma SortTopicKeys()
    ensures Sort(["python", "math", "history"]) == ["history", "math", "python"]
  {
    var s := ["python", "math", "history"];
    assert s[1..] == ["math", "history"] && s[1..][1..] == ["history"] && s[1..][1..][1..] == [];
    assert Sort(["history"]) == ["history"];
    InsertMath();
    assert Sort(["math", "history"]) == ["history", "math"];
    InsertPython();
  }

  /** The topics, as listed to the user. */
  lemma AvailableTopicsValue()
    ensures AvailableTopics() == ["history", "math", "python"]
  {
    TopicKeysValue();
    SortTopicKeys();
  }

  // ---------------------------------------------------------------------
  // pick_questions

  /**
   * The index `random.randbelow(bound)` returns for the `k`-th swap of a
   * shuffle: the `k`-th random draw reduced below `bound`. A shuffle given
   * fewer draws than it needs leaves the remaining positions in place.
   */
  function Draw(draws: seq<nat>, k: nat, bound: nat): (j: nat)
    requires bound > 0
    ensures j < bound
  {
    if k < |draws| then draws[k] % bound else bound - 1
  }

  function SwapAt<T>(s: seq<T>, i: nat, j: nat): (r: seq<T>)
    requires i < |s| && j < |s|
    ensures |r| == |s|
  {
    s[i := s[j]][j := s[i]]
  }

  /** Fisher-Yates from position `i` down to 1, as `random.shuffle` does it. */
  function ShuffleFrom<T>(s: seq<T>, draws: seq<nat>, i: nat): (r: seq<T>)
    requires i < |s|
    ensures |r| == |s|
    decreases i
  {
    if i == 0 then s
    else ShuffleFrom(SwapAt(s, i, Draw(draws, |s| - 1 - i, i + 1)), draws, i - 1)
  }

  /** `random.shuffle(s)` driven by the random draws `draws`. */
  function Shuffle<T>(s: seq<T>, draws: seq<nat>): (r: seq<T>)
    ensures |r| == |s|
  {
    if s == [] then s else ShuffleFrom(s, draws, |s| - 1)
  }

  lemma SwapAtPermutes<T>(s: seq<T>, i: nat, j: nat)
    requires i < |s| && j < |s|
    ensures multiset(SwapAt(s, i, j)) == multiset(s)
  {
  }

  lemma {:induction false} ShuffleFromPermutes<T>(s: seq<T>, draws: seq<nat>, i: nat)
    requires i < |s|
    ensures multiset(ShuffleFrom(s, draws, i)) == multiset(s)
    decreases i
  {
    if i > 0 {
      var j := Draw(draws, |s| - 1 - i, i + 1);
      SwapAtPermutes(s, i, j);
      ShuffleFromPermutes(SwapAt(s, i, j), draws, i - 1);
    }
  }

  /** A shuffle is a permutation: it neither loses nor duplicates an element. */
  lemma ShufflePermutes<T>(s: seq<T>, draws: seq<nat>)
    ensures multiset(Shuffle(s, draws)) == multiset(s)
  {
    if s != [] {
      ShuffleFromPermutes(s, draws, |s| - 1);
    }
  }

  /** Shuffles the array in place; the result is `Shuffle` of its old contents. */
  method ShuffleInPlace<T>(a: array<T>, draws: seq<nat>)
    modifies a
    ensures a[..] == Shuffle(old(a[..]), draws)
  {
    if a.Length == 0 {
      return;
    }
    var i := a.Length - 1;
    ghost var goal := Shuffle(a[..], draws);
    while i > 0
      invariant 0 <= i < a.Length
      invariant ShuffleFrom(a[..], draws, i) == goal
      decreases i
    {
      var j := Draw(draws, a.Length - 1 - i, i + 1);
      ghost var before := a[..];
      var t := a[i];
      a[i] := a[j];
      a[j] := t;
      assert a[..] == SwapAt(before, i, j);
      i := i - 1;
    }
  }

  function Min(a: int, b: int): int {
    if a <= b then a else b
  }

  function Max(a: int, b: int): int {
    if a >= b then a else b
  }


  /**
   * The body of `pick_questions` once the topic is found: copy the list,
   * shuffle the copy and keep its first `max(1, min(count, n))` entries
   * (fewer only if the list is shorter, as a Python slice does).
   */
  method ShuffledPrefix<T>(qs: seq<T>, count: int, draws: seq<nat>) returns (picked: seq<T>)
    ensures |picked| == Min(Max(1, Min(count, |qs|)), |qs|)
    ensures picked == Shuffle(qs, draws)[..|picked|]
    ensures multiset(picked) <= multiset(qs)
  {
    var copy := new T[|qs|](i requires 0 <= i < |qs| => qs[i]);
    assert copy[..] == qs;
    ShuffleInPlace(copy, draws);
    var shuffled := copy[..];
    ShufflePermutes(qs, draws);
    picked := Take(shuffled, Max(1, Min(count, |shuffled|)));
    assert shuffled == picked + shuffled[|picked|..];
    assert multiset(shuffled) == multiset(picked) + multiset(shuffled[|picked|..]);
  }

  /** The questions `pick_questions(topic, count)` returns for the given draws. */
  function Picks(topic: string, count: int, draws: seq<nat>): seq<Question> {
    match Lookup(StripLower(topic))
    case None => []
    case Some(qs) =>
      BankTopicsHaveFive(StripLower(topic));
      Shuffle(qs, draws)[..Max(1, Min(count, |qs|))]
  }

  /**
   * `pick_questions` comes back empty exactly for a topic the catalogue
   * lacks; for a known topic it returns `max(1, min(count, n))` questions,
   * the head of a shuffle of the topic's list, so each question at most as
   * often as the list holds it.
   */
  lemma PicksSpec(topic: string, count: int, draws: seq<nat>)
    ensures Picks(topic, count, draws) == [] <==> Lookup(StripLower(topic)).None?
    ensures Lookup(StripLower(topic)).Some? ==>
              var qs := Lookup(StripLower(topic)).value;
              var picked := Picks(topic, count, draws);
              && |picked| == Max(1, Min(count, |qs|))
              && picked == Shuffle(qs, draws)[..|picked|]
              && multiset(picked) <= multiset(qs)
  {
    var key := StripLower(topic);
    if Lookup(key).Some? {
      BankTopicsHaveFive(key);
      ShuffledHead(Lookup(key).value, Max(1, Min(count, 5)), draws);
    }
  }

  /** The head of a shuffle holds each element at most as often as the list does. */
  lemma ShuffledHead<T>(qs: seq<T>, n: nat, draws: seq<nat>)
    requires n <= |qs|
    ensures multiset(Shuffle(qs, draws)[..n]) <= multiset(qs)
  {
    var shuffled := Shuffle(qs, draws);
    ShufflePermutes(qs, draws);
    assert shuffled == shuffled[..n] + shuffled[n..];
    assert multiset(shuffled) == multiset(shuffled[..n]) + multiset(shuffled[n..]);
  }

  /**
   * `pick_questions(topic, count)`: nothing for an unknown topic; otherwise a
   * shuffled copy of the topic's questions, cut to `max(1, min(count, n))`.
   * The catalogue itself is never changed.
   */
  method PickQuestions(topic: string, count: int, draws: seq<nat>) returns (picked: seq<Question>)
    ensures picked == Picks(topic, count, draws)
  {
    var key := StripLower(topic);
    var found := Lookup(key);
    if found.None? {
      return [];
    }
    BankTopicsHaveFive(key);
    picked := ShuffledPrefix(found.value, count, draws);
  }

  // ---------------------------------------------------------------------
  // check_answer

  /** The answer `u` matches one of the accepted answers after normalisation. */
  predicate Accepts(q: Question, u: string) {
    exists a :: a in q.answers && Normalize(a) == Normalize(u)
  }

  /** `check_answer(q, user_answer)`: tries the accepted answers one by one. */
  method CheckAnswer(q: Question, userAnswer: string) returns (ok: bool)
    ensures ok <==> Accepts(q, userAnswer)
  {
    var ua := Normalize(userAnswer);
    var rest := q.answers;
    while rest != {}
      invariant rest <= q.answers
      invariant forall a :: a in q.answers && a !in rest ==> Normalize(a) != ua
      decreases rest
    {
      var a :| a in rest;
      if ua == Normalize(a) {
        return true;
      }
      rest := rest - {a};
    }
    return false;
  }

  /** Every accepted answer is accepted whatever its case and padding. */
  lemma AcceptedAnswerVariants(q: Question, a: string, pre: string, t: string, post: string)
    requires a in q.answers
    requires AllSpace(pre) && AllSpace(post)
    requires LowerStr(t) == LowerStr(a)
    ensures Accepts(q, pre + t + post)
  {
    NormalizeIgnoresPadding(pre, t, post);
    NormalizeIgnoresCase(t, a);
  }

  /** The same question with every accepted answer lower-cased. */
  function LowerAnswers(q: Question): Question {
    Question(q.text, set a | a in q.answers :: LowerStr(a))
  }

  /** Lower-casing the accepted answers does not change which answers pass. */
  lemma LowerAnswersAccepts(q: Question, u: string)
    ensures Accepts(LowerAnswers(q), u) <==> Accepts(q, u)
  {
    if Accepts(q, u) {
      var a :| a in q.answers && Normalize(a) == Normalize(u);
      LowerStrIdempotent(a);
      NormalizeIgnoresCase(LowerStr(a), a);
      assert LowerStr(a) in LowerAnswers(q).answers;
    }
    if Accepts(LowerAnswers(q), u) {
      var b :| b in LowerAnswers(q).answers && Normalize(b) == Normalize(u);
      var a :| a in q.answers && b == LowerStr(a);
      LowerStrIdempotent(a);
      NormalizeIgnoresCase(LowerStr(a), a);
    }
  }
}
