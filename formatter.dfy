/** The answer transcript built in `submit_answers`: questions sorted by their
    display order, one "question / answer" block per answered question,
    blocks separated by a blank line. */
module Formatter {
  import opened Wrappers
  import opened Text

  /** One entry of a question's `options` list. */
  datatype Choice = Choice(id: string, text: string)

  /** The `options` column of a question: a JSON list of choices, or any other
      value, of which only its truthiness matters to the formatter. */
  datatype OptionsField = Listed(choices: seq<Choice>) | Unlisted(truthy: bool)

  datatype Question = Question(id: string, orderNum: int, text: string, options: OptionsField)

  const BlockSeparator: string := "\n\n"

  predicate OptionsTruthy(o: OptionsField)
  {
    match o
    case Listed(choices) => choices != []
    case Unlisted(truthy) => truthy
  }

  // ---------------------------------------------------------------------------
  // sorted(questions, key=lambda q: q["order_num"])

  predicate SortedByOrder(qs: seq<Question>)
  {
    forall i, j :: 0 <= i < j < |qs| ==> qs[i].orderNum <= qs[j].orderNum
  }

  /** No two questions share a display order (unique per test). */
  predicate DistinctOrders(qs: seq<Question>)
  {
    forall i, j :: 0 <= i < j < |qs| ==> qs[i].orderNum != qs[j].orderNum
  }

  /** Inserts `q` before the first question whose order is not smaller, so that
      of two questions with equal order the earlier input stays first. */
  function Insert(q: Question, qs: seq<Question>): (r: seq<Question>)
    requires SortedByOrder(qs)
    ensures SortedByOrder(r)
    ensures multiset(r) == multiset(qs) + multiset{q}
    ensures r[0] == q || (qs != [] && r[0] == qs[0])
  {
    if qs == [] || q.orderNum <= qs[0].orderNum then [q] + qs
    else
      var rest := Insert(q, qs[1..]);
      assert qs == [qs[0]] + qs[1..];
      [qs[0]] + rest
  }

  /** The stable sort by display order. */
  function SortByOrder(qs: seq<Question>): (r: seq<Question>)
    ensures SortedByOrder(r)
    ensures multiset(r) == multiset(qs)
  {
    if qs == [] then []
    else
      assert qs == [qs[0]] + qs[1..];
      Insert(qs[0], SortByOrder(qs[1..]))
  }

  /** Two sorted arrangements of the same questions with distinct display orders
      are the same sequence. */
  lemma {:induction false} SortedArrangementUnique(a: seq<Question>, b: seq<Question>)
    requires SortedByOrder(a) && SortedByOrder(b) && DistinctOrders(a)
    requires multiset(a) == multiset(b)
    ensures a == b
  {
    if a != [] {
      SameHead(a, b);
      assert a == [a[0]] + a[1..] && b == [b[0]] + b[1..];
      assert multiset(a[1..]) == multiset(a) - multiset{a[0]};
      assert multiset(b[1..]) == multiset(b) - multiset{b[0]};
      TailKeepsOrder(a);
      TailKeepsOrder(b);
      SortedArrangementUnique(a[1..], b[1..]);
    }
  }

  lemma TailKeepsOrder(a: seq<Question>)
    requires a != []
    ensures SortedByOrder(a) ==> SortedByOrder(a[1..])
    ensures DistinctOrders(a) ==> DistinctOrders(a[1..])
  {
  }

  /** Both sorted arrangements start with the question of least display order. */
  lemma SameHead(a: seq<Question>, b: seq<Question>)
    requires SortedByOrder(a) && SortedByOrder(b) && DistinctOrders(a)
    requires multiset(a) == multiset(b) && a != []
    ensures b != [] && a[0] == b[0]
  {
    assert a[0] in multiset(b);
    var m :| 0 <= m < |b| && b[m] == a[0];
    assert b[0] in multiset(a);
    var n :| 0 <= n < |a| && a[n] == b[0];
    assert b[0].orderNum <= a[0].orderNum;
    assert a[0].orderNum <= b[0].orderNum;
    assert n == 0;
  }

  // ---------------------------------------------------------------------------
  // next((opt["text"] for opt in options if opt["id"] == answer_id), answer_id)

  /** The text of the first choice whose id is `answer`. */
  function FirstMatch(choices: seq<Choice>, answer: string): (r: Option<string>)
    ensures r.None? <==> forall i :: 0 <= i < |choices| ==> choices[i].id != answer
    ensures r.Some? ==>
      exists i :: 0 <= i < |choices| && choices[i] == Choice(answer, r.value) &&
        forall k :: 0 <= k < i ==> choices[k].id != answer
  {
    if choices == [] then None
    else if choices[0].id == answer then Some(choices[0].text)
    else
      var r := FirstMatch(choices[1..], answer);
      if r.Some? then
        var i :| 0 <= i < |choices[1..]| && choices[1..][i] == Choice(answer, r.value) &&
          forall k :: 0 <= k < i ==> choices[1..][k].id != answer;
        assert choices[i + 1] == Choice(answer, r.value);
        r
      else r
  }

  /** The answer text shown for a chosen option id: the text of the first
      option with that id, and otherwise the id itself (also when `options` is
      not a list). It never fails. */
  function AnswerText(options: OptionsField, answer: string): (r: string)
    ensures options.Unlisted? ==> r == answer
    ensures options.Listed? ==>
      (exists i :: 0 <= i < |options.choices| && options.choices[i] == Choice(answer, r) &&
         forall k :: 0 <= k < i ==> options.choices[k].id != answer)
      || ((forall i :: 0 <= i < |options.choices| ==> options.choices[i].id != answer) && r == answer)
  {
    var choices := if options.Listed? then options.choices else [];
    match FirstMatch(choices, answer)
    case Some(text) => text
    case None => answer
  }

  // ---------------------------------------------------------------------------
  // The blocks

  /** `answer_id and q["options"]`: the question is answered with a non-empty
      id and has truthy options. */
  predicate Yields(q: Question, answers: map<string, string>)
  {
    q.id in answers && answers[q.id] != "" && OptionsTruthy(q.options)
  }

  function Block(q: Question, answer: string): (r: string)
  {
    "Вопрос: " + q.text + "\nОтвет: " + AnswerText(q.options, answer)
  }

  /** The questions that produce a block, in the order given. */
  function Selected(qs: seq<Question>, answers: map<string, string>): (r: seq<Question>)
    ensures forall k :: 0 <= k < |r| ==> Yields(r[k], answers)
    ensures forall q :: q in r <==> q in qs && Yields(q, answers)
    ensures SortedByOrder(qs) ==> SortedByOrder(r)
  {
    if qs == [] then []
    else
      var prefix := qs[..|qs| - 1];
      var last := qs[|qs| - 1];
      assert qs == prefix + [last];
      Selected(prefix, answers) + (if Yields(last, answers) then [last] else [])
  }

  /** Each kept question is kept as often as it occurs; the others never. */
  lemma {:induction false} SelectedCounts(qs: seq<Question>, answers: map<string, string>)
    ensures forall q :: multiset(Selected(qs, answers))[q] == if Yields(q, answers) then multiset(qs)[q] else 0
  {
    if qs != [] {
      var prefix, last := qs[..|qs| - 1], qs[|qs| - 1];
      assert qs == prefix + [last];
      SelectedCounts(prefix, answers);
    }
  }

  function Blocks(qs: seq<Question>, answers: map<string, string>): (r: seq<string>)
  {
    var sel := Selected(qs, answers);
    seq(|sel|, k requires 0 <= k < |sel| => Block(sel[k], answers[sel[k].id]))
  }

  lemma BlocksSnoc(qs: seq<Question>, q: Question, answers: map<string, string>)
    ensures Blocks(qs + [q], answers) ==
      Blocks(qs, answers) + (if Yields(q, answers) then [Block(q, answers[q.id])] else [])
  {
    assert (qs + [q])[..|qs|] == qs;
    var sel, sel' := Selected(qs, answers), Selected(qs + [q], answers);
    assert sel' == sel + (if Yields(q, answers) then [q] else []);
  }

  /** The transcript sent to the model. */
  function Transcript(questions: seq<Question>, answers: map<string, string>): string
  {
    Join(Blocks(SortByOrder(questions), answers), BlockSeparator)
  }

  /** The for-loop of `submit_answers` that appends one block per answered question. */
  method FormatTranscript(questions: seq<Question>, answers: map<string, string>)
    returns (answersFormatted: string)
    ensures answersFormatted == Transcript(questions, answers)
  {
    var sorted := SortByOrder(questions);
    var answersText: seq<string> := [];
    for i := 0 to |sorted|
      invariant answersText == Blocks(sorted[..i], answers)
    {
      var q := sorted[i];
      assert sorted[..i + 1] == sorted[..i] + [q];
      BlocksSnoc(sorted[..i], q, answers);
      if q.id in answers && answers[q.id] != "" && OptionsTruthy(q.options) {
        var answerId := answers[q.id];
        var answerText := AnswerText(q.options, answerId);
        answersText := answersText + ["Вопрос: " + q.text + "\nОтвет: " + answerText];
      }
    }
    assert sorted[..|sorted|] == sorted;
    answersFormatted := Join(answersText, BlockSeparator);
  }

  // ---------------------------------------------------------------------------
  // Properties

  /** The transcript lists exactly the answered questions with truthy options,
      each as often as it occurs among the questions, in ascending display
      order, each as its "Вопрос / Ответ" block. */
  lemma TranscriptBlocks(questions: seq<Question>, answers: map<string, string>)
    ensures var sel := Selected(SortByOrder(questions), answers);
      && SortedByOrder(sel)
      && (forall q :: q in sel <==> q in questions && Yields(q, answers))
      && (forall q :: multiset(sel)[q] == if Yields(q, answers) then multiset(questions)[q] else 0)
      && Transcript(questions, answers) ==
           Join(seq(|sel|, k requires 0 <= k < |sel| => Block(sel[k], answers[sel[k].id])), BlockSeparator)
  {
    assert forall q :: q in SortByOrder(questions) <==> q in multiset(questions);
    SelectedCounts(SortByOrder(questions), answers);
  }

  /** The transcript is empty exactly when no question yields a block. */
  lemma TranscriptEmptyIff(questions: seq<Question>, answers: map<string, string>)
    ensures Transcript(questions, answers) == "" <==>
      forall q :: q in questions ==> !Yields(q, answers)
  {
    var sorted := SortByOrder(questions);
    var blocks := Blocks(sorted, answers);
    assert forall q :: q in sorted <==> q in multiset(questions);
    forall i | 0 <= i < |blocks| ensures blocks[i] != "" {
      assert blocks[i][0] == 'В';
    }
    JoinEmptyIff(blocks, BlockSeparator);
    if blocks != [] {
      var q := Selected(sorted, answers)[0];
      assert q in questions && Yields(q, answers);
    }
  }

  /** With distinct display orders, the order in which the store returns the
      questions does not change the transcript. */
  lemma TranscriptIgnoresQuestionOrder(qs1: seq<Question>, qs2: seq<Question>, answers: map<string, string>)
    requires multiset(qs1) == multiset(qs2)
    requires DistinctOrders(qs1)
    ensures Transcript(qs1, answers) == Transcript(qs2, answers)
  {
    var s1, s2 := SortByOrder(qs1), SortByOrder(qs2);
    forall i, j | 0 <= i < j < |s1| ensures s1[i].orderNum != s1[j].orderNum {
      DistinctStaysDistinct(qs1, s1, i, j);
    }
    SortedArrangementUnique(s1, s2);
  }

  lemma DistinctStaysDistinct(qs: seq<Question>, s: seq<Question>, i: int, j: int)
    requires DistinctOrders(qs) && multiset(s) == multiset(qs)
    requires 0 <= i < j < |s|
    ensures s[i].orderNum != s[j].orderNum
  {
    assert s[i] in multiset(qs) && s[j] in multiset(qs);
    var a :| 0 <= a < |qs| && qs[a] == s[i];
    var b :| 0 <= b < |qs| && qs[b] == s[j];
    DistinctCountOne(qs, a);
    TwoPositions(s, i, j);
    assert s[i] != s[j];
    assert a != b;
  }

  lemma TwoPositions(s: seq<Question>, i: int, j: int)
    requires 0 <= i < j < |s|
    ensures s[i] == s[j] ==> multiset(s)[s[i]] >= 2
  {
    assert s == s[..i] + [s[i]] + s[i + 1..j] + [s[j]] + s[j + 1..];
  }

  lemma {:induction false} DistinctCountOne(qs: seq<Question>, a: int)
    requires DistinctOrders(qs) && 0 <= a < |qs|
    ensures multiset(qs)[qs[a]] == 1
  {
    var x := qs[a];
    if a == 0 {
      assert qs == [x] + qs[1..];
      assert x !in qs[1..];
    } else {
      assert qs == [qs[0]] + qs[1..];
      assert qs[1..][a - 1] == x;
      DistinctCountOne(qs[1..], a - 1);
      assert qs[0] != x;
    }
  }
}
