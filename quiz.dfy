/**
 * The quiz (`initQuiz`): three fixed questions asked in order; a click on an
 * option scores a point when it is the right one and moves to the next
 * question, and after the last one the final score is shown.
 */
module QuizEngine {

  /** A question, its option labels and the index of the correct option (`{q, options, a}`). */
  datatype Question = Question(q: string, options: seq<string>, a: nat)

  const Q1: Question := Question("Qual povo fala língua Tupi-Guarani?", ["Yanomami", "Guarani", "Tikuna"], 1)
  const Q2: Question := Question("Qual região do Brasil tem povos amazônicos tradicionais?", ["Nordeste", "Norte", "Sul"], 1)
  const Q3: Question := Question("Qual atividade é tradicional em muitas culturas indígenas?", ["Pintura corporal", "Surf", "Esqui"], 0)

  /** The fixed question table, in the order the quiz asks it. */
  const Questions: seq<Question> := [Q1, Q2, Q3]

  /** Whether choice `c` answers question `k` correctly (`i === Q.a`). */
  predicate IsRight(k: nat, c: nat)
    requires k < |Questions|
  {
    c == Questions[k].a
  }

  /** The number of choices in `cs` that answer their question correctly, question `k` answered by `cs[k]`. */
  function Correct(cs: seq<nat>): nat
    requires |cs| <= |Questions|
  {
    if cs == [] then 0
    else Correct(cs[..|cs| - 1]) + (if IsRight(|cs| - 1, cs[|cs| - 1]) then 1 else 0)
  }

  /** The positions of `cs` that answer their question correctly. */
  function RightPositions(cs: seq<nat>): set<nat>
    requires |cs| <= |Questions|
  {
    set k: nat | k < |cs| && IsRight(k, cs[k])
  }

  /** The score is the number of positions where the choice equals the question's correct index. */
  lemma {:induction false} CorrectCountsRightPositions(cs: seq<nat>)
    requires |cs| <= |Questions|
    ensures Correct(cs) == |RightPositions(cs)|
    decreases |cs|
  {
    if cs != [] {
      var n := |cs| - 1;
      var front := cs[..n];
      CorrectCountsRightPositions(front);
      if IsRight(n, cs[n]) {
        assert RightPositions(cs) == RightPositions(front) + {n};
      } else {
        assert RightPositions(cs) == RightPositions(front);
      }
    }
  }

  /** Answering one more question adds a point exactly when the answer is right. */
  lemma CorrectSnoc(cs: seq<nat>, c: nat)
    requires |cs| < |Questions|
    ensures Correct(cs + [c]) == Correct(cs) + (if IsRight(|cs|, c) then 1 else 0)
  {
    assert (cs + [c])[..|cs|] == cs;
  }

  /** Never more points than questions answered. */
  lemma {:induction false} CorrectAtMostAnswered(cs: seq<nat>)
    requires |cs| <= |Questions|
    ensures Correct(cs) <= |cs|
    decreases |cs|
  {
    if cs != [] {
      CorrectAtMostAnswered(cs[..|cs| - 1]);
    }
  }

  /** What `#quiz-root` shows: the current question and its options, or the final score. */
  datatype Screen = Asking(question: string, options: seq<string>) | Finished(score: nat, total: nat)

  /** The closure state of `initQuiz`: `idx` and `score`, with the choices made so far as ghost history. */
  class Quiz {
    var idx: nat
    var score: nat
    ghost var choices: seq<nat>

    ghost predicate Valid()
      reads this
    {
      && idx <= |Questions|
      && |choices| == idx
      && score == Correct(choices)
      && score <= idx
      && forall k :: 0 <= k < idx ==> choices[k] < |Questions[k].options|
    }

    /** `render()` while questions remain, `finish()` once `idx` reaches the end. */
    function View(): (s: Screen)
      reads this
      requires Valid()
      ensures s.Finished? <==> idx == |Questions|
      ensures s.Finished? ==> s.score == score && s.total == |Questions|
      ensures s.Asking? ==> s.question == Questions[idx].q && s.options == Questions[idx].options
    {
      if idx < |Questions| then Asking(Questions[idx].q, Questions[idx].options)
      else Finished(score, |Questions|)
    }

    /** `let idx = 0, score = 0; render();` */
    constructor ()
      ensures Valid() && idx == 0 && score == 0 && choices == []
    {
      idx, score := 0, 0;
      choices := [];
    }

    /**
     * The click handler of option `i` of the question on screen: a point when
     * `i` is the correct index, then always the next question.
     */
    method Click(i: nat)
      requires Valid() && idx < |Questions| && i < |Questions[idx].options|
      modifies this
      ensures Valid()
      ensures choices == old(choices) + [i]
      ensures idx == old(idx) + 1
      ensures score == old(score) + (if IsRight(old(idx), i) then 1 else 0)
    {
      CorrectSnoc(choices, i);
      CorrectAtMostAnswered(choices + [i]);
      if i == Questions[idx].a {
        score := score + 1;
      }
      idx := idx + 1;
      choices := choices + [i];
    }
  }

  /** Right, wrong, right: the page ends on "2/3" after exactly three clicks. */
  method ExampleGame() returns (s: Screen)
    ensures s == Finished(2, 3)
  {
    assert Questions[0].a == 1 && Questions[1].a == 1 && Questions[2].a == 0;
    var quiz := new Quiz();
    quiz.Click(1);
    assert quiz.score == 1;
    quiz.Click(0);
    assert quiz.score == 1;
    quiz.Click(0);
    assert quiz.score == 2;
    s := quiz.View();
  }
}
