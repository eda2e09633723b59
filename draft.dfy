/** The earlier draft of the game (frontend.tsx): a fixed list of three
    activities for every level, the same answer check, and a deferred advance
    that, after the last activity, moves straight to the next level with no
    upper bound and no overlay. */
module Draft {
  import opened Answers

  /** The list the draft installs for every level. */
  const ACTIVITIES: seq<Activity> := [
    Activity(1, "letra", "A", None, Some("/audio/a.mp3")),
    Activity(2, "silaba", "BA", None, Some("/audio/ba.mp3")),
    Activity(3, "palavra", "BOLA", None, Some("/audio/bola.mp3"))
  ]

  const AWARD: nat := 10
  const CORRECT: string := "Correto!"
  const RETRY: string := "Tente novamente!"

  datatype DraftProgress = DraftProgress(
    level: int,
    index: nat,
    answer: string,
    feedback: string,
    score: nat,
    advancePending: bool)

  const Initial: DraftProgress := DraftProgress(1, 0, "", "", 0, false)

  /** The invariant: the cursor stays on one of the three activities. */
  predicate Consistent(p: DraftProgress) {
    p.level >= 1 && p.index < |ACTIVITIES|
  }

  function Typed(p: DraftProgress, s: string): (q: DraftProgress)
    requires Consistent(p)
    ensures Consistent(q) && q.answer == s
    ensures q.(answer := p.answer) == p
  {
    p.(answer := s)
  }

  /** verificarResposta. The draft has no guard, so it relies on the cursor
      being on an activity. */
  function Checked(p: DraftProgress): (q: DraftProgress)
    requires p.index < |ACTIVITIES| && !p.advancePending
    ensures q.advancePending <==> IsCorrect(p.answer, ACTIVITIES[p.index].conteudo)
    ensures q.advancePending ==>
      q == p.(feedback := CORRECT, score := p.score + AWARD, advancePending := true)
    ensures !q.advancePending ==> q == p.(feedback := RETRY)
    ensures q.score >= p.score
  {
    if IsCorrect(p.answer, ACTIVITIES[p.index].conteudo) then
      p.(feedback := CORRECT, score := p.score + AWARD, advancePending := true)
    else
      p.(feedback := RETRY)
  }

  /** The deferred step: the next activity, or after the last one the next
      level from its first activity; answer and feedback cleared. */
  function Fired(p: DraftProgress): (q: DraftProgress)
    requires Consistent(p) && p.advancePending
    ensures Consistent(q)
    ensures q.answer == "" && q.feedback == "" && !q.advancePending && q.score == p.score
    ensures p.index + 1 < |ACTIVITIES| ==> q.index == p.index + 1 && q.level == p.level
    ensures p.index + 1 == |ACTIVITIES| ==> q.index == 0 && q.level == p.level + 1
  {
    var q := if p.index < |ACTIVITIES| - 1 then p.(index := p.index + 1)
             else p.(level := p.level + 1, index := 0);
    q.(answer := "", feedback := "", advancePending := false)
  }

  datatype Event = Type(s: string) | Check | Timeout

  predicate Enabled(p: DraftProgress, e: Event) {
    match e
    case Type(_) => true
    case Check => !p.advancePending
    case Timeout => p.advancePending
  }

  function Step(p: DraftProgress, e: Event): (q: DraftProgress)
    requires Consistent(p) && Enabled(p, e)
    ensures Consistent(q) && q.score >= p.score && q.level >= p.level
  {
    match e
    case Type(s) => Typed(p, s)
    case Check => Checked(p)
    case Timeout => Fired(p)
  }

  /** Plays a sequence of events; None when one of them has no control. */
  function Run(p: DraftProgress, es: seq<Event>): Option<DraftProgress>
    requires Consistent(p)
    decreases |es|
  {
    if es == [] then Some(p)
    else if !Enabled(p, es[0]) then None
    else Run(Step(p, es[0]), es[1..])
  }

  /** Every reachable state keeps the cursor in 0..2; neither score nor level
      ever decreases. */
  lemma {:induction false} RunKeepsInvariant(p: DraftProgress, es: seq<Event>, q: DraftProgress)
    requires Consistent(p) && Run(p, es) == Some(q)
    ensures Consistent(q)
    ensures q.score >= p.score && q.level >= p.level
    decreases |es|
  {
    if es != [] {
      RunKeepsInvariant(Step(p, es[0]), es[1..], q);
    }
  }

  /** Playing two sequences one after the other. */
  lemma {:induction false} RunAppend(p: DraftProgress, a: seq<Event>, b: seq<Event>)
    requires Consistent(p)
    ensures Run(p, a + b) ==
      match Run(p, a)
      case None => None
      case Some(m) => (RunKeepsInvariant(p, a, m); Run(m, b))
    decreases |a|
  {
    if a == [] {
      assert a + b == b;
    } else {
      assert (a + b)[0] == a[0] && (a + b)[1..] == a[1..] + b;
      if Enabled(p, a[0]) {
        RunAppend(Step(p, a[0]), a[1..], b);
      }
    }
  }

  /** Typing an answer, checking it and letting the timer fire. */
  function Answer(s: string): seq<Event> {
    [Type(s), Check, Timeout]
  }

  /** A correct answer on the current activity advances exactly as Fired
      says, with 10 more points. */
  lemma {:induction false} CorrectAnswerAdvances(p: DraftProgress, s: string)
    requires Consistent(p) && !p.advancePending
    requires IsCorrect(s, ACTIVITIES[p.index].conteudo)
    ensures Run(p, Answer(s)) ==
      Some(Fired(p.(answer := s, feedback := CORRECT, score := p.score + AWARD, advancePending := true)))
  {
    var p1 := Typed(p, s);
    var p2 := Checked(p1);
    var p3 := Fired(p2);
    assert Run(p3, []) == Some(p3);
    assert Run(p2, [Timeout]) == Run(p3, []);
    assert Run(p1, [Check, Timeout]) == Run(p2, [Timeout]);
  }

  /** Answering the three activities correctly, in lower case. */
  const PerfectRound: seq<Event> := Answer("a") + Answer("ba") + Answer("bola")

  /** One perfect round from the first activity earns 30 points and moves to
      the next level's first activity. */
  lemma PerfectRoundRaisesLevel(p: DraftProgress)
    requires Consistent(p) && p.index == 0 && !p.advancePending
    ensures Run(p, PerfectRound) ==
      Some(p.(level := p.level + 1, score := p.score + 3 * AWARD, answer := "", feedback := ""))
  {
    NoTrimming("", "A");
    assert IsCorrect("ba", "BA") by { UpperAt("ba", 0); UpperAt("ba", 1); }
    assert IsCorrect("bola", "BOLA") by {
      UpperAt("bola", 0); UpperAt("bola", 1); UpperAt("bola", 2); UpperAt("bola", 3);
    }
    CorrectAnswerAdvances(p, "a");
    var p1 := p.(index := 1, score := p.score + AWARD, answer := "", feedback := "");
    CorrectAnswerAdvances(p1, "ba");
    var p2 := p1.(index := 2, score := p1.score + AWARD);
    CorrectAnswerAdvances(p2, "bola");
    RunAppend(p, Answer("a"), Answer("ba"));
    RunAppend(p, Answer("a") + Answer("ba"), Answer("bola"));
  }

  /** k perfect rounds in a row. */
  function Rounds(k: nat): seq<Event> {
    if k == 0 then [] else PerfectRound + Rounds(k - 1)
  }

  /** The draft has no last level: k perfect rounds from the first activity
      of any level climb exactly k levels. */
  lemma {:induction false} LevelUnbounded(p: DraftProgress, k: nat)
    requires Consistent(p) && p.index == 0 && !p.advancePending
    ensures Run(p, Rounds(k)) ==
      Some(p.(level := p.level + k, score := p.score + 3 * AWARD * k,
              answer := if k == 0 then p.answer else "",
              feedback := if k == 0 then p.feedback else ""))
    decreases k
  {
    if k > 0 {
      PerfectRoundRaisesLevel(p);
      var m := p.(level := p.level + 1, score := p.score + 3 * AWARD, answer := "", feedback := "");
      RunAppend(p, PerfectRound, Rounds(k - 1));
      LevelUnbounded(m, k - 1);
    }
  }

  /** The draft screen: its handlers update the fields in place. */
  class DraftScreen {
    var level: int           // nivelAtual
    var index: nat           // atividadeAtual
    var answer: string       // resposta
    var feedback: string     // feedback
    var score: nat           // pontuacao
    var advancePending: bool // a setTimeout callback is scheduled

    function State(): DraftProgress
      reads this
    {
      DraftProgress(level, index, answer, feedback, score, advancePending)
    }

    predicate Valid()
      reads this
    {
      Consistent(State())
    }

    constructor ()
      ensures Valid() && State() == Initial
    {
      level, index, answer, feedback, score, advancePending := 1, 0, "", "", 0, false;
    }

    method TypeAnswer(s: string)
      requires Valid()
      modifies this
      ensures Valid() && State() == Typed(old(State()), s)
    {
      answer := s;
    }

    /** verificarResposta. */
    method CheckAnswer()
      requires Valid() && !advancePending
      modifies this
      ensures Valid() && State() == Checked(old(State()))
    {
      var expected := ACTIVITIES[index];
      if ToUpper(answer) == expected.conteudo {
        feedback := CORRECT;
        score := score + AWARD;
        advancePending := true;
      } else {
        feedback := RETRY;
      }
    }

    /** The timer callback scheduled by a correct answer. */
    method FireTimeout()
      requires Valid() && advancePending
      modifies this
      ensures Valid() && State() == Fired(old(State()))
    {
      if index < |ACTIVITIES| - 1 {
        index := index + 1;
      } else {
        level := level + 1;
        index := 0;
      }
      answer := "";
      feedback := "";
      advancePending := false;
    }
  }
}
