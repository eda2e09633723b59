/** The routed game screen (frontend/src/components/Game.jsx): an activity list
    loaded per level, an answer check that awards 10 points and defers the
    advance by a timer, a level-complete overlay whose button moves to the next
    level or wraps from the last level back to level 1, and, when a level has
    no activities, buttons that move one level down or up. */
module Game {
  import opened Answers

  /** The number of levels. */
  const MAX_LEVEL: int := 4
  /** Points added for each correct answer. */
  const AWARD: nat := 10
  const PRAISE: string := "Muito bem! \U{1F389}"
  const RETRY: string := "Tente novamente! \U{1F4AA}"

  /** What the activity request of a level delivered to the loader. */
  datatype LoadResponse =
    | Failed                                     // non-ok status or a thrown error: logged only
    | Loaded(atividades: Option<seq<Activity>>)  // parsed body; its `atividades` field may be missing

  /** The screen's state: the eight state fields of `Game` and whether a
      deferred advance has been scheduled and not yet fired. */
  datatype Progress = Progress(
    activities: seq<Activity>,
    level: int,
    answer: string,
    index: nat,
    feedback: string,
    score: nat,
    loading: bool,
    showLevelComplete: bool,
    advancePending: bool)

  /** The state right after mounting: level 1, nothing loaded yet, the first
      load under way. */
  const Initial: Progress :=
    Progress([], 1, "", 0, "", 0, true, false, false)

  /** The invariant every handler keeps. */
  predicate Consistent(p: Progress) {
    && 1 <= p.level <= MAX_LEVEL
    && (|p.activities| > 0 ==> p.index < |p.activities|)
    && (p.advancePending ==> p.index < |p.activities| && !p.loading)
    && (p.loading ==> p.index == 0 && !p.showLevelComplete)
    && (p.showLevelComplete ==> |p.activities| > 0)
  }

  /** The activity under the cursor, if any. */
  predicate HasActivity(p: Progress) {
    p.index < |p.activities|
  }

  /** The answer field changes. */
  function Typed(p: Progress, s: string): (q: Progress)
    requires Consistent(p)
    ensures Consistent(q) && q.answer == s
    ensures q.(answer := p.answer) == p
  {
    p.(answer := s)
  }

  /** verificarResposta: no activity at the cursor changes nothing; a correct
      answer praises, adds 10 points and schedules the advance; a wrong one
      only sets the retry message. */
  function Checked(p: Progress): (q: Progress)
    requires Consistent(p) && !p.loading && !p.advancePending
    ensures Consistent(q)
    ensures !HasActivity(p) ==> q == p
    ensures HasActivity(p) ==>
      (q.advancePending <==> IsCorrect(p.answer, p.activities[p.index].conteudo))
    ensures q.advancePending ==>
      q.score == p.score + AWARD && q.feedback == PRAISE &&
      q.(score := p.score, feedback := p.feedback, advancePending := false) == p
    ensures HasActivity(p) && !q.advancePending ==> q == p.(feedback := RETRY)
  {
    if !HasActivity(p) then p
    else if IsCorrect(p.answer, p.activities[p.index].conteudo) then
      p.(feedback := PRAISE, score := p.score + AWARD, advancePending := true)
    else
      p.(feedback := RETRY)
  }

  /** The deferred step of a correct answer: move to the next activity, or on
      the last one raise the level-complete overlay; clear answer and
      feedback either way. */
  function Fired(p: Progress): (q: Progress)
    requires Consistent(p) && p.advancePending
    ensures Consistent(q)
    ensures !q.advancePending && q.answer == "" && q.feedback == ""
    ensures q.level == p.level && q.score == p.score && q.activities == p.activities
    ensures !q.loading
    ensures p.index + 1 < |p.activities| ==>
      q.index == p.index + 1 && q.showLevelComplete == p.showLevelComplete
    ensures p.index + 1 == |p.activities| ==>
      q.index == p.index && q.showLevelComplete
  {
    var q := if p.index < |p.activities| - 1 then p.(index := p.index + 1)
             else p.(showLevelComplete := true);
    q.(answer := "", feedback := "", advancePending := false)
  }

  /** onContinue of the overlay: next level, or level 1 after the last one;
      back to the first activity, overlay hidden, score kept. The level
      always changes, so the new level's activities start loading. */
  function Continued(p: Progress): (q: Progress)
    requires Consistent(p) && p.showLevelComplete && !p.advancePending
    ensures Consistent(q)
    ensures q.level == 1 <==> p.level == MAX_LEVEL
    ensures p.level < MAX_LEVEL ==> q.level == p.level + 1
    ensures q.level != p.level
    ensures q.index == 0 && !q.showLevelComplete && q.loading
    ensures q.score == p.score && q.activities == p.activities
    ensures q.(level := p.level, index := p.index, showLevelComplete := p.showLevelComplete,
               loading := p.loading) == p
  {
    p.(level := if p.level == MAX_LEVEL then 1 else p.level + 1,
       index := 0, showLevelComplete := false, loading := true)
  }

  /** The empty-list screen shows "Voltar ao nível anterior" above level 1. */
  predicate PreviousOffered(p: Progress): (b: bool)
    ensures b ==> 1 <= p.level - 1 && !HasActivity(p) && !p.loading
  {
    !p.loading && |p.activities| == 0 && p.level > 1
  }

  /** The empty-list screen shows "Próximo nível" below the last level. */
  predicate NextOffered(p: Progress): (b: bool)
    ensures b ==> p.level + 1 <= MAX_LEVEL && !HasActivity(p) && !p.loading
  {
    !p.loading && |p.activities| == 0 && p.level < MAX_LEVEL
  }

  /** The previous-level button: one level down, first activity, reload. */
  function WentBack(p: Progress): (q: Progress)
    requires Consistent(p) && PreviousOffered(p)
    ensures Consistent(q)
    ensures q.level == p.level - 1 && q.index == 0 && q.loading
    ensures q.score == p.score && q.activities == p.activities
    ensures q.(level := p.level, index := p.index, loading := p.loading) == p
  {
    p.(level := p.level - 1, index := 0, loading := true)
  }

  /** The next-level button: one level up, first activity, reload. */
  function WentForward(p: Progress): (q: Progress)
    requires Consistent(p) && NextOffered(p)
    ensures Consistent(q)
    ensures q.level == p.level + 1 && q.index == 0 && q.loading
    ensures q.score == p.score && q.activities == p.activities
    ensures q.(level := p.level, index := p.index, loading := p.loading) == p
  {
    p.(level := p.level + 1, index := 0, loading := true)
  }

  /** The list `setAtividades(data.atividades || [])` installs. */
  function ListOf(field: Option<seq<Activity>>): (xs: seq<Activity>)
    ensures field.Some? ==> xs == field.value
    ensures field.None? ==> xs == []
  {
    match field
    case Some(xs) => xs
    case None => []
  }

  /** The end of a load: a delivered body replaces the list with its
      `atividades` field, or with the empty list when the field is missing; a
      failure keeps the previous list. Loading ends either way. */
  function Applied(p: Progress, r: LoadResponse): (q: Progress)
    requires Consistent(p) && p.loading
    ensures Consistent(q) && !q.loading
    ensures r.Failed? ==> q.activities == p.activities
    ensures r.Loaded? && r.atividades.Some? ==> q.activities == r.atividades.value
    ensures r.Loaded? && r.atividades.None? ==> q.activities == []
    ensures q.(activities := p.activities, loading := true) == p
  {
    match r
    case Failed => p.(loading := false)
    case Loaded(field) => p.(activities := ListOf(field), loading := false)
  }

  /** Everything that can happen to the screen. */
  datatype Event =
    | Type(s: string)
    | Check
    | Timeout
    | Continue
    | PreviousLevel
    | NextLevel
    | Load(r: LoadResponse)

  /** Whether the control or callback behind an event exists in this state. */
  predicate Enabled(p: Progress, e: Event) {
    match e
    case Type(_) => true
    case Check => !p.loading && !p.advancePending
    case Timeout => p.advancePending
    case Continue => p.showLevelComplete && !p.advancePending
    case PreviousLevel => PreviousOffered(p)
    case NextLevel => NextOffered(p)
    case Load(_) => p.loading
  }

  function Step(p: Progress, e: Event): (q: Progress)
    requires Consistent(p) && Enabled(p, e)
    ensures Consistent(q) && q.score >= p.score
  {
    match e
    case Type(s) => Typed(p, s)
    case Check => Checked(p)
    case Timeout => Fired(p)
    case Continue => Continued(p)
    case PreviousLevel => WentBack(p)
    case NextLevel => WentForward(p)
    case Load(r) => Applied(p, r)
  }

  /** Plays a sequence of events; None when one of them has no control. */
  function Run(p: Progress, es: seq<Event>): Option<Progress>
    requires Consistent(p)
    decreases |es|
  {
    if es == [] then Some(p)
    else if !Enabled(p, es[0]) then None
    else Run(Step(p, es[0]), es[1..])
  }

  /** Every reachable state keeps the invariant, in particular
      1 <= level <= MAX_LEVEL, and the score never decreases and moves only
      in steps of 10. */
  lemma {:induction false} RunKeepsInvariant(p: Progress, es: seq<Event>, q: Progress)
    requires Consistent(p) && Run(p, es) == Some(q)
    ensures Consistent(q) && 1 <= q.level <= MAX_LEVEL
    ensures q.score >= p.score && (q.score - p.score) % AWARD == 0
    decreases |es|
  {
    if es != [] {
      var p' := Step(p, es[0]);
      RunKeepsInvariant(p', es[1..], q);
      assert (p'.score - p.score) % AWARD == 0;
    }
  }

  /** From the initial state every reachable state is consistent. */
  lemma ReachableConsistent(es: seq<Event>, q: Progress)
    requires Run(Initial, es) == Some(q)
    ensures Consistent(q) && q.score % AWARD == 0
  {
    RunKeepsInvariant(Initial, es, q);
  }

  /** A correct answer on the last activity, once its timer fires, raises
      the overlay with the level unchanged: the level never moves on by
      itself. */
  lemma CorrectAnswerOnLastActivity(p: Progress)
    requires Consistent(p) && !p.loading && !p.advancePending
    requires |p.activities| > 0 && p.index == |p.activities| - 1
    requires IsCorrect(p.answer, p.activities[p.index].conteudo)
    ensures Run(p, [Check, Timeout]) ==
      Some(p.(score := p.score + AWARD, showLevelComplete := true, answer := "", feedback := ""))
  {
    var p1 := p.(feedback := PRAISE, score := p.score + AWARD, advancePending := true);
    assert Checked(p) == p1;
    var p2 := p.(score := p.score + AWARD, showLevelComplete := true, answer := "", feedback := "");
    assert Fired(p1) == p2;
    var es: seq<Event> := [Check, Timeout];
    assert es[1..] == [Timeout] && [Timeout][1..] == [];
    assert Run(p2, []) == Some(p2);
    assert Run(p1, [Timeout]) == Run(p2, []);
    assert Run(p, es) == Run(p1, [Timeout]);
  }

  /** The screen as a component with state: each handler updates the fields
      in place exactly as the corresponding transition says. */
  class GameScreen {
    var activities: seq<Activity>   // atividades
    var level: int                  // nivelAtual
    var answer: string              // resposta
    var index: nat                  // atividadeAtual
    var feedback: string            // feedback
    var score: nat                  // pontuacao
    var loading: bool               // carregando
    var showLevelComplete: bool     // showLevelComplete
    var advancePending: bool        // a setTimeout callback is scheduled

    function State(): Progress
      reads this
    {
      Progress(activities, level, answer, index, feedback, score,
               loading, showLevelComplete, advancePending)
    }

    predicate Valid()
      reads this
    {
      Consistent(State())
    }

    constructor ()
      ensures Valid() && State() == Initial
    {
      activities, level, answer, index := [], 1, "", 0;
      feedback, score, loading := "", 0, true;
      showLevelComplete, advancePending := false, false;
    }

    /** onChange of the input. */
    method TypeAnswer(s: string)
      requires Valid()
      modifies this
      ensures Valid() && State() == Typed(old(State()), s)
    {
      answer := s;
    }

    /** verificarResposta. */
    method CheckAnswer()
      requires Valid() && !loading && !advancePending
      modifies this
      ensures Valid() && State() == Checked(old(State()))
      ensures score >= old(score)
    {
      if index >= |activities| {
        return;
      }
      var expected := activities[index];
      if ToUpper(answer) == expected.conteudo {
        feedback := PRAISE;
        score := score + AWARD;
        advancePending := true;
      } else {
        feedback := RETRY;
      }
    }

    /** The timer callback scheduled by a correct answer. */
    method FireTimeout()
      requires Valid() && advancePending
      modifies this
      ensures Valid() && State() == Fired(old(State()))
    {
      if index < |activities| - 1 {
        index := index + 1;
      } else {
        showLevelComplete := true;
      }
      answer := "";
      feedback := "";
      advancePending := false;
    }

    /** onContinue of the level-complete overlay. */
    method Continue()
      requires Valid() && showLevelComplete && !advancePending
      modifies this
      ensures Valid() && State() == Continued(old(State()))
    {
      if level == MAX_LEVEL {
        level := 1;
      } else {
        level := level + 1;
      }
      index := 0;
      showLevelComplete := false;
      loading := true;
    }

    /** "Voltar ao nível anterior". */
    method PreviousLevel()
      requires Valid() && PreviousOffered(State())
      modifies this
      ensures Valid() && State() == WentBack(old(State()))
    {
      level := level - 1;
      index := 0;
      loading := true;
    }

    /** "Próximo nível". */
    method NextLevel()
      requires Valid() && NextOffered(State())
      modifies this
      ensures Valid() && State() == WentForward(old(State()))
    {
      level := level + 1;
      index := 0;
      loading := true;
    }

    /** The end of carregarAtividades, once the request has settled. */
    method ApplyLoad(r: LoadResponse)
      requires Valid() && loading
      modifies this
      ensures Valid() && State() == Applied(old(State()), r)
    {
      if r.Loaded? {
        activities := ListOf(r.atividades);
      }
      loading := false;
    }
  }
}
