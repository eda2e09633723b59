# Literacy game: answer check and progression

This project models the core of a browser literacy game for early readers. The
learner sees an activity (a letter, a syllable or a word), types an answer, and
the game checks it. A correct answer earns 10 points. After a short delay the
game moves to the next activity or finishes the level. The repository holds two
drafts of this screen, and both are modelled:

- `frontend/src/components/Game.jsx` is the routed game (module `Game`). It
  loads a list of activities per level. The last activity of a level raises a
  level-complete overlay. Its button moves to the next level, or back to level 1
  after level `MAX_LEVEL = 4`. When a level has no activities, buttons move one
  level down or up, within 1..4.
- `frontend.tsx` is an earlier draft (module `Draft`). It uses one fixed list of
  three activities for every level. After the last activity it moves straight to
  the next level, with no upper bound and no overlay.

Module `Answers` holds the check both drafts share. The answer is upper-cased
and compared exactly with the activity's `conteudo`. Nothing is trimmed and
accents are not folded.

Each draft is modelled in three layers:

1. A datatype of its state (`Game.Progress`, `Draft.DraftProgress`) and one
   pure transition function per handler. Each function's contract states what
   the handler promises.
2. A class (`Game.GameScreen`, `Draft.DraftScreen`) whose fields are the
   component's state. Each of its methods updates those fields in place, as
   the handler does. Each method's `ensures` says that the new state is the
   transition function applied to the old state.
3. An event type, a `Run` function that plays a sequence of events, and lemmas
   about every reachable state.

The `setTimeout` callback is modelled as two steps. `CheckAnswer` records a
pending advance, and `FireTimeout` applies it. No timing is involved. The
callback reads the index and list captured when the answer was checked. Every
reachable state satisfies `Consistent`, and under it nothing can change the
index or the list between the check and the firing. So the captured values and
the current values coincide.

A handler whose control is rendered only in some states takes that state as its
precondition:

- The answer box and its button are hidden while the list is loading, because
  the spinner replaces them.
- The empty-list level buttons exist only when the list is empty and the level
  bound allows them.
- The overlay's button exists only while the overlay is shown.
- A timer callback exists only after a correct answer.

In both files the check is `resposta.toUpperCase() === conteudo` and nothing
more: no trimming, no accent folding and no tables of alternative answers.

## Model

| member | source | states |
|---|---|---|
| `Answers.UpperChar` | frontend/src/components/Game.jsx:45 | upper-casing a character leaves no lower-case letter; it maps a..z onto A..Z and leaves every other character unchanged |
| `Answers.ToUpper` | frontend/src/components/Game.jsx:45 | upper-casing keeps the length of the answer |
| `Answers.IsCorrect` | frontend/src/components/Game.jsx:45 | the comparison `resposta.toUpperCase() === conteudo`; a correct answer has exactly the content's length, and empty content accepts only the empty answer |
| `Answers.UpperAt` | frontend/src/components/Game.jsx:45 | upper-casing works position by position |
| `Answers.ToUpperIdempotent` | frontend/src/components/Game.jsx:45 | upper-casing twice is the same as upper-casing once |
| `Answers.CorrectIffCharwise` | frontend/src/components/Game.jsx:45 | an answer is correct iff it has the content's length and each character upper-cases to the content's character at that position (both directions) |
| `Answers.NoTrimming` | frontend.tsx:36 | a leading or trailing space is never accepted when the content has none there; " a" is wrong for "A", while "a" and "A" are right |
| `Answers.AnswerCaseIgnored` | frontend.tsx:36 | the case of the typed answer never changes the verdict |
| `Answers.LowercaseContentUnanswerable` | frontend/src/components/Game.jsx:45 | content that holds a lower-case letter can never be answered correctly |
| `Answers.DisplayedContentAccepted` | frontend/src/components/Game.jsx:121 | typing the displayed content is accepted iff the content has no lower-case letter |
| `Game.Typed` | frontend/src/components/Game.jsx:134 | typing changes only the answer |
| `Game.Checked` | frontend/src/components/Game.jsx:41-60 | with no activity at the index nothing changes; otherwise an advance is scheduled iff the upper-cased answer equals `conteudo`; a correct answer adds exactly 10 points and sets the praise, and nothing else changes; a wrong answer only sets the retry message; the invariant is kept |
| `Game.Fired` | frontend/src/components/Game.jsx:48-56 | below the last activity the index goes up by one; on the last activity the index stays and the overlay is raised; answer and feedback are cleared; level and score are unchanged |
| `Game.Continued` | frontend/src/components/Game.jsx:171-179 | the new level is 1 iff the old level was 4, and otherwise the old level + 1; the index goes back to 0, the overlay is hidden, the score is kept, and the new level's list starts loading; answer and feedback are untouched |
| `Game.PreviousOffered` | frontend/src/components/Game.jsx:86-94 | the previous-level button is shown only on the empty-list screen, not while loading, and only when level - 1 is still at least 1 |
| `Game.NextOffered` | frontend/src/components/Game.jsx:105 | the next-level button is shown only on the empty-list screen, not while loading, and only when level + 1 is still at most 4 |
| `Game.WentBack` | frontend/src/components/Game.jsx:94-104 | offered only on an empty list above level 1: one level down, index 0, a reload starts, and nothing else changes (score, answer, feedback kept); invariant kept |
| `Game.WentForward` | frontend/src/components/Game.jsx:105-115 | offered only on an empty list below level 4: one level up, index 0, a reload starts, and nothing else changes (score, answer, feedback kept); invariant kept |
| `Game.ListOf` | frontend/src/components/Game.jsx:33 | the list a load installs: the delivered `atividades` field when present, and the empty list when it is missing |
| `Game.Applied` | frontend/src/components/Game.jsx:31-37 | a delivered body replaces the list with `atividades`, or with the empty list when that field is missing; a failed load keeps the list; loading ends; nothing else changes |
| `Game.Step` | frontend/src/components/Game.jsx:13-16 | every enabled handler keeps the invariant and never lowers the score |
| `Game.RunKeepsInvariant` | frontend/src/components/Game.jsx:9-16 | after any sequence of events the invariant holds (1 <= level <= 4, the index is on an activity when there is one), and the score has not decreased and has moved only in multiples of 10 |
| `Game.ReachableConsistent` | frontend/src/components/Game.jsx:8-15 | every state reachable from the initial one is consistent, and its score is a multiple of 10 |
| `Game.CorrectAnswerOnLastActivity` | frontend/src/components/Game.jsx:45-56 | a correct answer on the last activity, once its timer fires, raises the overlay with the level unchanged and 10 more points |
| `Game.GameScreen.constructor` | frontend/src/components/Game.jsx:8-15 | starts at level 1, index 0, score 0, with an empty list and the first load under way |
| `Game.GameScreen.TypeAnswer` | frontend/src/components/Game.jsx:134 | updates the fields as `Typed` says |
| `Game.GameScreen.CheckAnswer` | frontend/src/components/Game.jsx:41-60 | updates the fields as `Checked` says; the score does not decrease |
| `Game.GameScreen.FireTimeout` | frontend/src/components/Game.jsx:48-56 | updates the fields as `Fired` says |
| `Game.GameScreen.Continue` | frontend/src/components/Game.jsx:171-179 | updates the fields as `Continued` says |
| `Game.GameScreen.PreviousLevel` | frontend/src/components/Game.jsx:94-104 | updates the fields as `WentBack` says |
| `Game.GameScreen.NextLevel` | frontend/src/components/Game.jsx:105-115 | updates the fields as `WentForward` says |
| `Game.GameScreen.ApplyLoad` | frontend/src/components/Game.jsx:31-37 | updates the fields as `Applied` says |
| `Draft.Typed` | frontend.tsx:100 | typing changes only the answer |
| `Draft.Checked` | frontend.tsx:34-52 | needs the index to be in range, because the draft has no guard; an advance is scheduled iff the upper-cased answer equals `conteudo`; a correct answer adds exactly 10 and sets 'Correto!'; a wrong answer only sets 'Tente novamente!' |
| `Draft.Fired` | frontend.tsx:39-48 | below the last activity the index goes up by one and the level is unchanged; on the last activity the level goes up by one with no bound and the index resets to 0; answer and feedback end empty; the score is unchanged |
| `Draft.Step` | frontend.tsx:34-52 | every enabled handler keeps 0 <= index < 3 and never lowers the score or the level |
| `Draft.RunKeepsInvariant` | frontend.tsx:25-48 | after any sequence of events the index is still below 3, and neither the score nor the level has decreased |
| `Draft.CorrectAnswerAdvances` | frontend.tsx:34-48 | typing a correct answer, checking it and letting the timer fire gives 10 more points and then the deferred step |
| `Draft.PerfectRoundRaisesLevel` | frontend.tsx:27-44 | answering the three fixed activities "a", "ba", "bola" from index 0 moves to the next level's first activity with 30 more points |
| `Draft.LevelUnbounded` | frontend.tsx:42-44 | k perfect rounds climb exactly k levels, for every k, so the draft's level has no upper bound |
| `Draft.DraftScreen.constructor` | frontend.tsx:10-14 | starts at level 1, index 0, score 0, with empty answer and feedback |
| `Draft.DraftScreen.TypeAnswer` | frontend.tsx:100 | updates the fields as `Typed` says |
| `Draft.DraftScreen.CheckAnswer` | frontend.tsx:34-52 | updates the fields as `Checked` says |
| `Draft.DraftScreen.FireTimeout` | frontend.tsx:39-48 | updates the fields as `Fired` says |

## Left out

- The activity request in `carregarAtividades` (URL, bearer token, status, JSON parsing) is network I/O. Its outcome is a parameter, `Game.LoadResponse`: `Failed` for a non-ok status or a thrown error, which is only logged, or `Loaded` with the optional `atividades` field.
- `Answers.ToUpper` covers ASCII `a`-`z` only. JavaScript's `toUpperCase` also maps accented and other non-ASCII letters (`é` to `É`), and a few characters change length (`ß` to `SS`). An accented lower-case answer to accented upper-case content is accepted by the source and rejected by the model.
- `Game.Checked` and `Game.GameScreen.CheckAnswer` require that no advance is pending. The same goes for `Draft.Checked` and `Draft.DraftScreen.CheckAnswer`. This leaves out any answer checked within the 1500 ms window after a correct one. A second correct answer there schedules a second timer, whose callback reads stale values captured by React's closure. A wrong answer there sets the retry message, and the pending timer then clears it (Game.jsx lines 58 then 55, frontend.tsx lines 50 then 47). Overlapping timers, closure staleness and this retry-then-clear sequence are not modelled.
- `Game.Continued` and `Game.GameScreen.Continue` require that no advance is pending, for the same reason. An answer typed under the overlay could otherwise leave a timer running into the next level.
- Timer cancellation when the component unmounts is not modelled. The source does not cancel either.
- The model treats every entry of a loaded list as an activity with a string `conteudo`. In JavaScript, a `null` entry makes `verificarResposta` return early, and a missing `conteudo` makes every answer wrong. Neither case is modelled.
- Pressing Enter (`handleKeyPress`) calls the same check as the button, so it is not a separate event. React's batching and re-rendering are not modelled. Neither is the loading spinner's rendering, beyond the `loading` flag.
- In `frontend.tsx`, the simulated login (`fazerLogin`) is left out. The per-type card titles are presentation and are left out too. The effect that installs the fixed list is treated as having already run: the activity card is rendered only while the list is non-empty, so no answer can be checked before it runs.
- Leaderboard, registration, login and session storage, routing, and both backends are not part of this model. They are presentation, browser I/O or server code with foreign libraries. `Game.jsx` sends no score upload, so the model has none.
