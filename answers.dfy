/** The answer check shared by both drafts of the game: the learner's typed
    answer is upper-cased and compared, character for character, with the
    activity's `conteudo`. There is no trimming and no accent folding. */
module Answers {

  datatype Option<T> = None | Some(value: T)

  /** One activity as the game receives it. Game.jsx reads `conteudo` and
      `dica`; the draft's fixed list carries an `audio_url` instead. */
  datatype Activity = Activity(
    id: int,
    tipo: string,
    conteudo: string,
    dica: Option<string>,
    audioUrl: Option<string>)

  predicate IsLower(c: char) {
    'a' <= c <= 'z'
  }

  predicate IsUpper(c: char) {
    'A' <= c <= 'Z'
  }

  /** `toUpperCase` on one character, restricted to ASCII. */
  function UpperChar(c: char): (u: char)
    ensures !IsLower(u)
    ensures IsLower(c) ==> IsUpper(u) && u as int - c as int == 'A' as int - 'a' as int
    ensures !IsLower(c) ==> u == c
  {
    if IsLower(c) then (c as int - 'a' as int + 'A' as int) as char else c
  }

  /** `String.prototype.toUpperCase`, restricted to ASCII: length-preserving. */
  function ToUpper(s: string): (r: string)
    ensures |r| == |s|
  {
    if s == [] then [] else [UpperChar(s[0])] + ToUpper(s[1..])
  }

  /** The comparison `resposta.toUpperCase() === conteudo`. */
  predicate IsCorrect(resposta: string, conteudo: string): (b: bool)
    ensures b ==> |resposta| == |conteudo|
    ensures conteudo == [] ==> (b <==> resposta == [])
  {
    ToUpper(resposta) == conteudo
  }

  /** Upper-casing works position by position. */
  lemma {:induction false} UpperAt(s: string, i: int)
    requires 0 <= i < |s|
    ensures ToUpper(s)[i] == UpperChar(s[i])
  {
    if i > 0 {
      UpperAt(s[1..], i - 1);
    }
  }

  /** Upper-casing an already upper-cased string changes nothing. */
  lemma {:induction false} ToUpperIdempotent(s: string)
    ensures ToUpper(ToUpper(s)) == ToUpper(s)
  {
    if s != [] {
      ToUpperIdempotent(s[1..]);
    }
  }

  /** An answer is accepted exactly when it has the content's length and each
      of its characters upper-cases to the content's character at that
      position: no whitespace is trimmed and nothing else is normalised. */
  lemma CorrectIffCharwise(resposta: string, conteudo: string)
    ensures IsCorrect(resposta, conteudo) <==>
      |resposta| == |conteudo| &&
      forall i :: 0 <= i < |resposta| ==> UpperChar(resposta[i]) == conteudo[i]
  {
    forall i | 0 <= i < |resposta| {
      UpperAt(resposta, i);
    }
    if |resposta| == |conteudo| &&
       forall i :: 0 <= i < |resposta| ==> UpperChar(resposta[i]) == conteudo[i]
    {
      assert forall i :: 0 <= i < |resposta| ==> ToUpper(resposta)[i] == conteudo[i];
    }
  }

  /** An answer with a leading or a trailing space is rejected when the
      content has none there: " a" is wrong for "A". */
  lemma NoTrimming(resposta: string, conteudo: string)
    requires |conteudo| == 0 || conteudo[0] != ' '
    requires |conteudo| == 0 || conteudo[|conteudo| - 1] != ' '
    ensures !IsCorrect([' '] + resposta, conteudo)
    ensures !IsCorrect(resposta + [' '], conteudo)
    ensures !IsCorrect(" a", "A") && IsCorrect("a", "A") && IsCorrect("A", "A")
  {
    UpperAt([' '] + resposta, 0);
    UpperAt(resposta + [' '], |resposta|);
    UpperAt(" a", 0);
    UpperAt("a", 0);
  }

  /** The case of the typed answer never matters. */
  lemma {:induction false} AnswerCaseIgnored(resposta: string, conteudo: string)
    ensures IsCorrect(ToUpper(resposta), conteudo) == IsCorrect(resposta, conteudo)
  {
    ToUpperIdempotent(resposta);
  }

  /** An activity whose content holds a lower-case letter can never be
      answered correctly, whatever is typed. */
  lemma LowercaseContentUnanswerable(resposta: string, conteudo: string, k: int)
    requires 0 <= k < |conteudo| && IsLower(conteudo[k])
    ensures !IsCorrect(resposta, conteudo)
  {
    if IsCorrect(resposta, conteudo) {
      UpperAt(resposta, k);
    }
  }

  /** Typing exactly what is displayed is accepted iff the displayed content
      has no lower-case letter. */
  lemma DisplayedContentAccepted(conteudo: string)
    ensures IsCorrect(conteudo, conteudo) <==>
      forall i :: 0 <= i < |conteudo| ==> !IsLower(conteudo[i])
  {
    CorrectIffCharwise(conteudo, conteudo);
  }
}
