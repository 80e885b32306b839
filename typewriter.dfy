/**
 * The typewriter reveal of `Chatbot.typewriterEffect`: an interval whose
 * callback, on each firing, appends the next character of the reply to the
 * paragraph's plain text, and on the first firing with nothing left clears
 * itself. No markup is interpreted: the text grows character by character.
 */
module Typewriter {

  /** The closure's state between firings: the local `index` and the
      paragraph's `textContent`. */
  datatype Progress = Progress(index: nat, shown: string)

  /** What one firing does: types one more character, or clears the interval. */
  datatype Step = Typed(next: Progress) | Finished

  /** The reveal's invariant: the paragraph shows exactly the first `index`
      characters of the text. */
  predicate Consistent(text: string, p: Progress)
  {
    p.index <= |text| && p.shown == text[..p.index]
  }

  /** The state right after `typewriterEffect` starts: index 0, empty text. */
  function Start(): (p: Progress)
    ensures forall text: string :: Consistent(text, p)
  {
    Progress(0, "")
  }

  /** One firing of the interval callback. */
  function Tick(text: string, p: Progress): (s: Step)
    ensures s.Finished? <==> p.index >= |text|
    ensures s.Typed? ==> s.next.index == p.index + 1 && s.next.shown == p.shown + [text[p.index]]
    ensures s.Typed? && Consistent(text, p) ==> Consistent(text, s.next)
  {
    if p.index < |text| then
      Typed(Progress(p.index + 1, p.shown + [text[p.index]]))
    else
      Finished
  }

  /** The interval after it has fired `n` times: still typing, or cleared. */
  function Run(text: string, n: nat): (s: Step)
  {
    if n == 0 then Typed(Start())
    else match Run(text, n - 1)
      case Finished => Finished
      case Typed(p) => Tick(text, p)
  }

  /** After `n <= |text|` firings the paragraph shows the first `n` characters. */
  lemma {:induction false} RunShowsPrefix(text: string, n: nat)
    requires n <= |text|
    ensures Run(text, n) == Typed(Progress(n, text[..n]))
  {
    if n > 0 {
      RunShowsPrefix(text, n - 1);
      assert text[..n - 1] + [text[n - 1]] == text[..n];
    }
  }

  /** The reveal is cleared on firing `|text| + 1` and not before: the
      callback types on exactly `|text|` firings, then stops for good. */
  lemma {:induction false} RunFinishes(text: string, n: nat)
    ensures Run(text, n).Finished? <==> n > |text|
  {
    if n <= |text| {
      RunShowsPrefix(text, n);
    } else if n == |text| + 1 {
      RunShowsPrefix(text, |text|);
    } else {
      RunFinishes(text, n - 1);
    }
  }
}
