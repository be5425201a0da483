/** Object ids are compared as texts, character by character. */
module Ids {
  import opened Text

  /** The decimal text of an id. */
  function IdText(id: int): string {
    if id < 0 then "-" + NumberText(-id) else NumberText(id)
  }

  /** One text sorts before another: at the first difference, or as a proper beginning of it. */
  predicate TextBefore(s: string, t: string) {
    if t == "" then false
    else if s == "" then true
    else s[0] < t[0] || (s[0] == t[0] && TextBefore(s[1..], t[1..]))
  }

  predicate IdBefore(a: int, b: int) {
    TextBefore(IdText(a), IdText(b))
  }

  lemma {:induction false} TextsAreOrdered(s: string, t: string)
    ensures !(TextBefore(s, t) && TextBefore(t, s))
    ensures TextBefore(s, t) || TextBefore(t, s) <==> s != t
  {
    if s != "" && t != "" {
      TextsAreOrdered(s[1..], t[1..]);
      assert s == [s[0]] + s[1..] && t == [t[0]] + t[1..];
    }
  }

  lemma IdTextDecides(a: int, b: int)
    requires IdText(a) == IdText(b)
    ensures a == b
  {
    NumberTextParses(if a < 0 then -a else a);
    NumberTextParses(if b < 0 then -b else b);
    if a < 0 {
      assert IdText(a)[0] == '-' && IdText(a)[1..] == NumberText(-a);
    }
    if b < 0 {
      assert IdText(b)[0] == '-' && IdText(b)[1..] == NumberText(-b);
    }
  }

  /** Of two different ids exactly one comes first. */
  lemma IdsAreOrdered(a: int, b: int)
    ensures !(IdBefore(a, b) && IdBefore(b, a))
    ensures IdBefore(a, b) || IdBefore(b, a) <==> a != b
  {
    TextsAreOrdered(IdText(a), IdText(b));
    if IdText(a) == IdText(b) {
      IdTextDecides(a, b);
    }
  }
}
