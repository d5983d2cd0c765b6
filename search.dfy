/** The "first match wins" linear scan behind the spider's `for … if …: …; break` loops. */
module Search {
  import opened Options

  /** Index of the first element of `s` that satisfies `p`, if any. */
  function FirstMatch<T>(s: seq<T>, p: T -> bool): (r: Option<nat>)
    ensures r.Some? ==> r.value < |s| && p(s[r.value])
    ensures r.Some? ==> forall j :: 0 <= j < r.value ==> !p(s[j])
    ensures r.None? ==> forall j :: 0 <= j < |s| ==> !p(s[j])
  {
    if s == [] then None
    else if p(s[0]) then Some(0)
    else match FirstMatch(s[1..], p)
      case None => None
      case Some(i) => Some(i + 1)
  }

  /** Elements after the first match are never consulted. */
  lemma {:induction false} FirstMatchIgnoresLater<T>(s: seq<T>, later: seq<T>, p: T -> bool)
    requires FirstMatch(s, p).Some?
    ensures FirstMatch(s + later, p) == FirstMatch(s, p)
  {
    if !p(s[0]) {
      assert (s + later)[1..] == s[1..] + later;
      FirstMatchIgnoresLater(s[1..], later, p);
    }
  }
}
