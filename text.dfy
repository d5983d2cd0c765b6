/** String operations the spider uses: substring search (`in`), `split(sep, 1)[-1]` and `join`. */
module Text {
  import opened Options

  /** `sep` occurs in `s` starting at index `i`. */
  predicate OccursAt(s: string, sep: string, i: nat) {
    i + |sep| <= |s| && s[i..i + |sep|] == sep
  }

  /** The first index at or after `from` where `sep` occurs in `s`. */
  function FindFrom(s: string, sep: string, from: nat): (r: Option<nat>)
    ensures r.Some? ==> from <= r.value && OccursAt(s, sep, r.value)
    ensures r.Some? ==> forall j :: from <= j < r.value ==> !OccursAt(s, sep, j)
    ensures r.None? ==> forall j :: from <= j ==> !OccursAt(s, sep, j)
    decreases |s| - from
  {
    if from + |sep| > |s| then None
    else if s[from..from + |sep|] == sep then Some(from)
    else FindFrom(s, sep, from + 1)
  }

  /** The first occurrence of `sep` in `s`, if any. */
  function Find(s: string, sep: string): Option<nat> {
    FindFrom(s, sep, 0)
  }

  /** Python's `sub in s`. */
  function Contains(s: string, sub: string): (b: bool)
    ensures b <==> exists i: nat :: OccursAt(s, sub, i)
  {
    Find(s, sub).Some?
  }

  /** Appending text after a string that already holds `sep` leaves its first occurrence where it was. */
  lemma {:induction false} FindFromExtend(s: string, t: string, sep: string, from: nat)
    requires FindFrom(s, sep, from).Some?
    ensures FindFrom(s + t, sep, from) == FindFrom(s, sep, from)
    decreases |s| - from
  {
    var u := s + t;
    assert u[from..from + |sep|] == s[from..from + |sep|] by {
      assert from + |sep| <= |s|;
    }
    if s[from..from + |sep|] != sep {
      FindFromExtend(s, t, sep, from + 1);
    }
  }

  lemma FindExtend(s: string, t: string, sep: string)
    requires Find(s, sep).Some?
    ensures Find(s + t, sep) == Find(s, sep)
  {
    FindFromExtend(s, t, sep, 0);
  }

  /**
   * Python's `s.split(sep, 1)[-1]`: the text after the first occurrence of
   * `sep`, or the whole of `s` when `sep` does not occur. Python refuses an
   * empty separator.
   */
  function AfterFirst(s: string, sep: string): (r: string)
    requires sep != ""
    ensures |r| <= |s| && r == s[|s| - |r|..]
    ensures !Contains(s, sep) ==> r == s
    ensures Contains(s, sep) ==>
      exists i: nat :: OccursAt(s, sep, i) && (forall j: nat :: j < i ==> !OccursAt(s, sep, j)) && s == s[..i] + sep + r
  {
    match Find(s, sep)
    case None => s
    case Some(i) =>
      assert s == s[..i] + sep + s[i + |sep|..];
      assert OccursAt(s, sep, i) && forall j: nat :: j < i ==> !OccursAt(s, sep, j);
      s[i + |sep|..]
  }

  /** Once a string holds `sep`, the text split off after it keeps growing with whatever is appended. */
  lemma AfterFirstExtend(s: string, rest: string, sep: string, i: nat)
    requires sep != "" && Find(s, sep) == Some(i)
    ensures AfterFirst(s + rest, sep) == s[i + |sep|..] + rest
  {
    FindExtend(s, rest, sep);
    assert (s + rest)[i + |sep|..] == s[i + |sep|..] + rest;
  }

  /** Python's `sep.join(parts)`. */
  function Join(parts: seq<string>, sep: string): (r: string)
    ensures parts != [] ==> parts[0] <= r
  {
    if parts == [] then ""
    else if |parts| == 1 then parts[0]
    else parts[0] + sep + Join(parts[1..], sep)
  }

  /** Joining one more part appends the separator and that part. */
  lemma {:induction false} JoinSnoc(parts: seq<string>, part: string, sep: string)
    requires parts != []
    ensures Join(parts + [part], sep) == Join(parts, sep) + sep + part
  {
    if |parts| == 1 {
      assert (parts + [part])[1..] == [part];
    } else {
      assert (parts + [part])[1..] == parts[1..] + [part];
      JoinSnoc(parts[1..], part, sep);
    }
  }
}
