/**
 * `String.prototype.replace` with a string pattern and a string replacement, as
 * section 22.1.3.19 of ECMA-262 defines it: only the FIRST occurrence is
 * replaced, and the replacement goes through GetSubstitution, which gives
 * `$$`, `$&`, `` $` `` and `$'` a meaning of their own.
 */
module Template {
  import opened Wrappers

  predicate MatchesAt(s: string, pat: string, i: nat) {
    i + |pat| <= |s| && s[i..i + |pat|] == pat
  }

  /** StringIndexOf(s, pat, from): the first position at or after `from` where `pat` occurs. */
  function IndexOfFrom(s: string, pat: string, from: nat): (r: Option<nat>)
    decreases |s| - from
    ensures r.Some? ==> from <= r.value && MatchesAt(s, pat, r.value)
    ensures r.Some? ==> forall i :: from <= i < r.value ==> !MatchesAt(s, pat, i)
    ensures r.None? ==> forall i :: from <= i ==> !MatchesAt(s, pat, i)
  {
    if from + |pat| > |s| then None
    else if s[from..from + |pat|] == pat then Some(from)
    else IndexOfFrom(s, pat, from + 1)
  }

  function IndexOf(s: string, pat: string): Option<nat> {
    IndexOfFrom(s, pat, 0)
  }

  /**
   * GetSubstitution for a match without capture groups: `$$` is `$`, `$&` the
   * matched text, `` $` `` the text before it, `$'` the text after it; every
   * other `$` (including `$1` and `$<`) stands for itself.
   */
  function Substitute(t: string, matched: string, before: string, after: string): string
    decreases |t|
  {
    if t == [] then ""
    else if t[0] == '$' && |t| >= 2 && t[1] == '$' then "$" + Substitute(t[2..], matched, before, after)
    else if t[0] == '$' && |t| >= 2 && t[1] == '&' then matched + Substitute(t[2..], matched, before, after)
    else if t[0] == '$' && |t| >= 2 && t[1] == '`' then before + Substitute(t[2..], matched, before, after)
    else if t[0] == '$' && |t| >= 2 && t[1] == '\'' then after + Substitute(t[2..], matched, before, after)
    else [t[0]] + Substitute(t[1..], matched, before, after)
  }

  /** `s.replace(pat, rep)`. */
  function ReplaceFirst(s: string, pat: string, rep: string): string {
    match IndexOf(s, pat)
    case None => s
    case Some(p) =>
      s[..p] + Substitute(rep, pat, s[..p], s[p + |pat|..]) + s[p + |pat|..]
  }

  /** The number of positions at which `pat` occurs in `s`. */
  function Count(s: string, pat: string): nat
    requires |pat| > 0
    decreases |s|
  {
    if |s| < |pat| then 0
    else (if s[..|pat|] == pat then 1 else 0) + Count(s[1..], pat)
  }

  /** A replacement without `$` is inserted literally. */
  lemma {:induction false} SubstituteLiteral(t: string, matched: string, before: string, after: string)
    requires '$' !in t
    ensures Substitute(t, matched, before, after) == t
  {
    if t != [] {
      SubstituteLiteral(t[1..], matched, before, after);
      assert [t[0]] + t[1..] == t;
    }
  }

  /** With no `$` in the replacement, `replace` puts it in place of the first occurrence and keeps the rest. */
  lemma ReplaceFirstLiteral(s: string, pat: string, rep: string, p: nat)
    requires IndexOf(s, pat) == Some(p)
    requires '$' !in rep
    ensures p + |pat| <= |s|
    ensures ReplaceFirst(s, pat, rep) == s[..p] + rep + s[p + |pat|..]
  {
    SubstituteLiteral(rep, pat, s[..p], s[p + |pat|..]);
  }

  /** A pattern whose first character is absent from `s` does not occur in it. */
  lemma {:induction false} CountAbsentHead(s: string, pat: string)
    requires |pat| > 0 && pat[0] !in s
    ensures Count(s, pat) == 0
  {
    if |s| >= |pat| {
      assert s[..|pat|][0] == s[0];
      CountAbsentHead(s[1..], pat);
    }
  }

  /**
   * A string made of a prefix, the pattern and a suffix, where the pattern's
   * first character occurs nowhere else, holds the pattern exactly once, and
   * `IndexOf` finds it right after the prefix.
   */
  lemma {:induction false} SinglePlaceholder(before: string, pat: string, after: string)
    requires |pat| > 0
    requires pat[0] !in before && pat[0] !in pat[1..] && pat[0] !in after
    ensures IndexOf(before + pat + after, pat) == Some(|before|)
    ensures Count(before + pat + after, pat) == 1
  {
    var s := before + pat + after;
    assert MatchesAt(s, pat, |before|) by {
      assert s[|before|..|before| + |pat|] == pat;
    }
    forall i | 0 <= i < |before|
      ensures !MatchesAt(s, pat, i)
    {
      assert s[i] == before[i];
    }
    CountAfterPrefix(before, pat, after);
  }

  lemma {:induction false} CountAfterPrefix(before: string, pat: string, after: string)
    requires |pat| > 0
    requires pat[0] !in before && pat[0] !in pat[1..] && pat[0] !in after
    ensures Count(before + pat + after, pat) == 1
  {
    var s := before + pat + after;
    if before == [] {
      assert s[..|pat|] == pat;
      assert s[1..] == pat[1..] + after;
      CountAbsentHead(pat[1..] + after, pat);
    } else {
      assert s[..|pat|][0] == before[0];
      assert s[1..] == before[1..] + pat + after;
      CountAfterPrefix(before[1..], pat, after);
    }
  }
}
