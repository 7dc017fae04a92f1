/** The vortex colour both galaxy grids derive from a galaxy's Tailwind gradient:
    the first capture of `/from-(\w+-\d+)/`, or "blue-500" when nothing matches
    (`app/page.tsx` and `app/universe/page.tsx`). The regular expression is written
    out as a left-to-right search. */
module VortexColor {
  import opened Seqs
  import opened Text

  const Fallback: string := "blue-500"

  /** The number of word characters starting at `i`. */
  function WordRun(s: string, i: nat): (n: nat)
    requires i <= |s|
    ensures i + n <= |s|
    ensures forall j :: i <= j < i + n ==> IsWordChar(s[j])
    ensures i + n < |s| ==> !IsWordChar(s[i + n])
    decreases |s| - i
  {
    if i < |s| && IsWordChar(s[i]) then 1 + WordRun(s, i + 1) else 0
  }

  /** The number of digits starting at `i`. */
  function DigitRun(s: string, i: nat): (n: nat)
    requires i <= |s|
    ensures i + n <= |s|
    ensures forall j :: i <= j < i + n ==> IsDigit(s[j])
    ensures i + n < |s| ==> !IsDigit(s[i + n])
    decreases |s| - i
  {
    if i < |s| && IsDigit(s[i]) then 1 + DigitRun(s, i + 1) else 0
  }

  /** A capture of `\w+-\d+`: a non-empty word, a dash, a non-empty number. */
  predicate IsToken(t: string)
  {
    exists w :: 0 < w < |t| - 1 && t[w] == '-' &&
      (forall j :: 0 <= j < w ==> IsWordChar(t[j])) &&
      (forall j :: w < j < |t| ==> IsDigit(t[j]))
  }

  /** The capture of a match starting at `k`, if one does. `\w+` cannot give back a
      character to let `-` match, since `-` is not a word character, so its run is
      maximal; `\d+` then takes every digit. */
  function MatchAt(s: string, k: nat): Option<string>
    requires k <= |s|
  {
    if k + 5 <= |s| && s[k..k + 5] == "from-" then
      var w := WordRun(s, k + 5);
      var dash := k + 5 + w;
      if w > 0 && dash < |s| && s[dash] == '-' then
        var d := DigitRun(s, dash + 1);
        if d > 0 then Some(s[k + 5..dash + 1 + d]) else None
      else None
    else None
  }

  /** A match is a `\w+-\d+` token, and `from-` followed by it occurs where the match starts. */
  lemma MatchAtMeaning(s: string, k: nat)
    requires k <= |s|
    ensures MatchAt(s, k).Some? ==> IsToken(MatchAt(s, k).value) && OccursAt(s, "from-" + MatchAt(s, k).value, k)
  {
    if MatchAt(s, k).Some? {
      var w := WordRun(s, k + 5);
      var dash := k + 5 + w;
      var d := DigitRun(s, dash + 1);
      var t := s[k + 5..dash + 1 + d];
      assert t == MatchAt(s, k).value;
      assert t[w] == '-';
      assert forall j :: 0 <= j < w ==> t[j] == s[k + 5 + j];
      assert forall j :: w < j < |t| ==> t[j] == s[k + 5 + j];
      assert s[k..k + 5 + |t|] == "from-" + t by {
        assert s[k..k + 5 + |t|] == s[k..k + 5] + s[k + 5..k + 5 + |t|];
      }
    }
  }

  /** The leftmost match at or after `k`. */
  function FirstMatch(s: string, k: nat): Option<string>
    requires k <= |s|
    decreases |s| - k
  {
    if MatchAt(s, k).Some? then MatchAt(s, k)
    else if k == |s| then None
    else FirstMatch(s, k + 1)
  }

  /** The search finds nothing exactly when no position matches, and otherwise gives the
      capture of a matching position before which none matches. */
  lemma {:induction false} FirstMatchMeaning(s: string, k: nat)
    requires k <= |s|
    ensures FirstMatch(s, k).None? <==> forall j :: k <= j <= |s| ==> MatchAt(s, j).None?
    ensures FirstMatch(s, k).Some? ==> IsToken(FirstMatch(s, k).value)
    ensures FirstMatch(s, k).Some? ==>
      exists j :: k <= j <= |s| && MatchAt(s, j) == FirstMatch(s, k) && OccursAt(s, "from-" + FirstMatch(s, k).value, j) &&
        forall i :: k <= i < j ==> MatchAt(s, i).None?
    decreases |s| - k
  {
    var here := MatchAt(s, k);
    if here.Some? {
      MatchAtMeaning(s, k);
      assert MatchAt(s, k) == FirstMatch(s, k);
    } else if k < |s| {
      FirstMatchMeaning(s, k + 1);
      assert FirstMatch(s, k) == FirstMatch(s, k + 1);
      if FirstMatch(s, k).Some? {
        var j :| k + 1 <= j <= |s| && MatchAt(s, j) == FirstMatch(s, k + 1) &&
          OccursAt(s, "from-" + FirstMatch(s, k + 1).value, j) && forall i :: k + 1 <= i < j ==> MatchAt(s, i).None?;
        assert forall i :: k <= i < j ==> MatchAt(s, i).None?;
      }
    }
  }

  /** `color.match(/from-(\w+-\d+)/)?.[1] || "blue-500"`: a capture is never empty, so
      the fallback is taken exactly when nothing matches, and otherwise the colour is
      the capture of the leftmost match: no match starts earlier. */
  function Vortex(color: string): (c: string)
    ensures (forall j :: 0 <= j <= |color| ==> MatchAt(color, j).None?) ==> c == Fallback
    ensures (exists j :: 0 <= j <= |color| && MatchAt(color, j).Some?) ==>
      IsToken(c) &&
      (exists j :: 0 <= j <= |color| && OccursAt(color, "from-" + c, j) &&
         MatchAt(color, j) == Some(c) && forall i :: 0 <= i < j ==> MatchAt(color, i).None?)
  {
    FirstMatchMeaning(color, 0);
    match FirstMatch(color, 0)
    case None => Fallback
    case Some(t) => t
  }

  lemma {:induction false} WordRunOf(s: string, i: nat, n: nat)
    requires i + n <= |s|
    requires forall j :: i <= j < i + n ==> IsWordChar(s[j])
    requires i + n == |s| || !IsWordChar(s[i + n])
    ensures WordRun(s, i) == n
    decreases n
  {
    if n > 0 {
      WordRunOf(s, i + 1, n - 1);
    }
  }

  lemma {:induction false} DigitRunOf(s: string, i: nat, n: nat)
    requires i + n <= |s|
    requires forall j :: i <= j < i + n ==> IsDigit(s[j])
    requires i + n == |s| || !IsDigit(s[i + n])
    ensures DigitRun(s, i) == n
    decreases n
  {
    if n > 0 {
      DigitRunOf(s, i + 1, n - 1);
    }
  }

  /** A gradient that opens with `from-<word>-<number>` gives that colour, whatever follows
      the number, as long as it does not continue the number. */
  lemma LeadingColour(word: string, number: string, rest: string)
    requires word != [] && forall j :: 0 <= j < |word| ==> IsWordChar(word[j])
    requires number != [] && AllDigits(number)
    requires rest == [] || !IsDigit(rest[0])
    ensures Vortex("from-" + word + "-" + number + rest) == word + "-" + number
  {
    LeadingMatch(word, number, rest);
  }

  lemma LeadingMatch(word: string, number: string, rest: string)
    requires word != [] && forall j :: 0 <= j < |word| ==> IsWordChar(word[j])
    requires number != [] && AllDigits(number)
    requires rest == [] || !IsDigit(rest[0])
    ensures MatchAt("from-" + word + "-" + number + rest, 0) == Some(word + "-" + number)
  {
    var token := word + "-" + number;
    var s := "from-" + token + rest;
    assert s == "from-" + word + "-" + number + rest;
    var w := |word|;
    var d := |number|;
    assert s[..5] == "from-";
    assert s[5..5 + |token|] == token;
    assert forall j :: 5 <= j < 5 + w ==> s[j] == token[j - 5] == word[j - 5];
    assert forall j :: 6 + w <= j < 6 + w + d ==> s[j] == token[j - 5] == number[j - 6 - w];
    assert 6 + w + d == |s| || s[6 + w + d] == rest[0];
    MatchAtOf(s, 0, w, d);
  }

  /** The match at `k` when `from-`, a word of `w` characters, a dash and a number of
      `d` digits start there. */
  lemma MatchAtOf(s: string, k: nat, w: nat, d: nat)
    requires k + 6 + w + d <= |s| && s[k..k + 5] == "from-"
    requires w > 0 && forall j :: k + 5 <= j < k + 5 + w ==> IsWordChar(s[j])
    requires s[k + 5 + w] == '-'
    requires d > 0 && forall j :: k + 6 + w <= j < k + 6 + w + d ==> IsDigit(s[j])
    requires k + 6 + w + d == |s| || !IsDigit(s[k + 6 + w + d])
    ensures MatchAt(s, k) == Some(s[k + 5..k + 6 + w + d])
  {
    WordRunOf(s, k + 5, w);
    DigitRunOf(s, k + 6 + w, d);
  }
}
