/** The string functions of Go's standard library that the modelled code leans on. A string is a
    sequence of code points. */
module Text {

  /** unicode.IsSpace. */
  predicate IsSpace(c: char) {
    c in "\t\n\U{0B}\U{0C}\r \U{85}\U{A0}\U{1680}\U{2028}\U{2029}\U{202F}\U{205F}\U{3000}"
      || '\U{2000}' <= c <= '\U{200A}'
  }

  function TrimLeft(s: string): string {
    if s != "" && IsSpace(s[0]) then TrimLeft(s[1..]) else s
  }

  function TrimRight(s: string): string {
    if s != "" && IsSpace(s[|s| - 1]) then TrimRight(s[..|s| - 1]) else s
  }

  function TrimSpace(s: string): string {
    TrimRight(TrimLeft(s))
  }

  /** At place i of s there is t, and all around it is white space. */
  ghost predicate InSpace(s: string, i: nat, t: string) {
    && i + |t| <= |s| && s[i..i + |t|] == t
    && forall k | 0 <= k < i || i + |t| <= k < |s| :: IsSpace(s[k])
  }

  /** Trimming takes away the white space at either end and nothing else. */
  lemma TrimSpaceIs(s: string)
    ensures var t := TrimSpace(s); t == "" || !(IsSpace(t[0]) || IsSpace(t[|t| - 1]))
    ensures exists i: nat :: InSpace(s, i, TrimSpace(s))
  {
    var left, t := TrimLeft(s), TrimSpace(s);
    TrimLeftIs(s);
    TrimRightIs(left);
    var i := |s| - |left|;
    assert s[i..][..|t|] == s[i..i + |t|];
    forall k | i + |t| <= k < |s| ensures IsSpace(s[k]) {
      assert s[k] == left[k - i];
    }
    assert InSpace(s, i, t);
  }

  lemma {:induction false} TrimLeftIs(s: string)
    ensures var t := TrimLeft(s);
            && |t| <= |s| && s[|s| - |t|..] == t
            && (t != "" ==> !IsSpace(t[0]))
            && forall k | 0 <= k < |s| - |t| :: IsSpace(s[k])
  {
    if s != "" && IsSpace(s[0]) {
      TrimLeftIs(s[1..]);
      assert forall k | 0 < k < |s| :: s[k] == s[1..][k - 1];
    }
  }

  lemma {:induction false} TrimRightIs(s: string)
    ensures var t := TrimRight(s);
            && |t| <= |s| && s[..|t|] == t
            && (t != "" ==> !IsSpace(t[|t| - 1]) && t[0] == s[0])
            && forall k | |t| <= k < |s| :: IsSpace(s[k])
  {
    if s != "" && IsSpace(s[|s| - 1]) {
      var init := s[..|s| - 1];
      TrimRightIs(init);
      var t := TrimRight(s);
      assert s[..|t|] == init[..|t|];
      forall k | |t| <= k < |s| ensures IsSpace(s[k]) {
        assert k < |s| - 1 ==> s[k] == init[k];
      }
    }
  }

  /** strings.Trim(s, c) for one character. */
  function Trim(s: string, c: char): string {
    if s != "" && s[0] == c then Trim(s[1..], c)
    else if s != "" && s[|s| - 1] == c then Trim(s[..|s| - 1], c)
    else s
  }

  /** At place i of s there is t, and all around it is c. */
  ghost predicate Within(s: string, i: nat, t: string, c: char) {
    && i + |t| <= |s| && s[i..i + |t|] == t
    && forall k | 0 <= k < i || i + |t| <= k < |s| :: s[k] == c
  }

  /** t is what is left of s without the c's at either end. */
  ghost predicate IsTrimmed(s: string, t: string, c: char) {
    && (t == "" || (t[0] != c && t[|t| - 1] != c))
    && exists i: nat :: Within(s, i, t, c)
  }

  lemma {:induction false} TrimIs(s: string, c: char)
    ensures IsTrimmed(s, Trim(s, c), c)
  {
    if s != "" && s[0] == c {
      TrimIs(s[1..], c);
      var i: nat :| Within(s[1..], i, Trim(s, c), c);
      OneBefore(s, i, Trim(s, c), c);
    } else if s != "" && s[|s| - 1] == c {
      TrimIs(s[..|s| - 1], c);
      var i: nat :| Within(s[..|s| - 1], i, Trim(s, c), c);
      OneBehind(s, i, Trim(s, c), c);
    } else {
      assert s[0..|s|] == s;
      assert Within(s, 0, s, c);
    }
  }

  lemma OneBefore(s: string, i: nat, t: string, c: char)
    requires s != "" && s[0] == c && Within(s[1..], i, t, c)
    ensures Within(s, i + 1, t, c)
  {
    assert s[1..][i..i + |t|] == s[i + 1..i + 1 + |t|];
    assert forall k | 0 < k < |s| :: s[k] == s[1..][k - 1];
  }

  lemma OneBehind(s: string, i: nat, t: string, c: char)
    requires s != "" && s[|s| - 1] == c && Within(s[..|s| - 1], i, t, c)
    ensures Within(s, i, t, c)
  {
    assert s[..|s| - 1][i..i + |t|] == s[i..i + |t|];
    assert forall k | 0 <= k < |s| - 1 :: s[k] == s[..|s| - 1][k];
  }

  lemma TrimmedIsUnique(s: string, a: string, b: string, c: char)
    requires IsTrimmed(s, a, c) && IsTrimmed(s, b, c) && a != ""
    ensures a == b
  {
    var i: nat :| Within(s, i, a, c);
    var j: nat :| Within(s, j, b, c);
    assert s[i] == a[0] && s[i + |a| - 1] == a[|a| - 1];
    assert j <= i && i + |a| <= j + |b|;
    assert s[j] == b[0] && s[j + |b| - 1] == b[|b| - 1];
  }

  /** Trimming takes away the c's at either end and nothing else. */
  lemma TrimIff(s: string, t: string, c: char)
    ensures Trim(s, c) == t <==> IsTrimmed(s, t, c)
  {
    TrimIs(s, c);
    if IsTrimmed(s, t, c) {
      if t != "" {
        TrimmedIsUnique(s, t, Trim(s, c), c);
      } else if Trim(s, c) != "" {
        TrimmedIsUnique(s, Trim(s, c), t, c);
      }
    }
  }

  /** strings.TrimSuffix(s, "."). */
  function TrimOneDot(s: string): string {
    if s != "" && s[|s| - 1] == '.' then s[..|s| - 1] else s
  }

  /** strings.ToLower on the letters A to Z. */
  function Lower(c: char): char {
    if 'A' <= c <= 'Z' then c - 'A' + 'a' else c
  }

  function ToLower(s: string): string {
    seq(|s|, i requires 0 <= i < |s| => Lower(s[i]))
  }

  predicate Spaceless(s: string) {
    forall c | c in s :: !IsSpace(c)
  }

  lemma {:induction false} TrimSpacelessIsIdentity(s: string)
    requires Spaceless(s)
    ensures TrimSpace(s) == s
  {
    assert s != "" ==> s[0] in s && s[|s| - 1] in s;
  }

  /** Two characters are the same letter, in whichever case, or the same character. */
  predicate SameLetter(c: char, d: char) {
    || c == d
    || ('a' <= c <= 'z' && c as int - d as int == 32)
    || ('a' <= d <= 'z' && d as int - c as int == 32)
  }

  predicate SameUpToCase(s: string, t: string) {
    |s| == |t| && forall i | 0 <= i < |s| :: SameLetter(s[i], t[i])
  }

  lemma LowerIs(c: char, d: char)
    ensures Lower(c) == Lower(d) <==> SameLetter(c, d)
    ensures !('A' <= Lower(c) <= 'Z') && SameLetter(c, Lower(c))
  {
  }

  /** Lower case is what strings have in common that differ in case alone. */
  lemma ToLowerIs(s: string, t: string)
    ensures ToLower(s) == ToLower(t) <==> SameUpToCase(s, t)
    ensures SameUpToCase(s, ToLower(s)) && forall c | c in ToLower(s) :: !('A' <= c <= 'Z')
  {
    forall i | 0 <= i < |s| && i < |t| ensures ToLower(s)[i] == ToLower(t)[i] <==> SameLetter(s[i], t[i]) {
      LowerIs(s[i], t[i]);
    }
    forall i | 0 <= i < |s| ensures SameLetter(s[i], ToLower(s)[i]) && !('A' <= ToLower(s)[i] <= 'Z') {
      LowerIs(s[i], s[i]);
    }
    if ToLower(s) == ToLower(t) {
      assert |ToLower(s)| == |s| && |ToLower(t)| == |t|;
    }
  }

  lemma {:induction false} TrimLeftLower(s: string)
    ensures TrimLeft(ToLower(s)) == ToLower(TrimLeft(s))
  {
    if s != "" {
      LowerKeepsSpaces(s[0]);
      TrimLeftLower(s[1..]);
      assert ToLower(s)[1..] == ToLower(s[1..]);
    }
  }

  lemma {:induction false} TrimRightLower(s: string)
    ensures TrimRight(ToLower(s)) == ToLower(TrimRight(s))
  {
    if s != "" {
      LowerKeepsSpaces(s[|s| - 1]);
      TrimRightLower(s[..|s| - 1]);
      assert ToLower(s)[..|s| - 1] == ToLower(s[..|s| - 1]);
    }
  }

  lemma TrimSpaceLower(s: string)
    ensures TrimSpace(ToLower(s)) == ToLower(TrimSpace(s))
  {
    TrimLeftLower(s);
    TrimRightLower(TrimLeft(s));
  }

  lemma LowerKeepsSpaces(c: char)
    ensures IsSpace(Lower(c)) <==> IsSpace(c)
    ensures Lower(Lower(c)) == Lower(c)
    ensures Lower(c) == '.' <==> c == '.'
  {
  }
}
