/** Python string operations used by the tracker: strip, upper/lower, split and join. */
module Text {

  /** Python's str.isspace() for one character: exactly the characters str.strip() removes. */
  predicate IsSpace(c: char) {
    c == ' ' || ('\t' <= c <= '\r') || ('\U{1c}' <= c <= '\U{1f}')
    || c == '\U{85}' || c == '\U{a0}' || c == '\U{1680}' || ('\U{2000}' <= c <= '\U{200a}')
    || c == '\U{2028}' || c == '\U{2029}' || c == '\U{202f}' || c == '\U{205f}' || c == '\U{3000}'
  }

  /** The number of whitespace characters s starts with: what str.lstrip() removes. */
  function Leading(s: string): (n: nat)
    ensures n <= |s|
    ensures forall i :: 0 <= i < n ==> IsSpace(s[i])
    ensures n < |s| ==> !IsSpace(s[n])
  {
    if s != [] && IsSpace(s[0]) then 1 + Leading(s[1..]) else 0
  }

  /** The number of whitespace characters s ends with: what str.rstrip() removes. */
  function Trailing(s: string): (n: nat)
    ensures n <= |s|
    ensures forall i :: |s| - n <= i < |s| ==> IsSpace(s[i])
    ensures n < |s| ==> !IsSpace(s[|s| - n - 1])
  {
    if s != [] && IsSpace(s[|s| - 1]) then 1 + Trailing(s[..|s| - 1]) else 0
  }

  /** Neither end of s is whitespace. */
  predicate Trimmed(s: string) {
    s == [] || (!IsSpace(s[0]) && !IsSpace(s[|s| - 1]))
  }

  /**
   * Python's str.strip() with no argument: the stretch of s that starts after its leading whitespace
   * and has only whitespace after it, with no whitespace at either end.
   */
  function Strip(s: string): (r: string)
    ensures Trimmed(r)
    ensures r == [] <==> forall i :: 0 <= i < |s| ==> IsSpace(s[i])
    ensures Leading(s) + |r| <= |s| && r == s[Leading(s)..Leading(s) + |r|]
    ensures forall j :: 0 <= j < |s| && (j < Leading(s) || Leading(s) + |r| <= j) ==> IsSpace(s[j])
  {
    var a := Leading(s);
    if a == |s| then []
    else
      var b := Trailing(s);
      // s[a] is not whitespace, so the whitespace at the end starts after it
      assert a < |s| - b;
      s[a..|s| - b]
  }

  /** A string whose ends are not whitespace is left as it is by Strip. */
  lemma StripTrimmed(s: string)
    requires Trimmed(s)
    ensures Strip(s) == s
  {
  }

  /** One leading space in front of a trimmed, non-empty string is exactly what Strip removes. */
  /** A trimmed stretch of s with only whitespace outside it is s.strip(). */
  lemma StripUnique(s: string, r: string, a: nat)
    requires Trimmed(r) && a + |r| <= |s| && r == s[a..a + |r|]
    requires forall j :: 0 <= j < |s| && (j < a || a + |r| <= j) ==> IsSpace(s[j])
    ensures Strip(s) == r
  {
    var t := Strip(s);
    var n := Leading(s);
    if r == [] {
      assert forall i :: 0 <= i < |s| ==> IsSpace(s[i]);
    } else {
      assert s[a] == r[0] && s[a + |r| - 1] == r[|r| - 1];
      assert n == a;
      assert t != [];
      assert s[n + |t| - 1] == t[|t| - 1];
      assert |t| == |r|;
    }
  }

  /** Whitespace at the front of s is dropped by strip(). */
  lemma StripDropFirst(s: string)
    requires s != [] && IsSpace(s[0])
    ensures Strip(s[1..]) == Strip(s)
  {
    var u := s[1..];
    var r := Strip(u);
    var a := Leading(u);
    assert r == s[a + 1..a + 1 + |r|];
    forall j | 0 <= j < |s| && (j < a + 1 || a + 1 + |r| <= j) ensures IsSpace(s[j]) {
      if j > 0 { assert s[j] == u[j - 1]; }
    }
    StripUnique(s, r, a + 1);
  }

  /** Whitespace at the end of s is dropped by strip(). */
  lemma StripDropLast(s: string)
    requires s != [] && IsSpace(s[|s| - 1])
    ensures Strip(s[..|s| - 1]) == Strip(s)
  {
    var u := s[..|s| - 1];
    var r := Strip(u);
    var a := Leading(u);
    assert r == s[a..a + |r|];
    forall j | 0 <= j < |s| && (j < a || a + |r| <= j) ensures IsSpace(s[j]) {
      if j < |s| - 1 { assert s[j] == u[j]; }
    }
    StripUnique(s, r, a);
  }

  lemma StripSpaced(s: string)
    requires s != [] && Trimmed(s)
    ensures Strip(" " + s) == s
  {
    assert (" " + s)[1..] == s;
  }

  predicate IsLower(c: char) { 'a' <= c <= 'z' }
  predicate IsUpper(c: char) { 'A' <= c <= 'Z' }

  function UpperChar(c: char): (r: char)
    ensures IsSpace(r) == IsSpace(c) && (r == ',') == (c == ',')
    ensures !IsLower(r) && (!IsLower(c) ==> r == c)
  {
    if IsLower(c) then (c as int - 32) as char else c
  }

  function LowerChar(c: char): (r: char)
    ensures IsSpace(r) == IsSpace(c)
  {
    if IsUpper(c) then (c as int + 32) as char else c
  }

  /** str.upper(), for the ASCII letters. */
  function Upper(s: string): (r: string)
    ensures |r| == |s| && forall i :: 0 <= i < |s| ==> r[i] == UpperChar(s[i])
  {
    seq(|s|, i requires 0 <= i < |s| => UpperChar(s[i]))
  }

  /** str.lower(), for the ASCII letters. */
  function Lower(s: string): (r: string)
    ensures |r| == |s| && forall i :: 0 <= i < |s| ==> r[i] == LowerChar(s[i])
  {
    seq(|s|, i requires 0 <= i < |s| => LowerChar(s[i]))
  }

  /** Case mapping forgets the case the string was written in. */
  lemma CaseMappingsAbsorb(s: string)
    ensures Upper(Upper(s)) == Upper(s) && Upper(Lower(s)) == Upper(s)
    ensures Lower(Lower(s)) == Lower(s) && Lower(Upper(s)) == Lower(s)
  {
  }

  /** Python's s.split(sep) for a one-character separator: there is always at least one piece. */
  function Split(s: string, sep: char): (r: seq<string>)
    ensures |r| >= 1
    ensures forall k :: 0 <= k < |r| ==> sep !in r[k]
    decreases |s|
  {
    var i := IndexOf(s, sep);
    if i == |s| then [s] else [s[..i]] + Split(s[i + 1..], sep)
  }

  /** The first index of c in s, or |s| when c does not occur. */
  function IndexOf(s: string, c: char): (i: nat)
    ensures i <= |s| && c !in s[..i] && (i < |s| ==> s[i] == c)
  {
    if s == [] then 0
    else if s[0] == c then 0
    else
      var j := IndexOf(s[1..], c);
      assert s[..j + 1] == [s[0]] + s[1..][..j];
      j + 1
  }

  /** Python's `needle in s` for two strings: needle occurs in s as a contiguous substring. */
  predicate Occurs(needle: string, s: string)
    decreases |s|
  {
    |needle| <= |s| && (s[..|needle|] == needle || Occurs(needle, s[1..]))
  }

  /** Python's sep.join(pieces). */
  function Join(pieces: seq<string>, sep: string): string
  {
    if pieces == [] then ""
    else if |pieces| == 1 then pieces[0]
    else pieces[0] + sep + Join(pieces[1..], sep)
  }

  /** Split undoes Join when no piece contains the separator. */
  lemma {:induction false} SplitJoin(pieces: seq<string>, sep: char)
    requires |pieces| >= 1 && forall k :: 0 <= k < |pieces| ==> sep !in pieces[k]
    ensures Split(Join(pieces, [sep]), sep) == pieces
  {
    var p := pieces[0];
    if |pieces| == 1 {
      assert IndexOf(p, sep) == |p|;
    } else {
      var rest := Join(pieces[1..], [sep]);
      var s := p + [sep] + rest;
      assert s[..|p|] == p;
      assert IndexOf(s, sep) == |p| by {
        IndexOfAt(s, sep, |p|);
      }
      assert s[|p| + 1..] == rest;
      SplitJoin(pieces[1..], sep);
      assert pieces == [p] + pieces[1..];
    }
  }

  lemma IndexOfAt(s: string, c: char, i: nat)
    requires i < |s| && s[i] == c && c !in s[..i]
    ensures IndexOf(s, c) == i
  {
  }
}
