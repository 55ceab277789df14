/** `String.prototype.trim()`: removes leading and trailing white space, where
    white space is the ECMAScript WhiteSpace and LineTerminator characters. */
module JsTrim {

  /** TAB, VT, FF, SP, NBSP, ZWNBSP, the space separators (Zs) and the four line terminators. */
  predicate IsWhiteSpace(c: char)
  {
    || c == '\t' || c == '\n' || c == '\U{000B}' || c == '\U{000C}' || c == '\r'
    || c == ' ' || c == '\U{00A0}' || c == '\U{1680}'
    || ('\U{2000}' <= c <= '\U{200A}')
    || c == '\U{2028}' || c == '\U{2029}' || c == '\U{202F}' || c == '\U{205F}'
    || c == '\U{3000}' || c == '\U{FEFF}'
  }

  /** Every character of `s` from position `lo` up to (not including) `hi` is white space. */
  ghost predicate WhiteSpaceBetween(s: string, lo: nat, hi: nat)
    requires lo <= hi <= |s|
  {
    forall i :: lo <= i < hi ==> IsWhiteSpace(s[i])
  }

  /** Drops the leading white space: what is left is a suffix of `s` that does
      not start with white space, and everything dropped is white space. */
  function TrimStart(s: string): (r: string)
    ensures |r| <= |s| && r == s[|s| - |r|..]
    ensures WhiteSpaceBetween(s, 0, |s| - |r|)
    ensures r != [] ==> !IsWhiteSpace(r[0])
  {
    if s != [] && IsWhiteSpace(s[0]) then
      var t := TrimStart(s[1..]);
      assert forall i :: 1 <= i < |s| - |t| ==> s[i] == s[1..][i - 1];
      t
    else s
  }

  /** Drops the trailing white space: what is left is a prefix of `s` that does
      not end with white space, and everything dropped is white space. */
  function TrimEnd(s: string): (r: string)
    ensures |r| <= |s| && r == s[..|r|]
    ensures WhiteSpaceBetween(s, |r|, |s|)
    ensures r != [] ==> !IsWhiteSpace(r[|r| - 1])
  {
    if s != [] && IsWhiteSpace(s[|s| - 1]) then
      var t := TrimEnd(s[..|s| - 1]);
      assert forall i :: |t| <= i < |s| - 1 ==> s[i] == s[..|s| - 1][i];
      t
    else s
  }

  function Trim(s: string): (r: string)
    ensures |r| <= |s|
    ensures r != [] ==> !IsWhiteSpace(r[0]) && !IsWhiteSpace(r[|r| - 1])
  {
    TrimEnd(TrimStart(s))
  }

  /** The trimmed string is the infix of `s` that is left once the leading and
      trailing white space are cut off: `k` characters in front, those from `j` on. */
  lemma {:induction false} TrimIsInfix(s: string)
    ensures var k := |s| - |TrimStart(s)|; var j := k + |Trim(s)|;
      && j <= |s|
      && Trim(s) == s[k..j]
      && WhiteSpaceBetween(s, 0, k) && WhiteSpaceBetween(s, j, |s|)
  {
    var t := TrimStart(s);
    var k := |s| - |t|;
    var j := k + |Trim(s)|;
    assert t == s[k..];
    forall i | j <= i < |s|
      ensures IsWhiteSpace(s[i])
    {
      assert s[i] == t[i - k];
    }
  }

  /** A string trims to "" exactly when it consists of white space only. */
  lemma {:induction false} TrimBlank(s: string)
    ensures Trim(s) == [] <==> WhiteSpaceBetween(s, 0, |s|)
  {
    var t := TrimStart(s);
    if Trim(s) != [] {
      assert t[0] == s[|s| - |t|];
    }
  }

  /** A leading white-space character makes no difference to the trimmed string. */
  lemma {:induction false} TrimDropsLeadingWhiteSpace(s: string)
    requires s != [] && IsWhiteSpace(s[0])
    ensures Trim(s) == Trim(s[1..])
  {
  }

  /** Trimming a string that neither starts nor ends with white space changes nothing. */
  lemma {:induction false} TrimUnpadded(s: string)
    requires s != [] ==> !IsWhiteSpace(s[0]) && !IsWhiteSpace(s[|s| - 1])
    ensures Trim(s) == s
  {
  }

  lemma {:induction false} TrimIdempotent(s: string)
    ensures Trim(Trim(s)) == Trim(s)
  {
    TrimUnpadded(Trim(s));
  }
}
