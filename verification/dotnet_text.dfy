/** The two properties of .NET strings the shortener's validation relies on:
    `string.IsNullOrWhiteSpace` and `string.Length`. A .NET string is a
    sequence of UTF-16 code units; here a string is a sequence of Unicode
    scalar values, and a possibly-null string is an `Option<string>`. */
module DotNetText {
  import opened Wrappers

  /** `char.IsWhiteSpace`: the space, line and paragraph separators of
      Unicode, plus U+0009 to U+000D and U+0085. Every one of them lies in
      the Basic Multilingual Plane, so testing scalar values is the same as
      testing UTF-16 code units. */
  predicate IsWhiteSpace(c: char)
    ensures IsWhiteSpace(c) ==> c as int < 0x1_0000
  {
    || '\U{0009}' <= c <= '\U{000D}'              // control characters TAB to CR
    || c == '\U{0085}'                            // NEXT LINE
    || c == ' ' || c == '\U{00A0}' || c == '\U{1680}' // space separators ...
    || '\U{2000}' <= c <= '\U{200A}'
    || c == '\U{202F}' || c == '\U{205F}' || c == '\U{3000}'
    || c == '\U{2028}'                            // LINE SEPARATOR
    || c == '\U{2029}'                            // PARAGRAPH SEPARATOR
  }

  /** `string.IsNullOrWhiteSpace(s)`: null, empty, or white space only. */
  predicate IsNullOrWhiteSpace(s: Option<string>)
    ensures s.None? || s.value == [] ==> IsNullOrWhiteSpace(s)
  {
    match s
    case None => true
    case Some(t) => forall i :: 0 <= i < |t| ==> IsWhiteSpace(t[i])
  }

  /** The 25 code points `char.IsWhiteSpace` accepts. */
  const WhiteSpaceChars: set<char> := {
    '\U{0009}', '\U{000A}', '\U{000B}', '\U{000C}', '\U{000D}', '\U{0085}',
    ' ', '\U{00A0}', '\U{1680}',
    '\U{2000}', '\U{2001}', '\U{2002}', '\U{2003}', '\U{2004}', '\U{2005}',
    '\U{2006}', '\U{2007}', '\U{2008}', '\U{2009}', '\U{200A}',
    '\U{202F}', '\U{205F}', '\U{3000}', '\U{2028}', '\U{2029}'}

  /** White space is exactly those 25 characters. */
  lemma WhiteSpaceIsListed(c: char)
    ensures IsWhiteSpace(c) <==> c in WhiteSpaceChars
  {
  }

  /** A text is blank exactly when both of its parts are. */
  lemma NullOrWhiteSpaceConcat(t: string, u: string)
    ensures IsNullOrWhiteSpace(Some(t + u)) <==> IsNullOrWhiteSpace(Some(t)) && IsNullOrWhiteSpace(Some(u))
  {
    if IsNullOrWhiteSpace(Some(t)) && IsNullOrWhiteSpace(Some(u)) {
      forall i | 0 <= i < |t + u|
        ensures IsWhiteSpace((t + u)[i])
      {
        if i >= |t| {
          assert (t + u)[i] == u[i - |t|];
        }
      }
    }
    if IsNullOrWhiteSpace(Some(t + u)) {
      forall i | 0 <= i < |t|
        ensures IsWhiteSpace(t[i])
      {
        assert (t + u)[i] == t[i];
      }
      forall i | 0 <= i < |u|
        ensures IsWhiteSpace(u[i])
      {
        assert (t + u)[|t| + i] == u[i];
      }
    }
  }

  /** `string.Length`: the number of UTF-16 code units, two for a character
      outside the Basic Multilingual Plane. */
  function Utf16Length(s: string): (n: nat)
    ensures |s| <= n <= 2 * |s|
  {
    if s == [] then 0
    else (if s[0] as int >= 0x1_0000 then 2 else 1) + Utf16Length(s[1..])
  }

  /** A string counts its characters once each in UTF-16 exactly when none
      of them lies outside the Basic Multilingual Plane. */
  lemma {:induction false} Utf16LengthBmp(s: string)
    ensures Utf16Length(s) == |s| <==> forall i :: 0 <= i < |s| ==> s[i] as int < 0x1_0000
  {
    if s != [] {
      Utf16LengthBmp(s[1..]);
      if s[0] as int < 0x1_0000 {
        assert forall i :: 1 <= i < |s| ==> s[i] == s[1..][i - 1];
      }
    }
  }
}
