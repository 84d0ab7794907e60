/** The string operations of the JavaScript runtime that the console relies on:
    `String.prototype.trim`, and the status label
    `status.replace(/_/g, " ").toUpperCase()` used by every status badge. */
module Text {

  /** The characters `trim` removes: ECMAScript WhiteSpace (TAB, VT, FF, ZWNBSP and
      every Unicode space separator) and LineTerminator (LF, CR, LS, PS). */
  predicate IsWhitespace(c: char) {
    || c == '\t' || c == '\n' || c == '\U{000B}' || c == '\U{000C}' || c == '\r'
    || c == ' ' || c == '\U{00A0}' || c == '\U{1680}'
    || ('\U{2000}' <= c <= '\U{200A}')
    || c == '\U{2028}' || c == '\U{2029}' || c == '\U{202F}' || c == '\U{205F}'
    || c == '\U{3000}' || c == '\U{FEFF}'
  }

  /** Every character of `s` is whitespace (true of the empty string). */
  predicate AllWhitespace(s: string) {
    forall i :: 0 <= i < |s| ==> IsWhitespace(s[i])
  }

  /** Drops leading whitespace; the result does not start with whitespace. */
  function TrimStart(s: string): (r: string)
    ensures |r| <= |s|
    ensures r != [] ==> !IsWhitespace(r[0])
    decreases |s|
  {
    if |s| > 0 && IsWhitespace(s[0]) then TrimStart(s[1..]) else s
  }

  /** Drops trailing whitespace; the result does not end with whitespace. */
  function TrimEnd(s: string): (r: string)
    ensures |r| <= |s|
    ensures r != [] ==> !IsWhitespace(r[|r| - 1])
    decreases |s|
  {
    if |s| > 0 && IsWhitespace(s[|s| - 1]) then TrimEnd(s[..|s| - 1]) else s
  }

  /** `TrimStart` keeps a suffix of `s` and drops only whitespace. */
  lemma {:induction false} TrimStartIsSuffix(s: string)
    ensures TrimStart(s) == s[|s| - |TrimStart(s)|..]
    ensures AllWhitespace(s[..|s| - |TrimStart(s)|])
    decreases |s|
  {
    if |s| > 0 && IsWhitespace(s[0]) {
      var t := s[1..];
      TrimStartIsSuffix(t);
      assert t[|t| - |TrimStart(t)|..] == s[|s| - |TrimStart(s)|..];
      var dropped := s[..|s| - |TrimStart(s)|];
      assert dropped == [s[0]] + t[..|t| - |TrimStart(t)|];
      assert forall i :: 1 <= i < |dropped| ==> dropped[i] == t[..|t| - |TrimStart(t)|][i - 1];
    }
  }

  /** `TrimEnd` keeps a prefix of `s` and drops only whitespace. */
  lemma {:induction false} TrimEndIsPrefix(s: string)
    ensures TrimEnd(s) == s[..|TrimEnd(s)|]
    ensures AllWhitespace(s[|TrimEnd(s)|..])
    decreases |s|
  {
    if |s| > 0 && IsWhitespace(s[|s| - 1]) {
      var t := s[..|s| - 1];
      TrimEndIsPrefix(t);
      assert t[..|TrimEnd(t)|] == s[..|TrimEnd(s)|];
      var dropped := s[|TrimEnd(s)|..];
      assert dropped == t[|TrimEnd(t)|..] + [s[|s| - 1]];
      assert forall i :: 0 <= i < |dropped| - 1 ==> dropped[i] == t[|TrimEnd(t)|..][i];
    }
  }

  /** `s.trim()`. */
  function Trim(s: string): (r: string)
    ensures |r| <= |s|
    ensures r != [] ==> !IsWhitespace(r[0]) && !IsWhitespace(r[|r| - 1])
  {
    TrimEndIsPrefix(TrimStart(s));
    TrimEnd(TrimStart(s))
  }

  /** A string of whitespace only is trimmed away entirely from the front. */
  lemma {:induction false} TrimStartAllWhitespace(s: string)
    requires AllWhitespace(s)
    ensures TrimStart(s) == []
    decreases |s|
  {
    if s != [] {
      assert IsWhitespace(s[0]);
      TrimStartAllWhitespace(s[1..]);
    }
  }

  /** `!s.trim()` holds exactly when every character of `s` is whitespace. */
  lemma {:induction false} TrimEmptyIffAllWhitespace(s: string)
    ensures Trim(s) == "" <==> AllWhitespace(s)
  {
    var t := TrimStart(s);
    TrimStartIsSuffix(s);
    TrimEndIsPrefix(t);
    if AllWhitespace(s) {
      TrimStartAllWhitespace(s);
    }
    if Trim(s) == "" {
      assert t[|TrimEnd(t)|..] == t;
      assert t == [];
      assert s[..|s|] == s;
    }
  }

  /** `trim` keeps the characters between the first and the last non-whitespace
      character: the result is the piece of `s` that starts where the leading
      whitespace ends. */
  lemma TrimIsInfix(s: string)
    ensures |s| - |TrimStart(s)| + |Trim(s)| <= |s|
    ensures Trim(s) == s[|s| - |TrimStart(s)|..|s| - |TrimStart(s)| + |Trim(s)|]
  {
    var t := TrimStart(s);
    var i := |s| - |t|;
    TrimStartIsSuffix(s);
    TrimEndIsPrefix(t);
    assert t == s[i..];
    assert Trim(s) == t[..|Trim(s)|];
  }

  /** A string that neither starts nor ends with whitespace is its own `trim`. */
  lemma TrimNoop(s: string)
    requires s != [] ==> !IsWhitespace(s[0]) && !IsWhitespace(s[|s| - 1])
    ensures Trim(s) == s
  {
    assert TrimStart(s) == s;
  }

  /** Trimming twice is trimming once. */
  lemma {:induction false} TrimIdempotent(s: string)
    ensures Trim(Trim(s)) == Trim(s)
  {
    TrimNoop(Trim(s));
  }

  /** The upper case of an ASCII letter; every other character is left as it is. */
  function UpperAscii(c: char): (u: char)
    ensures 'a' <= c <= 'z' ==> u as int == c as int - 32
    ensures !('a' <= c <= 'z') ==> u == c
  {
    if 'a' <= c <= 'z' then (c as int - 32) as char else c
  }

  /** `s.replace(/_/g, " ")`: every underscore becomes a space. */
  function ReplaceUnderscores(s: string): (r: string)
    ensures |r| == |s|
    ensures forall i :: 0 <= i < |s| ==> r[i] == (if s[i] == '_' then ' ' else s[i])
  {
    if s == [] then [] else [if s[0] == '_' then ' ' else s[0]] + ReplaceUnderscores(s[1..])
  }

  /** `s.toUpperCase()`, restricted to ASCII letters. */
  function ToUpperAscii(s: string): (r: string)
    ensures |r| == |s|
    ensures forall i :: 0 <= i < |s| ==> r[i] == UpperAscii(s[i])
  {
    if s == [] then [] else [UpperAscii(s[0])] + ToUpperAscii(s[1..])
  }

  /** The badge label of a status or of a history action:
      `status.replace(/_/g, " ").toUpperCase()`. */
  function StatusLabel(status: string): (r: string)
    ensures |r| == |status|
    ensures forall i :: 0 <= i < |r| ==> r[i] != '_' && !('a' <= r[i] <= 'z')
  {
    ToUpperAscii(ReplaceUnderscores(status))
  }

  /** Position by position, the label is a space where the status has an underscore
      and the upper-cased character elsewhere. */
  lemma LabelAt(status: string, i: nat)
    requires i < |status|
    ensures StatusLabel(status)[i] == if status[i] == '_' then ' ' else UpperAscii(status[i])
  {
  }

  /** Formatting a label again changes nothing. */
  lemma LabelIdempotent(status: string)
    ensures StatusLabel(StatusLabel(status)) == StatusLabel(status)
  {
    var l := StatusLabel(status);
    assert forall i :: 0 <= i < |l| ==> StatusLabel(l)[i] == l[i];
  }
}
