/**
 * The JavaScript string operations the form parser uses: `String.prototype.split` with a
 * one-character separator, `String.prototype.trim`, and the `split(sep).map(trim).filter(s => s)`
 * chain.
 */
module JsString {

  /** ECMAScript WhiteSpace and LineTerminator code points, the set `trim` removes. */
  predicate IsWhiteSpace(c: char) {
    c == '\t' || c == '\n' || c == '\U{000B}' || c == '\U{000C}' || c == '\r' || c == ' '
    || c == '\U{00A0}' || c == '\U{1680}' || ('\U{2000}' <= c <= '\U{200A}')
    || c == '\U{2028}' || c == '\U{2029}' || c == '\U{202F}' || c == '\U{205F}'
    || c == '\U{3000}' || c == '\U{FEFF}'
  }

  predicate AllWhiteSpace(s: string) {
    forall i :: 0 <= i < |s| ==> IsWhiteSpace(s[i])
  }

  /** The number of leading white-space characters. */
  function LeadingSpace(s: string): (n: nat)
    ensures n <= |s|
    ensures AllWhiteSpace(s[..n])
    ensures n < |s| ==> !IsWhiteSpace(s[n])
  {
    if s != [] && IsWhiteSpace(s[0]) then
      var n := 1 + LeadingSpace(s[1..]);
      assert s[..n] == [s[0]] + s[1..][..n - 1];
      n
    else 0
  }

  /** The number of trailing white-space characters. */
  function TrailingSpace(s: string): (n: nat)
    ensures n <= |s|
    ensures AllWhiteSpace(s[|s| - n..])
    ensures n < |s| ==> !IsWhiteSpace(s[|s| - n - 1])
  {
    if s != [] && IsWhiteSpace(s[|s| - 1]) then
      var n := 1 + TrailingSpace(s[..|s| - 1]);
      assert s[|s| - n..] == s[..|s| - 1][|s| - n..] + [s[|s| - 1]];
      n
    else 0
  }

  /** `s.trim()`: s without its leading and trailing white space. */
  function Trim(s: string): (t: string)
    ensures |t| <= |s|
  {
    var a := s[LeadingSpace(s)..];
    a[..|a| - TrailingSpace(a)]
  }

  /** Trim removes white space at both ends and nothing else. */
  lemma TrimSpec(s: string)
    ensures exists i, j ::
              0 <= i <= j <= |s| && Trim(s) == s[i..j] && AllWhiteSpace(s[..i]) && AllWhiteSpace(s[j..])
    ensures Trim(s) != [] ==> !IsWhiteSpace(Trim(s)[0]) && !IsWhiteSpace(Trim(s)[|Trim(s)| - 1])
  {
    var i := LeadingSpace(s);
    var a := s[i..];
    var j := i + |a| - TrailingSpace(a);
    assert Trim(s) == s[i..j];
    assert s[j..] == a[|a| - TrailingSpace(a)..];
  }

  /** A string trims to the empty string exactly when it is all white space. */
  lemma TrimEmpty(s: string)
    ensures Trim(s) == [] <==> AllWhiteSpace(s)
  {
    var i := LeadingSpace(s);
    if i < |s| {
      var a := s[i..];
      assert !IsWhiteSpace(a[0]);
      assert TrailingSpace(a) < |a|;
    }
  }

  /** `s.split(sep)`: the pieces between occurrences of sep; always at least one piece. */
  function Split(s: string, sep: char): (parts: seq<string>)
    ensures |parts| >= 1
    ensures forall i :: 0 <= i < |parts| ==> sep !in parts[i]
  {
    if s == [] then [""]
    else
      var rest := Split(s[1..], sep);
      if s[0] == sep then [""] + rest
      else [[s[0]] + rest[0]] + rest[1..]
  }

  /** `parts.join(sep)`. */
  function Join(parts: seq<string>, sep: char): string
    decreases |parts|
  {
    if parts == [] then ""
    else if |parts| == 1 then parts[0]
    else parts[0] + [sep] + Join(parts[1..], sep)
  }

  /** Joining the pieces with the separator gives the string back. */
  lemma {:induction false} JoinSplit(s: string, sep: char)
    ensures Join(Split(s, sep), sep) == s
  {
    if s != [] {
      var rest := Split(s[1..], sep);
      JoinSplit(s[1..], sep);
      if s[0] == sep {
        assert ([""] + rest)[1..] == rest;
      } else {
        var parts := [[s[0]] + rest[0]] + rest[1..];
        if |rest| > 1 {
          assert parts[1..] == rest[1..];
          assert Join(rest, sep) == rest[0] + [sep] + Join(rest[1..], sep);
        }
      }
    }
  }

  /** Splitting a join of separator-free pieces gives the pieces back. */
  lemma {:induction false} SplitJoin(parts: seq<string>, sep: char)
    requires |parts| >= 1
    requires forall i :: 0 <= i < |parts| ==> sep !in parts[i]
    ensures Split(Join(parts, sep), sep) == parts
    decreases |parts|, |parts[0]|
  {
    var p := parts[0];
    if |parts| == 1 {
      SplitNoSep(p, sep);
    } else if p == "" {
      var tail := Join(parts[1..], sep);
      SplitJoin(parts[1..], sep);
      assert Join(parts, sep) == [sep] + tail;
      assert ([sep] + tail)[1..] == tail;
    } else {
      var parts' := [p[1..]] + parts[1..];
      assert parts'[1..] == parts[1..];
      assert forall i :: 0 <= i < |parts'| ==> sep !in parts'[i] by {
        assert forall c :: c in p[1..] ==> c in p;
      }
      SplitJoin(parts', sep);
      var s := Join(parts, sep);
      assert s == [p[0]] + Join(parts', sep);
      assert s[1..] == Join(parts', sep);
      assert p[0] != sep;
      assert [p[0]] + p[1..] == p;
    }
  }

  lemma {:induction false} SplitNoSep(s: string, sep: char)
    requires sep !in s
    ensures Split(s, sep) == [s]
  {
    if s != [] {
      SplitNoSep(s[1..], sep);
      assert [s[0]] + s[1..] == s;
    }
  }

  /** `s.split(sep).map(p => p.trim()).filter(p => p)`. */
  function Tokens(s: string, sep: char): seq<string> {
    NonEmpty(TrimAll(Split(s, sep)))
  }

  function TrimAll(parts: seq<string>): (r: seq<string>)
    ensures |r| == |parts|
    ensures forall i :: 0 <= i < |parts| ==> r[i] == Trim(parts[i])
  {
    if parts == [] then [] else [Trim(parts[0])] + TrimAll(parts[1..])
  }

  function NonEmpty(parts: seq<string>): (r: seq<string>)
    ensures forall p :: p in r <==> p in parts && p != ""
  {
    if parts == [] then []
    else if parts[0] == "" then NonEmpty(parts[1..])
    else [parts[0]] + NonEmpty(parts[1..])
  }

  /** Every token is non-empty, trimmed, free of the separator, and a trimmed piece of the input. */
  lemma TokensSpec(s: string, sep: char, t: string)
    requires t in Tokens(s, sep)
    ensures t != "" && sep !in t
    ensures !IsWhiteSpace(t[0]) && !IsWhiteSpace(t[|t| - 1])
    ensures exists i :: 0 <= i < |Split(s, sep)| && t == Trim(Split(s, sep)[i])
  {
    var parts := Split(s, sep);
    var i :| 0 <= i < |parts| && TrimAll(parts)[i] == t;
    assert t == Trim(parts[i]) && t != "";
    assert !IsWhiteSpace(t[0]) && !IsWhiteSpace(t[|t| - 1]) by { TrimSpec(parts[i]); }
    assert sep !in t by {
      TrimSpec(parts[i]);
      var a, b :| 0 <= a <= b <= |parts[i]| && t == parts[i][a..b];
      SliceOmits(parts[i], a, b, sep);
    }
  }

  lemma SliceOmits(p: string, a: nat, b: nat, c: char)
    requires a <= b <= |p| && c !in p
    ensures c !in p[a..b]
  {
    forall k | 0 <= k < b - a
      ensures p[a..b][k] != c
    {
      assert p[a..b][k] == p[a + k];
    }
  }

  /** A piece survives exactly when it does not trim to empty. */
  lemma TokensComplete(s: string, sep: char, i: nat)
    requires i < |Split(s, sep)|
    ensures Trim(Split(s, sep)[i]) != "" ==> Trim(Split(s, sep)[i]) in Tokens(s, sep)
  {
    assert TrimAll(Split(s, sep))[i] == Trim(Split(s, sep)[i]);
  }

  /** A string with no white space at either end is its own trim. */
  lemma TrimClean(s: string)
    requires s != "" && !IsWhiteSpace(s[0]) && !IsWhiteSpace(s[|s| - 1])
    ensures Trim(s) == s
  {
    assert LeadingSpace(s) == 0;
    assert TrailingSpace(s) == 0;
  }

  /** Tokens of pieces that are non-empty, trimmed and separator-free, joined by the separator, are those pieces. */
  lemma TokensOfJoin(parts: seq<string>, sep: char)
    requires |parts| >= 1
    requires forall i :: 0 <= i < |parts| ==>
      parts[i] != "" && sep !in parts[i] && !IsWhiteSpace(parts[i][0]) && !IsWhiteSpace(parts[i][|parts[i]| - 1])
    ensures Tokens(Join(parts, sep), sep) == parts
  {
    SplitJoin(parts, sep);
    forall i | 0 <= i < |parts|
      ensures Trim(parts[i]) == parts[i]
    {
      TrimClean(parts[i]);
    }
    assert TrimAll(parts) == parts;
    NonEmptyKeeps(parts);
  }

  lemma {:induction false} NonEmptyKeeps(parts: seq<string>)
    requires forall i :: 0 <= i < |parts| ==> parts[i] != ""
    ensures NonEmpty(parts) == parts
  {
    if parts != [] {
      NonEmptyKeeps(parts[1..]);
    }
  }

  /** The chain yields nothing exactly when every piece is white space. */
  lemma TokensEmpty(s: string, sep: char)
    ensures Tokens(s, sep) == [] <==> forall i :: 0 <= i < |Split(s, sep)| ==> AllWhiteSpace(Split(s, sep)[i])
  {
    var parts := Split(s, sep);
    if Tokens(s, sep) != [] {
      var t := Tokens(s, sep)[0];
      TokensSpec(s, sep, t);
      var i :| 0 <= i < |parts| && t == Trim(parts[i]);
      TrimEmpty(parts[i]);
    }
    if exists i :: 0 <= i < |parts| && !AllWhiteSpace(parts[i]) {
      var i :| 0 <= i < |parts| && !AllWhiteSpace(parts[i]);
      TrimEmpty(parts[i]);
      TokensComplete(s, sep, i);
    }
  }

  /** Two separator-free pieces around one separator split back into those pieces. */
  lemma SplitPair(a: string, b: string, sep: char)
    requires sep !in a && sep !in b
    ensures Split(a + [sep] + b, sep) == [a, b]
  {
    assert a + [sep] + b == Join([a, b], sep);
    SplitJoin([a, b], sep);
  }

  /** `String(n)` for a non-negative integer: its decimal digits. */
  function NatToString(n: nat): (s: string)
    ensures |s| >= 1
    ensures forall i :: 0 <= i < |s| ==> '0' <= s[i] <= '9'
    decreases n
  {
    var d := [(('0' as int) + n % 10) as char];
    if n < 10 then d else NatToString(n / 10) + d
  }
}
