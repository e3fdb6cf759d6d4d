/** The string operations of Rust's standard library that the models share. */
module Text {

  /** `char::is_whitespace` */
  predicate Whitespace(c: char) {
    var n := c as int;
    9 <= n <= 13 || n == 32 || n == 0x85 || n == 0xA0 || n == 0x1680 || 0x2000 <= n <= 0x200A
    || n == 0x2028 || n == 0x2029 || n == 0x202F || n == 0x205F || n == 0x3000
  }

  function TrimStart(s: string): (r: string)
    ensures |r| <= |s| && (r == s <==> s == "" || !Whitespace(s[0]))
    ensures r == "" || !Whitespace(r[0])
  {
    if s != "" && Whitespace(s[0]) then TrimStart(s[1..]) else s
  }

  function TrimEnd(s: string): (r: string)
    ensures r <= s && (r == s <==> s == "" || !Whitespace(s[|s| - 1]))
  {
    if s != "" && Whitespace(s[|s| - 1]) then TrimEnd(s[..|s| - 1]) else s
  }

  /** `str::trim` */
  function Trim(s: string): string {
    TrimEnd(TrimStart(s))
  }

  /** A string is its own trimming exactly when it neither begins nor ends with white space. */
  lemma TrimmedIff(s: string)
    ensures Trim(s) == s <==> s == "" || (!Whitespace(s[0]) && !Whitespace(s[|s| - 1]))
  {
    if TrimStart(s) != s {
      assert |TrimEnd(TrimStart(s))| <= |TrimStart(s)|;
      assert |TrimStart(s)| < |s| by { TrimStartShrinks(s); }
    }
  }

  lemma TrimStartShrinks(s: string)
    requires TrimStart(s) != s
    ensures |TrimStart(s)| < |s|
  {
    assert TrimStart(s) == TrimStart(s[1..]);
  }

  predicate Blank(s: string) {
    forall i :: 0 <= i < |s| ==> Whitespace(s[i])
  }

  lemma {:induction false} TrimStartTakes(s: string) returns (front: string)
    ensures s == front + TrimStart(s) && Blank(front)
  {
    front := "";
    if s != "" && Whitespace(s[0]) {
      front := TrimStartTakes(s[1..]);
      assert s == [s[0]] + s[1..];
      front := [s[0]] + front;
    }
  }

  lemma {:induction false} TrimEndTakes(s: string) returns (back: string)
    ensures s == TrimEnd(s) + back && Blank(back)
    decreases |s|
  {
    back := "";
    if s != "" && Whitespace(s[|s| - 1]) {
      back := TrimEndTakes(s[..|s| - 1]);
      assert s == s[..|s| - 1] + [s[|s| - 1]];
      back := back + [s[|s| - 1]];
    }
  }

  lemma {:induction false} TrimEndEnds(s: string)
    ensures TrimEnd(s) == "" || !Whitespace(TrimEnd(s)[|TrimEnd(s)| - 1])
    decreases |s|
  {
    if s != "" && Whitespace(s[|s| - 1]) { TrimEndEnds(s[..|s| - 1]); }
  }

  /** Trimming takes white space from both ends and nothing else, and all of it. */
  lemma TrimTakesWhitespace(s: string) returns (front: string, back: string)
    ensures s == front + Trim(s) + back && Blank(front) && Blank(back)
    ensures Trim(s) == "" || (!Whitespace(Trim(s)[0]) && !Whitespace(Trim(s)[|Trim(s)| - 1]))
  {
    front := TrimStartTakes(s);
    back := TrimEndTakes(TrimStart(s));
    TrimEndEnds(TrimStart(s));
    assert front + (Trim(s) + back) == front + Trim(s) + back;
  }

  /** The same letter, in either case. */
  predicate SameLetter(a: char, b: char) {
    a == b || ('a' <= a <= 'z' && a as int - 'a' as int == b as int - 'A' as int)
    || ('a' <= b <= 'z' && b as int - 'a' as int == a as int - 'A' as int)
  }

  /** Both foldings tell texts apart exactly up to the case of ASCII letters. */
  lemma FoldingIff(a: string, b: string)
    ensures Upper(a) == Upper(b) <==> |a| == |b| && forall i :: 0 <= i < |a| ==> SameLetter(a[i], b[i])
    ensures Lower(a) == Lower(b) <==> Upper(a) == Upper(b)
  {
    if |a| == |b| {
      forall i | 0 <= i < |a|
        ensures UpperChar(a[i]) == UpperChar(b[i]) <==> SameLetter(a[i], b[i])
        ensures LowerChar(a[i]) == LowerChar(b[i]) <==> SameLetter(a[i], b[i])
      {
      }
      if Upper(a) == Upper(b) {
        forall i | 0 <= i < |a| ensures SameLetter(a[i], b[i]) { assert Upper(a)[i] == Upper(b)[i]; }
      }
      if Lower(a) == Lower(b) {
        forall i | 0 <= i < |a| ensures SameLetter(a[i], b[i]) { assert Lower(a)[i] == Lower(b)[i]; }
      }
    } else {
      assert |Upper(a)| != |Upper(b)| && |Lower(a)| != |Lower(b)|;
    }
  }

  function UpperChar(c: char): char {
    if 'a' <= c <= 'z' then c - 'a' + 'A' else c
  }

  function LowerChar(c: char): char {
    if 'A' <= c <= 'Z' then c - 'A' + 'a' else c
  }

  /** `str::to_ascii_uppercase` */
  function Upper(s: string): string {
    seq(|s|, i requires 0 <= i < |s| => UpperChar(s[i]))
  }

  /** `str::to_ascii_lowercase` */
  function Lower(s: string): string {
    seq(|s|, i requires 0 <= i < |s| => LowerChar(s[i]))
  }
}
