/**
 * The few java.lang.String operations the client relies on, over seq<char>:
 * trim, startsWith/endsWith/contains, literal replace, split on one
 * character (with Java's removal of trailing empty pieces), join,
 * ASCII lower-casing and decimal printing of a non-negative long.
 */
module Strings {
  import opened Wrappers

  /** Java's trim() treats every character up to U+0020 as white space. */
  predicate IsWhite(c: char) {
    c <= ' '
  }

  function TrimStart(s: string): (r: string)
    ensures |r| <= |s| && r == s[|s| - |r|..]
    ensures r != [] ==> !IsWhite(r[0])
    ensures forall i :: 0 <= i < |s| - |r| ==> IsWhite(s[i])
  {
    if s != [] && IsWhite(s[0]) then TrimStart(s[1..]) else s
  }

  function TrimEnd(s: string): (r: string)
    ensures |r| <= |s| && r == s[..|r|]
    ensures r != [] ==> !IsWhite(r[|r| - 1])
    ensures forall i :: |r| <= i < |s| ==> IsWhite(s[i])
  {
    if s != [] && IsWhite(s[|s| - 1]) then TrimEnd(s[..|s| - 1]) else s
  }

  /** String.trim(): drops leading and trailing white space. */
  function Trim(s: string): (r: string)
    ensures r != [] ==> !IsWhite(r[0]) && !IsWhite(r[|r| - 1])
    ensures s != [] && !IsWhite(s[0]) && !IsWhite(s[|s| - 1]) ==> r == s
  {
    TrimEnd(TrimStart(s))
  }

  /** Every character is white space. */
  predicate AllWhite(s: string) {
    s == [] || (IsWhite(s[0]) && AllWhite(s[1..]))
  }

  /**
   * Utils.isNullOrWhiteSpace: null, or nothing but white space (which is
   * the same as trimming to nothing, TrimEmptyIffAllWhite). Utils is not
   * part of this model; this is the reading the client's own use of trim()
   * before splitting tags agrees with.
   */
  predicate IsBlank(s: Option<string>) {
    s.None? || AllWhite(s.value)
  }

  lemma {:induction false} AllWhiteIff(s: string)
    ensures AllWhite(s) <==> forall i :: 0 <= i < |s| ==> IsWhite(s[i])
  {
    if s != [] {
      AllWhiteIff(s[1..]);
      assert forall i :: 1 <= i < |s| ==> s[i] == s[1..][i - 1];
    }
  }

  lemma {:induction false} TrimEmptyIffAllWhite(s: string)
    ensures Trim(s) == "" <==> AllWhite(s)
  {
    AllWhiteIff(s);
    var t := TrimStart(s);
    if t != "" {
      assert !IsWhite(t[0]);
      assert Trim(s) != "" by {
        assert |TrimEnd(t)| > 0;
      }
      assert s[|s| - |t|] == t[0];
    }
  }

  /** Java's string concatenation turns a null reference into "null". */
  function Show(s: Option<string>): string {
    match s
    case Some(v) => v
    case None => "null"
  }

  predicate StartsWith(s: string, prefix: string) {
    |prefix| <= |s| && s[..|prefix|] == prefix
  }

  predicate EndsWith(s: string, suffix: string) {
    |suffix| <= |s| && s[|s| - |suffix|..] == suffix
  }

  /** String.contains, scanning from the left. */
  predicate Contains(s: string, sub: string)
    decreases |s|
  {
    StartsWith(s, sub) || (s != [] && Contains(s[1..], sub))
  }

  /** An occurrence of sub at position i of s. */
  predicate OccursAt(s: string, sub: string, i: int) {
    0 <= i && i + |sub| <= |s| && s[i..i + |sub|] == sub
  }

  lemma {:induction false} ContainsIff(s: string, sub: string)
    ensures Contains(s, sub) <==> exists i :: OccursAt(s, sub, i)
    decreases |s|
  {
    if StartsWith(s, sub) {
      assert OccursAt(s, sub, 0);
    } else if s == [] {
      assert forall i :: !OccursAt(s, sub, i);
    } else {
      ContainsIff(s[1..], sub);
      forall i | OccursAt(s, sub, i) ensures OccursAt(s[1..], sub, i - 1) {
        assert i != 0;
        assert s[1..][i - 1..i - 1 + |sub|] == s[i..i + |sub|];
      }
      forall j | OccursAt(s[1..], sub, j) ensures OccursAt(s, sub, j + 1) {
        assert s[1..][j..j + |sub|] == s[j + 1..j + 1 + |sub|];
      }
    }
  }

  /** String.replace(char-literal, replacement): every occurrence of c is rewritten. */
  function ReplaceChar(s: string, c: char, repl: string): (r: string)
    ensures c !in repl ==> c !in r
    ensures forall x :: x in r ==> x in s || x in repl
  {
    if s == [] then []
    else (if s[0] == c then repl else [s[0]]) + ReplaceChar(s[1..], c, repl)
  }

  function Count(s: string, c: char): nat {
    if s == [] then 0 else (if s[0] == c then 1 else 0) + Count(s[1..], c)
  }

  lemma {:induction false} ReplaceCharLength(s: string, c: char, repl: string)
    ensures |ReplaceChar(s, c, repl)| == |s| + Count(s, c) * (|repl| - 1)
  {
    if s != [] {
      ReplaceCharLength(s[1..], c, repl);
    }
  }

  lemma {:induction false} ReplaceCharAbsent(s: string, c: char, repl: string)
    requires c !in s
    ensures ReplaceChar(s, c, repl) == s
  {
    if s != [] {
      ReplaceCharAbsent(s[1..], c, repl);
    }
  }

  /** Pieces of s between occurrences of sep, empty pieces included. */
  function SplitAll(s: string, sep: char): (r: seq<string>)
    ensures |r| >= 1
    ensures forall i :: 0 <= i < |r| ==> sep !in r[i]
  {
    if s == [] then [""]
    else if s[0] == sep then [""] + SplitAll(s[1..], sep)
    else
      var rest := SplitAll(s[1..], sep);
      [[s[0]] + rest[0]] + rest[1..]
  }

  function DropTrailingEmpty(ss: seq<string>): (r: seq<string>)
    ensures |r| <= |ss| && r == ss[..|r|]
    ensures r != [] ==> r[|r| - 1] != ""
    ensures forall i :: |r| <= i < |ss| ==> ss[i] == ""
  {
    if ss == [] then []
    else if ss[|ss| - 1] == "" then DropTrailingEmpty(ss[..|ss| - 1])
    else ss
  }

  /**
   * String.split with a one-character pattern and no limit: the empty string
   * gives [""], otherwise the trailing empty pieces are removed.
   */
  function Split(s: string, sep: char): seq<string> {
    if s == "" then [""] else DropTrailingEmpty(SplitAll(s, sep))
  }

  /** The StringBuilder loop that writes the first element, then sep and each next one. */
  function Join(ss: seq<string>, sep: string): string
    decreases |ss|
  {
    if ss == [] then ""
    else if |ss| == 1 then ss[0]
    else ss[0] + sep + Join(ss[1..], sep)
  }

  lemma {:induction false} JoinSnoc(ss: seq<string>, t: string, sep: string)
    requires ss != []
    ensures Join(ss + [t], sep) == Join(ss, sep) + sep + t
    decreases |ss|
  {
    if |ss| == 1 {
      assert (ss + [t])[1..] == [t];
    } else {
      assert (ss + [t])[1..] == ss[1..] + [t];
      JoinSnoc(ss[1..], t, sep);
    }
  }

  lemma {:induction false} SplitAllPrefix(a: string, b: string, sep: char)
    requires sep !in a
    ensures SplitAll(a + [sep] + b, sep) == [a] + SplitAll(b, sep)
    decreases |a|
  {
    if a == [] {
      assert a + [sep] + b == [sep] + b;
      assert ([sep] + b)[1..] == b;
    } else {
      assert (a + [sep] + b)[1..] == a[1..] + [sep] + b;
      SplitAllPrefix(a[1..], b, sep);
      assert [a[0]] + a[1..] == a;
    }
  }

  lemma {:induction false} SplitAllSingle(a: string, sep: char)
    requires sep !in a
    ensures SplitAll(a, sep) == [a]
    decreases |a|
  {
    if a != [] {
      SplitAllSingle(a[1..], sep);
      assert [a[0]] + a[1..] == a;
    }
  }

  lemma {:induction false} SplitAllJoin(ss: seq<string>, sep: char)
    requires ss != []
    requires forall i :: 0 <= i < |ss| ==> sep !in ss[i]
    ensures SplitAll(Join(ss, [sep]), sep) == ss
    decreases |ss|
  {
    if |ss| == 1 {
      SplitAllSingle(ss[0], sep);
    } else {
      SplitAllJoin(ss[1..], sep);
      SplitAllPrefix(ss[0], Join(ss[1..], [sep]), sep);
      assert [ss[0]] + ss[1..] == ss;
    }
  }

  lemma {:induction false} JoinBounds(ss: seq<string>, sep: string)
    requires ss != [] && forall i :: 0 <= i < |ss| ==> ss[i] != []
    ensures var j := Join(ss, sep); j != [] && j[0] == ss[0][0] && j[|j| - 1] == ss[|ss| - 1][|ss[|ss| - 1]| - 1]
    decreases |ss|
  {
    if |ss| > 1 {
      JoinBounds(ss[1..], sep);
    }
  }

  /**
   * Writing tags with Join(",") and reading them back with trim() and
   * split(",") gives the list back, when no tag is empty, none contains
   * the separator and none starts or ends with white space.
   */
  lemma SplitTrimJoin(ss: seq<string>, sep: char)
    requires ss != []
    requires forall i :: 0 <= i < |ss| ==> ss[i] != [] && sep !in ss[i]
    requires forall i :: 0 <= i < |ss| ==> !IsWhite(ss[i][0]) && !IsWhite(ss[i][|ss[i]| - 1])
    ensures Trim(Join(ss, [sep])) == Join(ss, [sep])
    ensures Split(Trim(Join(ss, [sep])), sep) == ss
  {
    JoinBounds(ss, [sep]);
    SplitAllJoin(ss, sep);
  }

  function LowerChar(c: char): char {
    if 'A' <= c <= 'Z' then (c as int + 32) as char else c
  }

  /**
   * toLowerCase(Locale.ENGLISH) on ASCII text; the client only lower-cases
   * URL-encoded text, which is ASCII.
   */
  function LowerAscii(s: string): (r: string)
    ensures |r| == |s|
    ensures forall i :: 0 <= i < |s| ==> r[i] == LowerChar(s[i])
  {
    if s == [] then [] else [LowerChar(s[0])] + LowerAscii(s[1..])
  }

  function DigitChar(d: nat): char
    requires d < 10
  {
    ['0', '1', '2', '3', '4', '5', '6', '7', '8', '9'][d]
  }

  /** Long.toString for a non-negative value. */
  function NatToString(n: nat): (r: string)
    ensures r != []
    ensures forall i :: 0 <= i < |r| ==> '0' <= r[i] <= '9'
  {
    if n < 10 then [DigitChar(n)] else NatToString(n / 10) + [DigitChar(n % 10)]
  }
}
