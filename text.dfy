/** String operations of the Python runtime that the support agent relies on:
    case mapping (ASCII letters only), `str.isspace`, `strip`, `in`, `count`,
    `replace`, `' '.join(s.split())` and integer formatting. */
module Text {

  /** Python's `str.isspace`: the ASCII whitespace and separator controls
      plus the Unicode space characters. */
  predicate IsSpace(c: char) {
    var n := c as int;
    (9 <= n <= 13) || (28 <= n <= 32) || n == 0x85 || n == 0xA0 || n == 0x1680 ||
    (0x2000 <= n <= 0x200A) || n == 0x2028 || n == 0x2029 || n == 0x202F ||
    n == 0x205F || n == 0x3000
  }

  function LowerChar(c: char): (r: char)
    ensures 'A' <= c <= 'Z' ==> r as int == c as int + 32
    ensures !('A' <= c <= 'Z') ==> r == c
  {
    if 'A' <= c <= 'Z' then (c as int + 32) as char else c
  }

  function UpperChar(c: char): (r: char)
    ensures 'a' <= c <= 'z' ==> r as int == c as int - 32
    ensures !('a' <= c <= 'z') ==> r == c
  {
    if 'a' <= c <= 'z' then (c as int - 32) as char else c
  }

  /** `str.lower()` on the ASCII letters. */
  function Lower(s: string): (r: string)
    ensures |r| == |s|
    ensures forall i :: 0 <= i < |s| ==> r[i] == LowerChar(s[i])
  {
    if s == [] then [] else [LowerChar(s[0])] + Lower(s[1..])
  }

  /** `str.upper()` on the ASCII letters. */
  function Upper(s: string): (r: string)
    ensures |r| == |s|
    ensures forall i :: 0 <= i < |s| ==> r[i] == UpperChar(s[i])
  {
    if s == [] then [] else [UpperChar(s[0])] + Upper(s[1..])
  }

  lemma LowerConcat(a: string, b: string)
    ensures Lower(a + b) == Lower(a) + Lower(b)
  {
    assert forall i :: 0 <= i < |a + b| ==> Lower(a + b)[i] == (Lower(a) + Lower(b))[i];
  }

  /** The number of whitespace characters `s` starts with. */
  function LeadingSpace(s: string): (n: nat)
    ensures n <= |s|
    ensures forall i :: 0 <= i < n ==> IsSpace(s[i])
    ensures n < |s| ==> !IsSpace(s[n])
  {
    if s != [] && IsSpace(s[0]) then 1 + LeadingSpace(s[1..]) else 0
  }

  /** The number of whitespace characters `s` ends with. */
  function TrailingSpace(s: string): (n: nat)
    ensures n <= |s|
    ensures forall i :: |s| - n <= i < |s| ==> IsSpace(s[i])
    ensures n < |s| ==> !IsSpace(s[|s| - 1 - n])
  {
    if s != [] && IsSpace(s[|s| - 1]) then 1 + TrailingSpace(s[..|s| - 1]) else 0
  }

  /** `str.strip()` with no argument: leading and trailing whitespace removed. */
  function Strip(s: string): (r: string)
    ensures |r| <= |s|
    ensures r != [] ==> !IsSpace(r[0]) && !IsSpace(r[|r| - 1])
    ensures r == [] <==> forall i :: 0 <= i < |s| ==> IsSpace(s[i])
  {
    var front := s[LeadingSpace(s)..];
    front[..|front| - TrailingSpace(front)]
  }

  /** `strip()` returns the stretch `s[a..b]` of its input, which begins
      and ends with a non-space character when it is not empty. */
  lemma StripIsSlice(s: string) returns (a: nat, b: nat)
    ensures a <= b <= |s| && Strip(s) == s[a..b]
    ensures forall i :: 0 <= i < a ==> IsSpace(s[i])
    ensures forall i :: b <= i < |s| ==> IsSpace(s[i])
    ensures a < b ==> !IsSpace(s[a]) && !IsSpace(s[b - 1])
  {
    a := LeadingSpace(s);
    var front := s[a..];
    b := a + |front| - TrailingSpace(front);
    forall i | b <= i < |s| ensures IsSpace(s[i]) {
      assert s[i] == front[i - a];
    }
    if a < b {
      assert s[b - 1] == front[b - 1 - a];
    }
  }

  /** A stretch of `s` that starts and ends with non-space characters
      survives `strip()`. */
  lemma StripKeepsInterior(s: string, i: nat, j: nat)
    requires i < j <= |s| && !IsSpace(s[i]) && !IsSpace(s[j - 1])
    ensures Contains(Strip(s), s[i..j])
  {
    var a, b := StripIsSlice(s);
    assert a <= i && j <= b;
    var r := Strip(s);
    var q := s[i..j];
    forall k | 0 <= k < |q| ensures r[i - a + k] == q[k] {
      assert r[i - a + k] == s[i + k];
    }
    assert r[i - a..i - a + |q|] == q;
    ContainsAt(r, q, i - a);
  }

  /** Python's `q in s` for strings: `q` occurs in `s` as a contiguous substring. */
  predicate Contains(s: string, q: string)
    decreases |s|
  {
    |q| <= |s| && (q <= s || Contains(s[1..], q))
  }

  /** `s.count(q)`: non-overlapping occurrences of `q`, scanning left to right;
      the empty string occurs `|s| + 1` times. */
  function Count(s: string, q: string): nat
    decreases |s|
  {
    if q == [] then |s| + 1
    else if |s| < |q| then 0
    else if q <= s then 1 + Count(s[|q|..], q)
    else Count(s[1..], q)
  }

  /** An occurrence counted by `str.count` is exactly a witness of `in`. */
  lemma {:induction false} CountPositiveIffContains(s: string, q: string)
    ensures Count(s, q) >= 1 <==> Contains(s, q)
    decreases |s|
  {
    if q == [] {
    } else if |s| < |q| {
    } else if q <= s {
    } else {
      CountPositiveIffContains(s[1..], q);
    }
  }

  /** A substring of `s` at position `i` witnesses `Contains`. */
  lemma {:induction false} ContainsAt(s: string, q: string, i: nat)
    requires i + |q| <= |s| && s[i..i + |q|] == q
    ensures Contains(s, q)
    decreases i
  {
    if i == 0 {
      assert q <= s by { assert s[..|q|] == q; }
    } else {
      assert s[1..][i - 1..i - 1 + |q|] == q;
      ContainsAt(s[1..], q, i - 1);
    }
  }

  /** What occurs in a part of a concatenation occurs in the whole. */
  lemma ContainsInConcat(a: string, b: string, q: string)
    requires Contains(a, q) || Contains(b, q)
    ensures Contains(a + b, q)
  {
    if Contains(a, q) {
      var i := ContainsWitness(a, q);
      assert (a + b)[i..i + |q|] == a[i..i + |q|];
      ContainsAt(a + b, q, i);
    } else {
      var i := ContainsWitness(b, q);
      assert (a + b)[|a| + i..|a| + i + |q|] == b[i..i + |q|];
      ContainsAt(a + b, q, |a| + i);
    }
  }

  lemma {:induction false} ContainsWitness(s: string, q: string) returns (i: nat)
    requires Contains(s, q)
    ensures i + |q| <= |s| && s[i..i + |q|] == q
    ensures q != [] ==> s[i] == q[0]
    decreases |s|
  {
    if q <= s {
      i := 0;
    } else {
      var j := ContainsWitness(s[1..], q);
      assert s[1..][j..j + |q|] == s[j + 1..j + 1 + |q|];
      i := j + 1;
    }
  }

  /** `s.replace(pat, rep)` for a non-empty pattern: every non-overlapping
      occurrence, scanning left to right, is replaced. */
  function Replace(s: string, pat: string, rep: string): (r: string)
    requires pat != []
    ensures !Contains(s, pat) ==> r == s
    decreases |s|
  {
    if |s| < |pat| then s
    else if pat <= s then rep + Replace(s[|pat|..], pat, rep)
    else [s[0]] + Replace(s[1..], pat, rep)
  }

  /** Length of the run of non-space characters at the start of `s`. */
  function WordLength(s: string): (n: nat)
    ensures n <= |s|
    ensures forall i :: 0 <= i < n ==> !IsSpace(s[i])
    ensures n < |s| ==> IsSpace(s[n])
  {
    if s == [] || IsSpace(s[0]) then 0 else 1 + WordLength(s[1..])
  }

  /** `s.split()` with no separator: the maximal runs of non-space characters. */
  function Words(s: string): (ws: seq<string>)
    ensures forall w :: w in ws ==> w != [] && forall c :: c in w ==> !IsSpace(c)
    decreases |s|
  {
    if s == [] then []
    else if IsSpace(s[0]) then Words(s[1..])
    else
      var n := WordLength(s);
      [s[..n]] + Words(s[n..])
  }

  /** `sep.join(ws)`. */
  function Join(sep: string, ws: seq<string>): string {
    if ws == [] then ""
    else if |ws| == 1 then ws[0]
    else ws[0] + sep + Join(sep, ws[1..])
  }

  /** Joining with a single space the words of `s` never lengthens it. */
  lemma {:induction false} JoinWordsNoLonger(s: string)
    ensures |Join(" ", Words(s))| <= |s|
    ensures s != [] && IsSpace(s[0]) && Words(s) != [] ==> |Join(" ", Words(s))| + 1 <= |s|
    decreases |s|
  {
    if s == [] {
    } else if IsSpace(s[0]) {
      JoinWordsNoLonger(s[1..]);
    } else {
      var n := WordLength(s);
      JoinWordsNoLonger(s[n..]);
      if Words(s[n..]) != [] {
        assert s[n..] != [] && IsSpace(s[n..][0]);
      }
    }
  }

  /** The only whitespace left by `' '.join(s.split())` is the single space. */
  lemma {:induction false} JoinWordsSpaces(ws: seq<string>)
    requires forall w :: w in ws ==> forall c :: c in w ==> !IsSpace(c)
    ensures forall c :: c in Join(" ", ws) ==> c == ' ' || !IsSpace(c)
  {
    if ws != [] {
      assert ws[0] in ws;
    }
    if |ws| > 1 {
      assert forall w :: w in ws[1..] ==> w in ws;
      JoinWordsSpaces(ws[1..]);
      assert Join(" ", ws) == ws[0] + " " + Join(" ", ws[1..]);
    }
  }

  /** The non-whitespace characters of `s`, in order. */
  function DropSpace(s: string): (r: string)
    ensures |r| <= |s|
    ensures forall c :: c in r <==> c in s && !IsSpace(c)
  {
    if s == [] then []
    else if IsSpace(s[0]) then DropSpace(s[1..])
    else [s[0]] + DropSpace(s[1..])
  }

  lemma {:induction false} DropSpaceConcat(a: string, b: string)
    ensures DropSpace(a + b) == DropSpace(a) + DropSpace(b)
  {
    if a == [] {
      assert a + b == b;
    } else {
      assert (a + b)[0] == a[0] && (a + b)[1..] == a[1..] + b;
      DropSpaceConcat(a[1..], b);
    }
  }

  lemma {:induction false} DropSpaceOfSpaces(s: string)
    requires forall i :: 0 <= i < |s| ==> IsSpace(s[i])
    ensures DropSpace(s) == []
  {
    if s != [] {
      DropSpaceOfSpaces(s[1..]);
    }
  }

  lemma {:induction false} DropSpaceOfWord(s: string)
    requires forall i :: 0 <= i < |s| ==> !IsSpace(s[i])
    ensures DropSpace(s) == s
  {
    if s != [] {
      DropSpaceOfWord(s[1..]);
    }
  }

  lemma DropLeadingSpaces(s: string, n: nat)
    requires n <= |s| && forall i :: 0 <= i < n ==> IsSpace(s[i])
    ensures DropSpace(s[n..]) == DropSpace(s)
  {
    assert s == s[..n] + s[n..];
    DropSpaceConcat(s[..n], s[n..]);
    DropSpaceOfSpaces(s[..n]);
  }

  lemma DropTrailingSpaces(s: string, m: nat)
    requires m <= |s| && forall i :: m <= i < |s| ==> IsSpace(s[i])
    ensures DropSpace(s[..m]) == DropSpace(s)
  {
    assert s == s[..m] + s[m..];
    DropSpaceConcat(s[..m], s[m..]);
    DropSpaceOfSpaces(s[m..]);
  }

  /** `strip()` removes whitespace only: every other character survives, in order. */
  lemma StripKeepsVisible(s: string)
    ensures DropSpace(Strip(s)) == DropSpace(s)
  {
    var front := s[LeadingSpace(s)..];
    DropLeadingSpaces(s, LeadingSpace(s));
    DropTrailingSpaces(front, |front| - TrailingSpace(front));
  }

  /** The words of a list, run together. */
  function Flatten(ws: seq<string>): string {
    if ws == [] then "" else ws[0] + Flatten(ws[1..])
  }

  /** `s.split()` keeps every non-whitespace character of `s`, in order. */
  lemma {:induction false} WordsKeepVisible(s: string)
    ensures Flatten(Words(s)) == DropSpace(s)
    decreases |s|
  {
    if s == [] {
    } else if IsSpace(s[0]) {
      WordsKeepVisible(s[1..]);
    } else {
      var n := WordLength(s);
      WordsKeepVisible(s[n..]);
      assert s == s[..n] + s[n..];
      DropSpaceConcat(s[..n], s[n..]);
      DropSpaceOfWord(s[..n]);
      assert Words(s) == [s[..n]] + Words(s[n..]);
    }
  }

  /** Joining words that hold no whitespace with a single space adds only
      whitespace. */
  lemma {:induction false} JoinKeepsVisible(ws: seq<string>)
    requires forall w :: w in ws ==> forall c :: c in w ==> !IsSpace(c)
    ensures DropSpace(Join(" ", ws)) == Flatten(ws)
  {
    if ws != [] {
      assert ws[0] in ws;
      assert forall i :: 0 <= i < |ws[0]| ==> ws[0][i] in ws[0];
      DropSpaceOfWord(ws[0]);
    }
    if |ws| == 1 {
      assert Flatten(ws) == ws[0] + Flatten(ws[1..]);
    } else if |ws| > 1 {
      assert forall w :: w in ws[1..] ==> w in ws;
      JoinKeepsVisible(ws[1..]);
      DropSpaceConcat(ws[0] + " ", Join(" ", ws[1..]));
      DropSpaceConcat(ws[0], " ");
    }
  }

  /** `' '.join(s.split())` changes whitespace only. */
  lemma JoinWordsKeepVisible(s: string)
    ensures DropSpace(Join(" ", Words(s))) == DropSpace(s)
  {
    WordsKeepVisible(s);
    JoinKeepsVisible(Words(s));
  }

  function DigitChar(d: nat): (c: char)
    requires d < 10
    ensures '0' <= c <= '9'
  {
    ((d + '0' as int) as char)
  }

  /** `str(n)` for a non-negative integer. */
  function NatToString(n: nat): (s: string)
    ensures s != [] && forall c :: c in s ==> '0' <= c <= '9'
  {
    if n < 10 then [DigitChar(n)] else NatToString(n / 10) + [DigitChar(n % 10)]
  }
}
