/** The Python `str` operations the toolkit uses, on strings as sequences of
    Unicode scalar values (`len` counts code points, as Python's does). */
module Text {

  predicate StartsWith(s: string, p: string)
  {
    |p| <= |s| && s[..|p|] == p
  }

  /** `t in s` for strings: `t` occurs somewhere in `s` as a contiguous piece. */
  predicate Contains(s: string, t: string)
    decreases |s|
  {
    StartsWith(s, t) || (|s| > 0 && Contains(s[1..], t))
  }

  /** `s[:n]`. */
  function Take(s: string, n: nat): (r: string)
    ensures |r| == if |s| <= n then |s| else n
    ensures StartsWith(s, r)
  {
    if n <= |s| then s[..n] else s
  }

  /** `s[-n:]` for `n > 0`. */
  function TakeLast(s: string, n: nat): (r: string)
    ensures |r| == if |s| <= n then |s| else n
    ensures |r| <= |s| && r == s[|s| - |r|..]
  {
    if n <= |s| then s[|s| - n..] else s
  }

  /** `c.isspace()` (Python 3: bidirectional classes WS, B, S and category Zs). */
  predicate IsSpace(c: char)
  {
    var k := c as int;
    (0x09 <= k <= 0x0d) || (0x1c <= k <= 0x20) || k == 0x85 || k == 0xa0 || k == 0x1680
    || (0x2000 <= k <= 0x200a) || k == 0x2028 || k == 0x2029 || k == 0x202f || k == 0x205f
    || k == 0x3000
  }

  predicate AllSpace(s: string)
  {
    forall c :: c in s ==> IsSpace(c)
  }

  /** `s.lstrip()`. */
  function LStrip(s: string): string
    decreases |s|
  {
    if |s| > 0 && IsSpace(s[0]) then LStrip(s[1..]) else s
  }

  /** `s.rstrip()`. */
  function RStrip(s: string): string
    decreases |s|
  {
    if |s| > 0 && IsSpace(s[|s| - 1]) then RStrip(s[..|s| - 1]) else s
  }

  /** `s.strip()`. */
  function Strip(s: string): string
  {
    LStrip(RStrip(s))
  }

  function LowerChar(c: char): char
  {
    if 'A' <= c <= 'Z' then (c as int + 32) as char else c
  }

  /** `s.lower()`, on the ASCII letters. */
  function Lower(s: string): (r: string)
    ensures |r| == |s|
  {
    seq(|s|, i requires 0 <= i < |s| => LowerChar(s[i]))
  }

  /** `s.replace(a, b)` for single characters. */
  function ReplaceChar(s: string, a: char, b: char): (r: string)
    ensures |r| == |s|
  {
    seq(|s|, i requires 0 <= i < |s| => if s[i] == a then b else s[i])
  }

  /** `s.split(sep)`, with `cur` the piece accumulated so far. */
  function SplitFrom(s: string, sep: string, cur: string): (r: seq<string>)
    requires |sep| > 0
    ensures |r| > 0
    decreases |s|
  {
    if |s| == 0 then [cur]
    else if StartsWith(s, sep) then [cur] + SplitFrom(s[|sep|..], sep, "")
    else SplitFrom(s[1..], sep, cur + [s[0]])
  }

  /** `s.split(sep)`: the pieces between the leftmost non-overlapping occurrences of `sep`. */
  function Split(s: string, sep: string): (r: seq<string>)
    requires |sep| > 0
    ensures |r| > 0
  {
    SplitFrom(s, sep, "")
  }

  /** `sep.join(parts)`. */
  function Join(parts: seq<string>, sep: string): string
  {
    if |parts| == 0 then ""
    else if |parts| == 1 then parts[0]
    else parts[0] + sep + Join(parts[1..], sep)
  }

  /** `replace` distributes over concatenation. */
  lemma ReplaceCharAppend(x: string, y: string, a: char, b: char)
    ensures ReplaceChar(x + y, a, b) == ReplaceChar(x, a, b) + ReplaceChar(y, a, b)
  {
    var l := ReplaceChar(x + y, a, b);
    var r := ReplaceChar(x, a, b) + ReplaceChar(y, a, b);
    assert |l| == |r|;
    forall i | 0 <= i < |l| ensures l[i] == r[i] {
      if i < |x| {
        assert (x + y)[i] == x[i];
      } else {
        assert (x + y)[i] == y[i - |x|];
      }
    }
  }

  /** Two separators that `replace(a, b)` makes equal make the joined texts
      equal after the same replacement. */
  lemma {:induction false} ReplaceCharJoinSeparator(parts: seq<string>, sep1: string, sep2: string, a: char, b: char)
    requires ReplaceChar(sep1, a, b) == ReplaceChar(sep2, a, b)
    ensures ReplaceChar(Join(parts, sep1), a, b) == ReplaceChar(Join(parts, sep2), a, b)
    decreases |parts|
  {
    if |parts| >= 2 {
      var rest := parts[1..];
      ReplaceCharJoinSeparator(rest, sep1, sep2, a, b);
      ReplaceCharAppend(parts[0] + sep1, Join(rest, sep1), a, b);
      ReplaceCharAppend(parts[0], sep1, a, b);
      ReplaceCharAppend(parts[0] + sep2, Join(rest, sep2), a, b);
      ReplaceCharAppend(parts[0], sep2, a, b);
    }
  }

  /** The concatenation of a list of sequences (`"".join` on strings). */
  function Concat<T>(parts: seq<seq<T>>): seq<T>
  {
    if parts == [] then [] else Concat(parts[..|parts| - 1]) + parts[|parts| - 1]
  }

  /** How many of the lines are not blank once stripped. */
  function NonBlankCount(lines: seq<string>): nat
  {
    if lines == [] then 0
    else NonBlankCount(lines[..|lines| - 1]) + (if Strip(lines[|lines| - 1]) == "" then 0 else 1)
  }

  function DigitChar(d: nat): char
    requires d < 10
  {
    "0123456789"[d]
  }

  /** `str(n)` for a natural number. */
  function NatStr(n: nat): (r: string)
    ensures |r| > 0
    decreases n
  {
    if n < 10 then [DigitChar(n)] else NatStr(n / 10) + [DigitChar(n % 10)]
  }

  /** `str(i)` for an integer. */
  function IntStr(i: int): string
  {
    if i < 0 then "-" + NatStr(-i) else NatStr(i)
  }

  function Pad3(k: nat): string
    requires k < 1000
  {
    [DigitChar(k / 100), DigitChar(k / 10 % 10), DigitChar(k % 10)]
  }

  /** `f"{n:,}"`: decimal digits with a comma between groups of three. */
  function Grouped(n: nat): string
    decreases n
  {
    if n < 1000 then NatStr(n) else Grouped(n / 1000) + "," + Pad3(n % 1000)
  }

  function IntGrouped(i: int): string
  {
    if i < 0 then "-" + Grouped(-i) else Grouped(i)
  }

  /** Number of bytes of the UTF-8 encoding (`len(s.encode())`). */
  function Utf8Len(s: string): nat
  {
    if s == [] then 0
    else
      var c := s[|s| - 1] as int;
      Utf8Len(s[..|s| - 1]) + (if c < 0x80 then 1 else if c < 0x800 then 2 else if c < 0x10000 then 3 else 4)
  }

  // ---------------------------------------------------------------------
  // Properties of split and strip
  // ---------------------------------------------------------------------

  lemma {:induction false} JoinSplitFrom(s: string, sep: string, cur: string)
    requires |sep| > 0
    ensures Join(SplitFrom(s, sep, cur), sep) == cur + s
    decreases |s|
  {
    if |s| == 0 {
    } else if StartsWith(s, sep) {
      JoinSplitFrom(s[|sep|..], sep, "");
      assert s == sep + s[|sep|..];
    } else {
      JoinSplitFrom(s[1..], sep, cur + [s[0]]);
      assert cur + [s[0]] + s[1..] == cur + s;
    }
  }

  /** Splitting loses nothing: joining the pieces back gives the input. */
  lemma JoinSplit(s: string, sep: string)
    requires |sep| > 0
    ensures Join(Split(s, sep), sep) == s
  {
    JoinSplitFrom(s, sep, "");
  }

  lemma {:induction false} SplitFromNoSep(s: string, sep: string, cur: string)
    requires |sep| > 0 && !Contains(s, sep)
    ensures SplitFrom(s, sep, cur) == [cur + s]
    decreases |s|
  {
    if |s| > 0 {
      SplitFromNoSep(s[1..], sep, cur + [s[0]]);
      assert cur + [s[0]] + s[1..] == cur + s;
    } else {
      assert cur + s == cur;
    }
  }

  /** A string with no separator in it splits into itself alone. */
  lemma SplitNoSep(s: string, sep: string)
    requires |sep| > 0 && !Contains(s, sep)
    ensures Split(s, sep) == [s]
  {
    SplitFromNoSep(s, sep, "");
    assert "" + s == s;
  }

  lemma {:induction false} SplitFromChars(s: string, sep: string, cur: string)
    requires |sep| > 0
    ensures forall p, c :: p in SplitFrom(s, sep, cur) && c in p ==> c in cur || c in s
    decreases |s|
  {
    if |s| == 0 {
    } else if StartsWith(s, sep) {
      SplitFromChars(s[|sep|..], sep, "");
      forall c | c in s[|sep|..] ensures c in s {
        var k :| |sep| <= k < |s| && s[k] == c;
      }
    } else {
      SplitFromChars(s[1..], sep, cur + [s[0]]);
      forall c | c in s[1..] ensures c in s {
        var k :| 1 <= k < |s| && s[k] == c;
      }
    }
  }

  /** Every piece of a whitespace-only string is whitespace-only. */
  lemma SplitAllSpace(s: string, sep: string)
    requires |sep| > 0 && AllSpace(s)
    ensures forall p :: p in Split(s, sep) ==> AllSpace(p)
  {
    SplitFromChars(s, sep, "");
  }

  lemma {:induction false} LStripProps(s: string)
    ensures LStrip(s) == "" <==> AllSpace(s)
    ensures LStrip(s) != "" ==> !IsSpace(LStrip(s)[0])
    ensures |LStrip(s)| <= |s| && LStrip(s) == s[|s| - |LStrip(s)|..]
    decreases |s|
  {
    if |s| > 0 && IsSpace(s[0]) {
      LStripProps(s[1..]);
      assert s == [s[0]] + s[1..];
      if AllSpace(s[1..]) {
        forall c | c in s ensures IsSpace(c) { if c != s[0] { assert c in s[1..]; } }
      }
    } else if |s| > 0 {
      assert s[0] in s;
    }
  }

  lemma {:induction false} RStripProps(s: string)
    ensures RStrip(s) == "" <==> AllSpace(s)
    ensures RStrip(s) != "" ==> !IsSpace(RStrip(s)[|RStrip(s)| - 1])
    ensures |RStrip(s)| <= |s| && RStrip(s) == s[..|RStrip(s)|]
    decreases |s|
  {
    if |s| > 0 && IsSpace(s[|s| - 1]) {
      var t := s[..|s| - 1];
      RStripProps(t);
      assert s == t + [s[|s| - 1]];
      if AllSpace(t) {
        forall c | c in s ensures IsSpace(c) { if c != s[|s| - 1] { assert c in t; } }
      }
    } else if |s| > 0 {
      assert s[|s| - 1] in s;
    }
  }

  /** `s.strip()` is empty exactly for whitespace-only strings; otherwise it
      neither starts nor ends with whitespace, and it is a piece of `s`. */
  lemma StripProps(s: string)
    ensures Strip(s) == "" <==> AllSpace(s)
    ensures Strip(s) != "" ==> !IsSpace(Strip(s)[0]) && !IsSpace(Strip(s)[|Strip(s)| - 1])
    ensures |Strip(s)| <= |s|
    ensures forall c :: c in Strip(s) ==> c in s
  {
    RStripProps(s);
    var r := RStrip(s);
    LStripProps(r);
    if r != "" {
      assert r[|r| - 1] in r;
    }
    var t := LStrip(r);
    if t != "" {
      assert t == r[|r| - |t|..];
      assert t[|t| - 1] == r[|r| - 1];
    }
    forall c | c in t ensures c in s {
      var k :| 0 <= k < |t| && t[k] == c;
      assert r[|r| - |t| + k] == c;
      assert s[|r| - |t| + k] == c;
    }
  }

  /** A string that neither starts nor ends with whitespace is its own strip. */
  lemma StripKeeps(s: string)
    requires s != "" && !IsSpace(s[0]) && !IsSpace(s[|s| - 1])
    ensures Strip(s) == s
  {
    assert RStrip(s) == s;
    assert LStrip(s) == s;
  }

  /** `"".join` distributes over concatenation of the part lists. */
  lemma {:induction false} ConcatAppend<T>(a: seq<seq<T>>, b: seq<seq<T>>)
    ensures Concat(a + b) == Concat(a) + Concat(b)
    decreases |b|
  {
    if b == [] {
      assert a + b == a;
    } else {
      var b' := b[..|b| - 1];
      assert (a + b)[..|a + b| - 1] == a + b';
      ConcatAppend(a, b');
    }
  }

  lemma {:induction false} RStripSpaces(s: string, after: string)
    requires s != [] && !IsSpace(s[|s| - 1]) && AllSpace(after)
    ensures RStrip(s + after) == s
    decreases |after|
  {
    if after == [] {
      assert s + after == s;
    } else {
      var rest := after[..|after| - 1];
      assert (s + after)[..|s + after| - 1] == s + rest;
      assert after[|after| - 1] in after;
      assert AllSpace(rest) by {
        forall c | c in rest ensures IsSpace(c) {
          var k :| 0 <= k < |rest| && rest[k] == c;
          assert after[k] == c;
        }
      }
      RStripSpaces(s, rest);
    }
  }

  lemma {:induction false} LStripSpaces(before: string, s: string)
    requires s != [] && !IsSpace(s[0]) && AllSpace(before)
    ensures LStrip(before + s) == s
    decreases |before|
  {
    if before == [] {
      assert before + s == s;
    } else {
      assert (before + s)[1..] == before[1..] + s;
      assert before[0] in before;
      assert AllSpace(before[1..]) by {
        forall c | c in before[1..] ensures IsSpace(c) {
          var k :| 0 <= k < |before[1..]| && before[1..][k] == c;
          assert before[k + 1] == c;
        }
      }
      LStripSpaces(before[1..], s);
    }
  }

  /** Stripping removes exactly the whitespace around a text that neither
      starts nor ends with whitespace. */
  lemma StripPadded(before: string, s: string, after: string)
    requires s != [] && !IsSpace(s[0]) && !IsSpace(s[|s| - 1])
    requires AllSpace(before) && AllSpace(after)
    ensures Strip(before + s + after) == s
  {
    RStripSpaces(before + s, after);
    LStripSpaces(before, s);
  }

  lemma AppendAssoc<T>(a: seq<T>, b: seq<T>, c: seq<T>)
    ensures (a + b) + c == a + (b + c)
  {
  }

  /** Extending the prefix by one part appends that part. */
  lemma ConcatSnoc<T>(parts: seq<seq<T>>, i: nat)
    requires i < |parts|
    ensures Concat(parts[..i + 1]) == Concat(parts[..i]) + parts[i]
  {
    assert parts[..i + 1][..i] == parts[..i];
  }

  /** The concatenation of a prefix of the parts is a prefix of the
      concatenation, and the part after it starts right where it ends. */
  lemma ConcatPrefix<T>(parts: seq<seq<T>>, k: nat)
    requires k < |parts|
    ensures Concat(parts[..k]) + parts[k] <= Concat(parts)
  {
    var head, rest := parts[..k + 1], parts[k + 1..];
    assert parts == head + rest;
    ConcatAppend(head, rest);
    ConcatSnoc(parts, k);
    var c := Concat(parts[..k]) + parts[k];
    assert Concat(parts) == c + Concat(rest);
    assert (c + Concat(rest))[..|c|] == c;
  }

  /** Indexing a sequence extended by one element. */
  lemma SnocIndex<T>(prev: seq<T>, last: T, i: nat)
    requires i <= |prev|
    ensures (prev + [last])[i] == if i < |prev| then prev[i] else last
  {
  }

  /** Appending keeps the earlier elements. */
  lemma SnocPrev<T>(prev: seq<T>, last: T, i: nat)
    requires i < |prev|
    ensures (prev + [last])[i] == prev[i]
  {
  }

  /** Appending puts `last` at the end. */
  lemma SnocLast<T>(prev: seq<T>, last: T)
    ensures (prev + [last])[|prev|] == last
  {
  }

  /** The concatenation of two parts. */
  lemma ConcatPair<T>(a: seq<T>, b: seq<T>)
    ensures Concat([a, b]) == a + b
    ensures Concat([b]) == b
  {
    assert [a, b][..1] == [a];
    assert [a][..0] == [] && [b][..0] == [];
    assert Concat([a]) == a;
    assert Concat([a, b]) == Concat([a]) + b;
  }

  lemma StartsWithSelf(s: string)
    ensures StartsWith(s, s)
  {
  }

  /** Appending keeps every prefix. */
  lemma PrefixOfAppend(s: string, t: string, p: string)
    requires StartsWith(s, p)
    ensures StartsWith(s + t, p)
  {
    assert (s + t)[..|p|] == s[..|p|];
  }

  /** A prefix of a prefix is a prefix. */
  lemma StartsWithTrans(s: string, t: string, p: string)
    requires StartsWith(s, t) && StartsWith(t, p)
    ensures StartsWith(s, p)
  {
    assert s[..|p|] == s[..|t|][..|p|];
  }

  /** A joined list of lines starts with its first line. */
  lemma JoinStartsWithFirst(parts: seq<string>, sep: string)
    requires |parts| > 0
    ensures StartsWith(Join(parts, sep), parts[0])
  {
    if |parts| > 1 {
      assert Join(parts, sep) == parts[0] + (sep + Join(parts[1..], sep));
    }
  }
}
