/** The Python `str` operations the modelled code relies on, over `seq<char>`:
    the `in` operator, `lower()`, `strip()`, `split()` with no argument and
    `sep.join(parts)`. `SplitOn`, splitting at one character, is no operation
    of the modelled code: it states the line structure of a joined text.
    Whitespace and case are those of the ASCII range. */
module Text {

  /** `str.isspace()` on ASCII: space, tab, line feed, vertical tab, form feed,
      carriage return and the four separators 0x1C-0x1F */
  predicate IsSpace(c: char) {
    c == ' ' || '\t' <= c <= '\r' || '\U{1C}' <= c <= '\U{1F}'
  }

  function LowerChar(c: char): char {
    if 'A' <= c <= 'Z' then (c as int + 32) as char else c
  }

  /** `str.lower()` on ASCII letters; every other character is kept */
  function Lower(s: string): (r: string)
    ensures |r| == |s|
    ensures forall i :: 0 <= i < |s| ==> r[i] == LowerChar(s[i])
  {
    seq(|s|, i requires 0 <= i < |s| => LowerChar(s[i]))
  }

  // ---------------------------------------------------------------------
  // `sub in s`

  /** `sub` starts at position `i` of `s` */
  ghost predicate OccursAt(s: string, sub: string, i: int) {
    0 <= i && i + |sub| <= |s| && s[i..i + |sub|] == sub
  }

  /** Python's substring test `sub in s` */
  function Contains(s: string, sub: string): (r: bool)
    ensures r ==> |sub| <= |s|
    ensures sub <= s ==> r
    decreases |s|
  {
    if |s| < |sub| then false
    else if s[..|sub|] == sub then true
    else |s| > 0 && Contains(s[1..], sub)
  }

  /** `sub in s` holds exactly when `sub` occurs at some position of `s` */
  lemma ContainsIff(s: string, sub: string)
    ensures Contains(s, sub) <==> exists i :: OccursAt(s, sub, i)
  {
    if Contains(s, sub) {
      var i := ContainsAt(s, sub);
    }
    forall i | OccursAt(s, sub, i)
      ensures Contains(s, sub)
    {
      OccursContains(s, sub, i);
    }
  }

  /** Where `sub in s` found `sub` */
  lemma {:induction false} ContainsAt(s: string, sub: string) returns (i: int)
    requires Contains(s, sub)
    ensures OccursAt(s, sub, i)
    decreases |s|
  {
    if s[..|sub|] == sub {
      i := 0;
    } else {
      var j := ContainsAt(s[1..], sub);
      assert s[1..][j..j + |sub|] == s[j + 1..j + 1 + |sub|];
      i := j + 1;
    }
  }

  /** An occurrence anywhere makes `sub in s` true */
  lemma {:induction false} OccursContains(s: string, sub: string, i: int)
    requires OccursAt(s, sub, i)
    ensures Contains(s, sub)
    decreases i
  {
    if s[..|sub|] != sub {
      assert i > 0;
      assert s[1..][i - 1..i - 1 + |sub|] == s[i..i + |sub|];
      OccursContains(s[1..], sub, i - 1);
    }
  }

  /** The empty string is a substring of every string */
  lemma EmptyIsContained(s: string)
    ensures Contains(s, "")
  {
  }

  // ---------------------------------------------------------------------
  // `s.startswith(p)` is `p <= s`; `s.endswith(p)`:

  predicate EndsWith(s: string, suffix: string) {
    |suffix| <= |s| && s[|s| - |suffix|..] == suffix
  }

  // ---------------------------------------------------------------------
  // `s.strip()`

  function TrimStart(s: string): (r: string)
    ensures |r| <= |s| && r == s[|s| - |r|..]
    ensures forall k :: 0 <= k < |s| - |r| ==> IsSpace(s[k])
    ensures r == [] || !IsSpace(r[0])
    decreases |s|
  {
    if |s| > 0 && IsSpace(s[0]) then TrimStart(s[1..]) else s
  }

  function TrimEnd(s: string): (r: string)
    ensures |r| <= |s| && r == s[..|r|]
    ensures forall k :: |r| <= k < |s| ==> IsSpace(s[k])
    ensures r == [] || !IsSpace(r[|r| - 1])
    decreases |s|
  {
    if |s| > 0 && IsSpace(s[|s| - 1]) then TrimEnd(s[..|s| - 1]) else s
  }

  /** `r` is the piece of `s` that starts at position `a` */
  ghost predicate InfixAt(s: string, r: string, a: int) {
    0 <= a && a + |r| <= |s| && r == s[a..a + |r|]
  }

  /** `r` is the piece of `s` at position `a`, and everything of `s` before and
      after it is whitespace */
  ghost predicate TrimmedAt(s: string, r: string, a: int) {
    && InfixAt(s, r, a)
    && (forall k :: 0 <= k < a ==> IsSpace(s[k]))
    && (forall k :: a + |r| <= k < |s| ==> IsSpace(s[k]))
  }

  /** A piece of a piece of `s` is a piece of `s` */
  lemma InfixOfInfix(s: string, t: string, u: string, a: int, b: int)
    requires InfixAt(s, t, a) && InfixAt(t, u, b)
    ensures InfixAt(s, u, a + b)
  {
    forall k | 0 <= k < |u|
      ensures u[k] == s[a + b + k]
    {
      assert u[k] == t[b + k];
    }
  }

  /** `s.strip()`: only whitespace was removed, from both ends, and neither end
      of the result is whitespace */
  function Strip(s: string): (r: string)
    ensures |r| <= |s|
    ensures exists a :: TrimmedAt(s, r, a)
    ensures r == [] || (!IsSpace(r[0]) && !IsSpace(r[|r| - 1]))
  {
    var t := TrimStart(s);
    var r := TrimEnd(t);
    TrimmedBothEnds(s, t, r);
    r
  }

  /** Whitespace cut from the front and then from the back leaves a piece
      with only whitespace around it */
  lemma TrimmedBothEnds(s: string, t: string, r: string)
    requires |t| <= |s| && t == s[|s| - |t|..]
    requires forall k :: 0 <= k < |s| - |t| ==> IsSpace(s[k])
    requires |r| <= |t| && r == t[..|r|]
    requires forall k :: |r| <= k < |t| ==> IsSpace(t[k])
    ensures TrimmedAt(s, r, |s| - |t|)
  {
    var a := |s| - |t|;
    forall k | a + |r| <= k < |s|
      ensures IsSpace(s[k])
    {
      assert s[k] == t[k - a];
    }
  }

  /** Where the result of `strip()` starts in the input */
  ghost function StripStart(s: string): (a: int)
    ensures InfixAt(s, Strip(s), a)
  {
    |s| - |TrimStart(s)|
  }

  /** A string whose ends are not whitespace is left as it is by `strip()` */
  lemma StripUntrimmed(s: string)
    requires s == [] || (!IsSpace(s[0]) && !IsSpace(s[|s| - 1]))
    ensures Strip(s) == s
  {
  }

  /** `strip()` is idempotent */
  lemma StripIdempotent(s: string)
    ensures Strip(Strip(s)) == Strip(s)
  {
    StripUntrimmed(Strip(s));
  }

  // ---------------------------------------------------------------------
  // `s.split()` with no argument: maximal runs of non-whitespace

  predicate IsWord(w: string) {
    |w| > 0 && forall k :: 0 <= k < |w| ==> !IsSpace(w[k])
  }

  /** Length of the leading run of non-whitespace characters */
  function WordEnd(s: string): (n: nat)
    ensures n <= |s|
    ensures forall k :: 0 <= k < n ==> !IsSpace(s[k])
    ensures n < |s| ==> IsSpace(s[n])
  {
    if |s| == 0 || IsSpace(s[0]) then 0 else 1 + WordEnd(s[1..])
  }

  function Words(s: string): (ws: seq<string>)
    ensures forall i :: 0 <= i < |ws| ==> IsWord(ws[i])
    decreases |s|
  {
    if |s| == 0 then []
    else if IsSpace(s[0]) then Words(s[1..])
    else
      var n := WordEnd(s);
      [s[..n]] + Words(s[n..])
  }

  lemma {:induction false} WordEndOfConcat(w: string, t: string)
    requires forall k :: 0 <= k < |w| ==> !IsSpace(w[k])
    requires t == [] || IsSpace(t[0])
    ensures WordEnd(w + t) == |w|
    decreases |w|
  {
    if |w| > 0 {
      assert (w + t)[1..] == w[1..] + t;
      WordEndOfConcat(w[1..], t);
    } else {
      assert w + t == t;
    }
  }

  /** Splitting words joined by single spaces gives the words back */
  lemma {:induction false} WordsOfJoin(ws: seq<string>)
    requires forall i :: 0 <= i < |ws| ==> IsWord(ws[i])
    ensures Words(Join(ws, " ")) == ws
    decreases |ws|
  {
    if |ws| == 1 {
      var w := ws[0];
      WordEndOfConcat(w, []);
      assert w + [] == w;
      assert w[|w|..] == [];
    } else if |ws| > 1 {
      var w, rest := ws[0], Join(ws[1..], " ");
      var s := w + " " + rest;
      assert s == w + (" " + rest);
      WordEndOfConcat(w, " " + rest);
      assert s[..|w|] == w;
      assert s[|w|..] == " " + rest;
      assert (" " + rest)[1..] == rest;
      WordsOfJoin(ws[1..]);
      assert ws == [w] + ws[1..];
    }
  }

  /** Every character of `g` is whitespace */
  predicate AllSpace(g: string) {
    forall k :: 0 <= k < |g| ==> IsSpace(g[k])
  }

  /** `gaps[0] + ws[0] + gaps[1] + ... + ws[n - 1] + gaps[n]` */
  function Interleave(gaps: seq<string>, ws: seq<string>): string
    requires |gaps| == |ws| + 1
    decreases |ws|
  {
    if ws == [] then gaps[0]
    else gaps[0] + ws[0] + Interleave(gaps[1..], ws[1..])
  }

  /** `ws` are words and `gaps` the whitespace around and between them: the
      gaps between two words are not empty, the outer two may be */
  predicate Spacing(gaps: seq<string>, ws: seq<string>) {
    && |gaps| == |ws| + 1
    && (forall i :: 0 <= i < |gaps| ==> AllSpace(gaps[i]))
    && (forall i :: 0 < i < |ws| ==> |gaps[i]| > 0)
    && (forall i :: 0 <= i < |ws| ==> IsWord(ws[i]))
  }

  /** Leading whitespace does not change the words */
  lemma {:induction false} WordsAfterSpace(g: string, t: string)
    requires AllSpace(g)
    ensures Words(g + t) == Words(t)
    decreases |g|
  {
    if g != [] {
      assert (g + t)[1..] == g[1..] + t;
      WordsAfterSpace(g[1..], t);
    } else {
      assert g + t == t;
    }
  }

  /** A word followed by nothing or by whitespace is the first word */
  lemma WordsAfterWord(w: string, t: string)
    requires IsWord(w) && (t == [] || IsSpace(t[0]))
    ensures Words(w + t) == [w] + Words(t)
  {
    WordEndOfConcat(w, t);
    assert (w + t)[..|w|] == w;
    assert (w + t)[|w|..] == t;
  }

  /** `split()` gives back exactly the words of any text built from words and
      whitespace gaps */
  lemma {:induction false} WordsOfInterleave(gaps: seq<string>, ws: seq<string>)
    requires Spacing(gaps, ws)
    ensures Words(Interleave(gaps, ws)) == ws
    decreases |ws|
  {
    if ws == [] {
      WordsAfterSpace(gaps[0], []);
      assert gaps[0] + [] == gaps[0];
    } else {
      var rest := Interleave(gaps[1..], ws[1..]);
      assert Spacing(gaps[1..], ws[1..]) by {
        forall i | 0 < i < |ws| - 1
          ensures |gaps[1..][i]| > 0
        {
          assert gaps[1..][i] == gaps[i + 1];
        }
      }
      WordsOfInterleave(gaps[1..], ws[1..]);
      if |ws| > 1 {
        assert gaps[1..][0] == gaps[1];
        assert rest == gaps[1] + ws[1] + Interleave(gaps[2..], ws[2..]) by {
          assert gaps[1..][1..] == gaps[2..];
        }
        assert rest[0] == gaps[1][0];
      }
      WordsAfterWord(ws[0], rest);
      assert gaps[0] + ws[0] + rest == gaps[0] + (ws[0] + rest);
      WordsAfterSpace(gaps[0], ws[0] + rest);
      assert ws == [ws[0]] + ws[1..];
    }
  }

  /** Every text is its words interleaved with whitespace gaps, so together
      with `WordsOfInterleave` this fixes `split()` on every input: the words
      are the maximal runs of non-whitespace, in order */
  lemma {:induction false} WordsDecompose(s: string) returns (gaps: seq<string>)
    ensures Spacing(gaps, Words(s))
    ensures Interleave(gaps, Words(s)) == s
    decreases |s|
  {
    if |s| == 0 {
      gaps := [""];
    } else if IsSpace(s[0]) {
      var g := WordsDecompose(s[1..]);
      gaps := SpaceInFront(s[0], s[1..], g, Words(s[1..]));
      assert s == [s[0]] + s[1..];
    } else {
      var n := WordEnd(s);
      var g := WordsDecompose(s[n..]);
      gaps := WordInFront(s[..n], s[n..], g, Words(s[n..]));
      assert s == s[..n] + s[n..];
    }
  }

  /** Whitespace in front of a text joins its first gap */
  lemma SpaceInFront(c: char, t: string, g: seq<string>, ws: seq<string>) returns (gaps: seq<string>)
    requires IsSpace(c) && Spacing(g, ws) && Interleave(g, ws) == t
    ensures Spacing(gaps, ws) && Interleave(gaps, ws) == [c] + t
  {
    gaps := [[c] + g[0]] + g[1..];
    assert gaps[1..] == g[1..];
    if ws != [] {
      assert Interleave(g, ws) == g[0] + ws[0] + Interleave(g[1..], ws[1..]);
    }
  }

  /** A word in front of a text that is empty or starts with whitespace becomes
      its first word, after an empty gap */
  lemma WordInFront(w: string, t: string, g: seq<string>, ws: seq<string>) returns (gaps: seq<string>)
    requires IsWord(w) && (t == [] || IsSpace(t[0]))
    requires Spacing(g, ws) && Interleave(g, ws) == t
    ensures Spacing(gaps, [w] + ws) && Interleave(gaps, [w] + ws) == w + t
  {
    gaps := [""] + g;
    assert gaps[1..] == g;
    assert ([w] + ws)[1..] == ws;
    if ws != [] {
      assert t == g[0] + ws[0] + Interleave(g[1..], ws[1..]);
    }
  }

  // ---------------------------------------------------------------------
  // `sep.join(parts)` and `s.split(c)`

  /** `sep.join(parts)` */
  function Join(parts: seq<string>, sep: string): string
    decreases |parts|
  {
    if |parts| == 0 then ""
    else if |parts| == 1 then parts[0]
    else parts[0] + sep + Join(parts[1..], sep)
  }

  /** A join is empty for no parts; otherwise it starts with the first part
      and ends with the last */
  lemma {:induction false} JoinEnds(parts: seq<string>, sep: string)
    ensures |parts| == 0 ==> Join(parts, sep) == ""
    ensures |parts| > 0 ==> parts[0] <= Join(parts, sep) && EndsWith(Join(parts, sep), parts[|parts| - 1])
    decreases |parts|
  {
    if |parts| > 1 {
      var rest := Join(parts[1..], sep);
      JoinEnds(parts[1..], sep);
      var r := parts[0] + sep + rest;
      assert r[|r| - |rest|..] == rest;
      assert EndsWith(r, parts[1..][|parts| - 2]);
    }
  }

  /** Index of the first occurrence of `c` in `s` */
  function IndexOf(s: string, c: char): (i: nat)
    requires c in s
    ensures i < |s| && s[i] == c && c !in s[..i]
  {
    if s[0] == c then 0
    else
      assert s == [s[0]] + s[1..];
      var j := IndexOf(s[1..], c);
      assert s[..j + 1] == [s[0]] + s[1..][..j];
      j + 1
  }

  /** `s.split(c)` for a one-character separator `c`: always at least one part */
  function SplitOn(s: string, c: char): (parts: seq<string>)
    ensures |parts| >= 1
    decreases |s|
  {
    if c !in s then [s]
    else
      var i := IndexOf(s, c);
      [s[..i]] + SplitOn(s[i + 1..], c)
  }

  /** The first `c` of `p + [c] + rest`, for `p` free of `c`, is the one after `p` */
  lemma FirstSeparator(p: string, c: char, rest: string)
    requires c !in p
    ensures SplitOn(p + [c] + rest, c) == [p] + SplitOn(rest, c)
  {
    var s := p + [c] + rest;
    assert s[|p|] == c;
    var i := IndexOf(s, c);
    assert i == |p|;
    assert s[..i] == p;
    assert s[i + 1..] == rest;
  }

  /** Joining parts free of `c` with `c` and splitting on `c` again gives the parts back */
  lemma {:induction false} SplitOnJoin(parts: seq<string>, c: char)
    requires |parts| >= 1
    requires forall i :: 0 <= i < |parts| ==> c !in parts[i]
    ensures SplitOn(Join(parts, [c]), c) == parts
    decreases |parts|
  {
    if |parts| > 1 {
      var p, rest := parts[0], Join(parts[1..], [c]);
      FirstSeparator(p, c, rest);
      SplitOnJoin(parts[1..], c);
      assert parts == [p] + parts[1..];
    }
  }
}
