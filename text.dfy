/** The string operations the components use: `split` on one character,
    `join`, `trim`, the newline-to-`<br/>` replacement and the `filter` that
    drops empty parts. `split` and `join` follow JavaScript exactly (splitting
    the empty string gives one empty part; joining no parts gives ""); `trim`
    works over the explicit whitespace set `IsSpace`. */
module Text {

  /** The characters `trim` removes: ASCII whitespace (space, tab, line feed,
      vertical tab, form feed, carriage return) plus no-break space, the byte
      order mark and the Unicode line and paragraph separators. The other
      Unicode space separators are not in the set. */
  predicate IsSpace(c: char)
  {
    c == ' ' || c == '\t' || c == '\n' || c == '\U{000B}' || c == '\U{000C}' || c == '\r'
    || c == '\U{00A0}' || c == '\U{FEFF}' || c == '\U{2028}' || c == '\U{2029}'
  }

  /** A string with no whitespace at either end. */
  predicate Trimmed(s: string)
  {
    s == "" || (!IsSpace(s[0]) && !IsSpace(s[|s| - 1]))
  }

  /** Number of occurrences of `c` in `s`. */
  function Count(s: string, c: char): nat
  {
    if s == [] then 0 else (if s[0] == c then 1 else 0) + Count(s[1..], c)
  }

  /** `s.split(sep)`: the maximal separator-free pieces between occurrences
      of `sep`, one more piece than there are separators. */
  function Split(s: string, sep: char): (parts: seq<string>)
    ensures |parts| == Count(s, sep) + 1
    ensures forall i :: 0 <= i < |parts| ==> sep !in parts[i]
    decreases |s|
  {
    if s == [] then [""]
    else
      var rest := Split(s[1..], sep);
      if s[0] == sep then [""] + rest
      else [[s[0]] + rest[0]] + rest[1..]
  }

  /** `xs.join(sep)`. */
  function Join(xs: seq<string>, sep: string): string
  {
    if |xs| == 0 then ""
    else if |xs| == 1 then xs[0]
    else xs[0] + sep + Join(xs[1..], sep)
  }

  /** `s.trimStart()`: drops the leading whitespace, keeping a suffix of `s`. */
  function TrimStart(s: string): (r: string)
    ensures |r| <= |s| && r == s[|s| - |r|..]
    ensures forall i :: 0 <= i < |s| - |r| ==> IsSpace(s[i])
    ensures r == "" || !IsSpace(r[0])
  {
    if |s| > 0 && IsSpace(s[0]) then TrimStart(s[1..]) else s
  }

  /** `s.trimEnd()`: drops the trailing whitespace, keeping a prefix of `s`. */
  function TrimEnd(s: string): (r: string)
    ensures |r| <= |s| && r == s[..|r|]
    ensures forall i :: |r| <= i < |s| ==> IsSpace(s[i])
    ensures r == "" || !IsSpace(r[|r| - 1])
  {
    if |s| > 0 && IsSpace(s[|s| - 1]) then TrimEnd(s[..|s| - 1]) else s
  }

  /** `r` is the part of `s` starting at `i`, and only whitespace lies
      before it and after it. */
  predicate Inner(s: string, i: int, r: string)
  {
    && 0 <= i <= |s| - |r| && r == s[i..i + |r|]
    && (forall k :: 0 <= k < i ==> IsSpace(s[k]))
    && (forall k :: i + |r| <= k < |s| ==> IsSpace(s[k]))
  }

  /** `s.trim()`: the part of `s` left after dropping its leading and its
      trailing whitespace. */
  function Trim(s: string): (r: string)
    ensures Trimmed(r)
    ensures exists i :: Inner(s, i, r)
    ensures forall c :: c in r ==> c in s
  {
    var t := TrimStart(s);
    var r := TrimEnd(t);
    TrimInner(s);
    assert r != "" ==> r[0] == t[0];
    r
  }

  /** Trimming the start and then the end leaves an inner part of `s`. */
  lemma TrimInner(s: string)
    ensures Inner(s, |s| - |TrimStart(s)|, TrimEnd(TrimStart(s)))
  {
    InnerOfSuffixPrefix(s, TrimStart(s), TrimEnd(TrimStart(s)));
  }

  /** A prefix `r` of a suffix `t` of `s` is an inner part of `s` when only
      whitespace was cut off at either end. */
  lemma InnerOfSuffixPrefix(s: string, t: string, r: string)
    requires |t| <= |s| && t == s[|s| - |t|..]
    requires |r| <= |t| && r == t[..|r|]
    requires forall k :: 0 <= k < |s| - |t| ==> IsSpace(s[k])
    requires forall k :: |r| <= k < |t| ==> IsSpace(t[k])
    ensures Inner(s, |s| - |t|, r)
  {
    var i := |s| - |t|;
    assert r == s[i..i + |r|];
    forall k | i + |r| <= k < |s| ensures IsSpace(s[k]) {
      assert s[k] == t[k - i];
    }
  }

  /** `xs.map(x => x.trim())`. */
  function TrimAll(xs: seq<string>): (r: seq<string>)
    ensures |r| == |xs|
    ensures forall i :: 0 <= i < |xs| ==> r[i] == Trim(xs[i])
  {
    if xs == [] then [] else [Trim(xs[0])] + TrimAll(xs[1..])
  }

  /** `xs.filter(x => x)`: the non-empty strings of `xs`, in order. */
  function DropEmpty(xs: seq<string>): (r: seq<string>)
    ensures forall i :: 0 <= i < |r| ==> r[i] != ""
    ensures forall x :: x in r ==> x in xs
    ensures forall x :: x != "" && x in xs ==> x in r
    ensures (forall i :: 0 <= i < |xs| ==> xs[i] != "") ==> r == xs
  {
    if xs == [] then []
    else if xs[0] == "" then DropEmpty(xs[1..])
    else [xs[0]] + DropEmpty(xs[1..])
  }

  /** `s.replace(/\n/g, '<br/>')`. */
  function ReplaceNewlines(s: string): string
  {
    if s == [] then ""
    else (if s[0] == '\n' then "<br/>" else [s[0]]) + ReplaceNewlines(s[1..])
  }

  // ---------------------------------------------------------------------
  // split and join

  /** Joining the pieces of a split with the separator gives back the input. */
  lemma {:induction false} JoinSplit(s: string, c: char)
    ensures Join(Split(s, c), [c]) == s
    decreases |s|
  {
    if s != [] {
      var rest := Split(s[1..], c);
      JoinSplit(s[1..], c);
      if s[0] != c && |rest| > 1 {
        assert Join(rest, [c]) == rest[0] + [c] + Join(rest[1..], [c]);
        assert Split(s, c)[1..] == rest[1..];
      }
    }
  }

  /** A separator-free string splits into itself alone. */
  lemma {:induction false} SplitFree(y: string, c: char)
    requires c !in y
    ensures Split(y, c) == [y]
    decreases |y|
  {
    if y != [] {
      SplitFree(y[1..], c);
      assert [y[0]] + y[1..] == y;
    }
  }

  /** Splitting after a separator-free first piece. */
  lemma {:induction false} SplitCons(y: string, c: char, t: string)
    requires c !in y
    ensures Split(y + [c] + t, c) == [y] + Split(t, c)
    decreases |y|
  {
    var s := y + [c] + t;
    if y == [] {
      assert s[1..] == t;
    } else {
      assert s[1..] == y[1..] + [c] + t;
      SplitCons(y[1..], c, t);
      assert [y[0]] + y[1..] == y;
    }
  }

  /** Splitting a join of separator-free pieces gives back the pieces. */
  lemma {:induction false} SplitJoin(ys: seq<string>, c: char)
    requires |ys| >= 1
    requires forall i :: 0 <= i < |ys| ==> c !in ys[i]
    ensures Split(Join(ys, [c]), c) == ys
    decreases |ys|
  {
    if |ys| == 1 {
      SplitFree(ys[0], c);
    } else {
      SplitJoin(ys[1..], c);
      SplitCons(ys[0], c, Join(ys[1..], [c]));
      assert [ys[0]] + ys[1..] == ys;
    }
  }

  /** What the last piece of a split is: the separator-free tail of `s`,
      preceded by a separator when there is one, and all of `s` otherwise. */
  lemma {:induction false} LastPiece(s: string, c: char)
    ensures var parts := Split(s, c); var l := parts[|parts| - 1];
      && c !in l
      && |l| <= |s| && s[|s| - |l|..] == l
      && (c !in s ==> l == s)
      && (c in s ==> |l| < |s| && s[|s| - |l| - 1] == c)
    decreases |s|
  {
    if s != [] {
      var rest := Split(s[1..], c);
      LastPiece(s[1..], c);
      var l' := rest[|rest| - 1];
      assert s[1..][|s| - 1 - |l'|..] == s[|s| - |l'|..];
      if s[0] != c {
        if |rest| == 1 {
          JoinSplit(s[1..], c);
          assert [s[0]] + s[1..] == s;
        } else if c !in s[1..] {
          SplitFree(s[1..], c);
        }
      }
    }
  }

  // ---------------------------------------------------------------------
  // trim

  /** `trim` leaves a string without surrounding whitespace unchanged. */
  lemma TrimOfTrimmed(x: string)
    requires Trimmed(x)
    ensures Trim(x) == x
  {
  }

  /** `trim` removes the one space that `join(", ")` puts before a piece. */
  lemma TrimOfPadded(x: string)
    requires x != "" && Trimmed(x)
    ensures Trim(" " + x) == x
  {
    assert (" " + x)[1..] == x;
  }

  // ---------------------------------------------------------------------
  // filter

  /** The filter keeps the order of the parts: filtering a concatenation is
      concatenating the filtered halves. */
  lemma {:induction false} DropEmptyAppend(a: seq<string>, b: seq<string>)
    ensures DropEmpty(a + b) == DropEmpty(a) + DropEmpty(b)
    decreases |a|
  {
    if a != [] {
      assert (a + b)[1..] == a[1..] + b;
      DropEmptyAppend(a[1..], b);
    } else {
      assert a + b == b;
    }
  }

  /** `filter` drops exactly the empty parts: `["a", "", "b"]` becomes
      `["a", "b"]`. */
  lemma DropEmptyExample()
    ensures DropEmpty(["a", "", "b"]) == ["a", "b"]
  {
    DropEmptyAppend(["a", ""], ["b"]);
    DropEmptyAppend(["a"], [""]);
  }

  // ---------------------------------------------------------------------
  // newline replacement

  /** The HTML rendering of a message contains no line feed. */
  lemma {:induction false} ReplaceNewlinesRemovesAll(s: string)
    ensures '\n' !in ReplaceNewlines(s)
    decreases |s|
  {
    if s != [] {
      ReplaceNewlinesRemovesAll(s[1..]);
    }
  }

  /** Each line feed grows into the five characters of `<br/>`. */
  lemma {:induction false} ReplaceNewlinesLength(s: string)
    ensures |ReplaceNewlines(s)| == |s| + 4 * Count(s, '\n')
    decreases |s|
  {
    if s != [] {
      ReplaceNewlinesLength(s[1..]);
    }
  }

  /** A message without line feeds is rendered verbatim. */
  lemma {:induction false} ReplaceNewlinesIdentity(s: string)
    requires '\n' !in s
    ensures ReplaceNewlines(s) == s
    decreases |s|
  {
    if s != [] {
      ReplaceNewlinesIdentity(s[1..]);
      assert [s[0]] + s[1..] == s;
    }
  }

  /** The replacement works piece by piece: rendering a concatenation is
      concatenating the renderings. */
  lemma {:induction false} ReplaceNewlinesAppend(a: string, b: string)
    ensures ReplaceNewlines(a + b) == ReplaceNewlines(a) + ReplaceNewlines(b)
    decreases |a|
  {
    if a != [] {
      assert (a + b)[1..] == a[1..] + b;
      ReplaceNewlinesAppend(a[1..], b);
    } else {
      assert a + b == b;
    }
  }
}
