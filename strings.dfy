/** The Python string operations the log parser relies on: `strip`, `split`,
    `startswith`, `in`, `isdigit` and the code-point ordering used by `sorted`. */
module Strings {

  /** Python's `str.isspace` for one character: the code points that
      `strip()` and `split()` treat as whitespace. */
  predicate IsSpace(c: char)
  {
    var n := c as int;
    (9 <= n <= 13) || (28 <= n <= 32) || n == 0x85 || n == 0xA0 || n == 0x1680
    || (0x2000 <= n <= 0x200A) || n == 0x2028 || n == 0x2029 || n == 0x202F
    || n == 0x205F || n == 0x3000
  }

  predicate NoSpace(s: string)
  {
    forall i :: 0 <= i < |s| ==> !IsSpace(s[i])
  }

  predicate AllSpace(s: string)
  {
    forall i :: 0 <= i < |s| ==> IsSpace(s[i])
  }

  predicate IsDigit(c: char)
  {
    '0' <= c <= '9'
  }

  /** Python's `str.isdigit`, restricted to ASCII digits: true for a
      non-empty string of digits only. */
  predicate IsDigits(s: string)
  {
    |s| > 0 && forall i :: 0 <= i < |s| ==> IsDigit(s[i])
  }

  predicate StartsWith(s: string, prefix: string)
  {
    |prefix| <= |s| && s[..|prefix|] == prefix
  }

  /** Python's `sub in s`. */
  predicate Contains(s: string, sub: string)
    decreases |s|
  {
    StartsWith(s, sub) || (|s| > 0 && Contains(s[1..], sub))
  }

  /** A string containing `sub` contains every character of `sub`. */
  lemma {:induction false} ContainsChar(s: string, sub: string, k: nat)
    requires Contains(s, sub) && k < |sub|
    ensures sub[k] in s
    decreases |s|
  {
    if StartsWith(s, sub) {
      assert s[k] == sub[k];
    } else {
      ContainsChar(s[1..], sub, k);
      assert sub[k] in s[1..];
    }
  }

  /** Python's `s[n:]`: slicing past the end gives the empty string. */
  function Drop(s: string, n: nat): (r: string)
    ensures |r| == if n <= |s| then |s| - n else 0
    ensures forall i :: 0 <= i < |r| ==> r[i] == s[n + i]
  {
    if n <= |s| then s[n..] else ""
  }

  /** `s` without its leading whitespace. */
  function TrimStart(s: string): (r: string)
    ensures |r| <= |s|
    decreases |s|
  {
    if |s| > 0 && IsSpace(s[0]) then TrimStart(s[1..]) else s
  }

  /** TrimStart cuts a prefix of whitespace and stops at a non-whitespace
      character. */
  lemma {:induction false} TrimStartSlice(s: string)
    ensures var r := TrimStart(s); r == s[|s| - |r|..]
    ensures var r := TrimStart(s); forall i :: 0 <= i < |s| - |r| ==> IsSpace(s[i])
    ensures var r := TrimStart(s); r == [] || !IsSpace(r[0])
    decreases |s|
  {
    if |s| > 0 && IsSpace(s[0]) {
      TrimStartSlice(s[1..]);
      var r := TrimStart(s);
      forall i | 0 <= i < |s| - |r| ensures IsSpace(s[i]) {
        if i > 0 {
          assert s[i] == s[1..][i - 1];
        }
      }
    }
  }

  /** `s` without its trailing whitespace. */
  function TrimEnd(s: string): (r: string)
    ensures |r| <= |s|
    decreases |s|
  {
    if |s| > 0 && IsSpace(s[|s| - 1]) then TrimEnd(s[..|s| - 1]) else s
  }

  /** TrimEnd cuts a suffix of whitespace and stops at a non-whitespace
      character. */
  lemma {:induction false} TrimEndSlice(s: string)
    ensures var r := TrimEnd(s); r == s[..|r|]
    ensures var r := TrimEnd(s); forall i :: |r| <= i < |s| ==> IsSpace(s[i])
    ensures var r := TrimEnd(s); r == [] || !IsSpace(r[|r| - 1])
    decreases |s|
  {
    if |s| > 0 && IsSpace(s[|s| - 1]) {
      var init := s[..|s| - 1];
      TrimEndSlice(init);
      var r := TrimEnd(s);
      assert r == TrimEnd(init);
      forall i | |r| <= i < |s| ensures IsSpace(s[i]) {
        if i < |s| - 1 {
          assert s[i] == init[i];
        }
      }
      assert init[..|r|] == s[..|r|];
    }
  }

  /** Python's `str.strip()` with no argument. */
  function Strip(s: string): (r: string)
  {
    TrimEnd(TrimStart(s))
  }

  /** Strip removes exactly the whitespace at both ends: the result is the
      slice of the input that starts after the leading whitespace, what was
      cut is whitespace, and the result starts and ends with a
      non-whitespace character unless it is empty. */
  lemma StripSlice(s: string)
    ensures |s| - |TrimStart(s)| + |Strip(s)| <= |s|
    ensures Strip(s) == s[|s| - |TrimStart(s)|..|s| - |TrimStart(s)| + |Strip(s)|]
    ensures forall k :: |s| - |TrimStart(s)| + |Strip(s)| <= k < |s| ==> IsSpace(s[k])
    ensures Strip(s) == [] || (!IsSpace(Strip(s)[0]) && !IsSpace(Strip(s)[|Strip(s)| - 1]))
  {
    var t := TrimStart(s);
    var r := TrimEnd(t);
    var i := |s| - |t|;
    TrimStartSlice(s);
    TrimEndSlice(t);
    assert r == s[i..i + |r|] by {
      assert t == s[i..];
      assert r == t[..|r|];
    }
    forall k | i + |r| <= k < |s| ensures IsSpace(s[k]) {
      if k >= i {
        assert s[k] == t[k - i];
      }
    }
  }

  /** A line is blank (`not line.strip()`) exactly when it is all whitespace. */
  lemma StripEmpty(s: string)
    ensures Strip(s) == "" <==> AllSpace(s)
  {
    var t := TrimStart(s);
    TrimStartSlice(s);
    if Strip(s) == "" {
      TrimEndSlice(t);
      assert t == [];
    } else {
      StripSlice(s);
      var r, i := Strip(s), |s| - |t|;
      assert s[i] == r[0];
      assert !IsSpace(s[i]);
    }
  }

  /** Strip leaves alone a string with no whitespace at either end. */
  lemma StripUnchanged(s: string)
    requires s != [] && !IsSpace(s[0]) && !IsSpace(s[|s| - 1])
    ensures Strip(s) == s
  {
  }

  /** Length of the leading run of non-whitespace characters. */
  function WordLength(s: string): (k: nat)
    ensures k <= |s|
    ensures forall i :: 0 <= i < k ==> !IsSpace(s[i])
    ensures k < |s| ==> IsSpace(s[k])
    decreases |s|
  {
    if |s| == 0 || IsSpace(s[0]) then 0 else 1 + WordLength(s[1..])
  }

  /** Python's `str.split()` with no argument: the maximal runs of
      non-whitespace characters, in order. */
  function Split(s: string): (ws: seq<string>)
    ensures Words(ws)
    decreases |s|
  {
    TrimStartSlice(s);
    var t := TrimStart(s);
    if t == "" then []
    else
      var k := WordLength(t);
      var w, rest := t[..k], Split(t[k..]);
      WordsCons(w, rest);
      [w] + rest
  }

  lemma WordsCons(w: string, rest: seq<string>)
    requires w != "" && NoSpace(w) && Words(rest)
    ensures Words([w] + rest)
  {
    var ws := [w] + rest;
    forall j | 0 <= j < |ws| ensures ws[j] != "" && NoSpace(ws[j]) {
      if j > 0 { assert ws[j] == rest[j - 1]; }
    }
  }

  /** Words joined by single spaces, the layout of a log record. */
  function JoinWords(ws: seq<string>): string
    decreases |ws|
  {
    if |ws| == 0 then ""
    else if |ws| == 1 then ws[0]
    else ws[0] + (" " + JoinWords(ws[1..]))
  }

  predicate Words(ws: seq<string>)
  {
    forall j :: 0 <= j < |ws| ==> ws[j] != "" && NoSpace(ws[j])
  }

  /** A non-empty string of words joined by spaces begins with the first
      word's first character and ends with the last word's last character. */
  lemma JoinWordsEnds(ws: seq<string>)
    requires |ws| > 0 && Words(ws)
    ensures var j := JoinWords(ws); |j| > 0 && j[0] == ws[0][0] && j[|j| - 1] == ws[|ws| - 1][|ws[|ws| - 1]| - 1]
    decreases |ws|
  {
    if |ws| > 1 {
      JoinWordsEnds(ws[1..]);
    }
  }

  lemma TrimStartNoSpaceFirst(s: string)
    requires s != [] && !IsSpace(s[0])
    ensures TrimStart(s) == s
  {
  }

  /** Splitting words joined by spaces gives the words back. */
  lemma {:induction false} SplitJoinWords(ws: seq<string>)
    requires Words(ws)
    ensures Split(JoinWords(ws)) == ws
    decreases |ws|
  {
    if |ws| == 0 {
      SplitEmpty();
    } else if |ws| == 1 {
      SplitJoinSingle(ws);
    } else {
      SplitJoinStep(ws);
      SplitJoinWords(ws[1..]);
      ConsTail(ws);
    }
  }

  lemma SplitJoinSingle(ws: seq<string>)
    requires Words(ws) && |ws| == 1
    ensures Split(JoinWords(ws)) == ws
  {
    var w := ws[0];
    SplitWordThen(w, "");
    SplitEmpty();
    AppendEmpty(w);
    SingletonSeq(ws);
  }

  lemma SplitJoinStep(ws: seq<string>)
    requires Words(ws) && |ws| > 1
    ensures Words(ws[1..])
    ensures Split(JoinWords(ws)) == [ws[0]] + Split(JoinWords(ws[1..]))
  {
    var tail := ws[1..];
    forall j | 0 <= j < |tail| ensures tail[j] != "" && NoSpace(tail[j]) {
      assert tail[j] == ws[j + 1];
    }
    var rest := JoinWords(tail);
    var spaced := " " + rest;
    assert IsSpace(spaced[0]);
    SplitWordThen(ws[0], spaced);
    SplitLeadingSpace(rest);
  }

  lemma ConsTail(ws: seq<string>)
    requires |ws| > 0
    ensures [ws[0]] + ws[1..] == ws
  {
  }

  lemma AppendEmpty(w: string)
    ensures w + "" == w
  {
  }

  lemma SingletonSeq(ws: seq<string>)
    requires |ws| == 1
    ensures ws == [ws[0]]
  {
  }

  lemma SplitEmpty()
    ensures Split("") == []
  {
  }

  /** A word followed by nothing or by whitespace is split off whole. */
  lemma SplitWordThen(w: string, rest: string)
    requires w != "" && NoSpace(w) && (rest == "" || IsSpace(rest[0]))
    ensures Split(w + rest) == [w] + Split(rest)
  {
    var s := w + rest;
    TrimStartNoSpaceFirst(s);
    WordLengthOf(w, rest);
    assert s[..|w|] == w && s[|w|..] == rest;
  }

  lemma {:induction false} WordLengthOf(w: string, rest: string)
    requires NoSpace(w) && (rest == "" || IsSpace(rest[0]))
    ensures WordLength(w + rest) == |w|
    decreases |w|
  {
    if w != "" {
      assert (w + rest)[1..] == w[1..] + rest;
      WordLengthOf(w[1..], rest);
    }
  }

  lemma SplitLeadingSpace(s: string)
    ensures Split(" " + s) == Split(s)
  {
    assert (" " + s)[1..] == s;
  }

  /** The first word of a string that starts with a non-whitespace
      character is the prefix of that string up to its first whitespace. */
  lemma SplitFirstWord(s: string)
    requires s != [] && !IsSpace(s[0])
    ensures Split(s) != [] && Split(s)[0] == s[..WordLength(s)]
  {
    TrimStartNoSpaceFirst(s);
  }

  /** A prefix free of whitespace is kept whole by the first word. */
  lemma FirstWordKeepsPrefix(s: string, p: string)
    requires StartsWith(s, p) && p != [] && NoSpace(p)
    ensures Split(s) != [] && StartsWith(Split(s)[0], p)
  {
    assert s[0] == p[0];
    SplitFirstWord(s);
    var k := WordLength(s);
    WordLengthAtLeast(s, p);
    PrefixOfPrefix(s, k, |p|);
  }

  lemma PrefixOfPrefix(s: string, k: nat, n: nat)
    requires n <= k <= |s|
    ensures s[..k][..n] == s[..n]
  {
  }

  lemma {:induction false} WordLengthAtLeast(s: string, p: string)
    requires StartsWith(s, p) && NoSpace(p)
    ensures WordLength(s) >= |p|
    decreases |p|
  {
    if p != [] {
      assert s[0] == p[0];
      assert StartsWith(s[1..], p[1..]) by {
        assert s[1..][..|p| - 1] == s[..|p|][1..];
      }
      WordLengthAtLeast(s[1..], p[1..]);
    }
  }

  /** Python's string `<`: lexicographic order on code points, a proper
      prefix coming first. */
  predicate Less(a: string, b: string)
    decreases |a|
  {
    if |a| == 0 then |b| > 0
    else if |b| == 0 then false
    else a[0] < b[0] || (a[0] == b[0] && Less(a[1..], b[1..]))
  }

  lemma {:induction false} LessIrreflexive(a: string)
    ensures !Less(a, a)
    decreases |a|
  {
    if |a| > 0 {
      LessIrreflexive(a[1..]);
    }
  }

  lemma {:induction false} LessTransitive(a: string, b: string, c: string)
    requires Less(a, b) && Less(b, c)
    ensures Less(a, c)
    decreases |a|
  {
    if |a| > 0 && a[0] == b[0] && b[0] == c[0] {
      LessTransitive(a[1..], b[1..], c[1..]);
    }
  }

  lemma {:induction false} LessTotal(a: string, b: string)
    requires a != b
    ensures Less(a, b) || Less(b, a)
    decreases |a|
  {
    if |a| > 0 && |b| > 0 && a[0] == b[0] {
      assert a == [a[0]] + a[1..] && b == [b[0]] + b[1..];
      LessTotal(a[1..], b[1..]);
    }
  }

  /** `m` comes first among `names` in Python's string order. */
  predicate IsLeast(m: string, names: set<string>)
  {
    m in names && forall x :: x in names && x != m ==> Less(m, x)
  }

  lemma {:induction false} LeastExists(names: set<string>)
    requires names != {}
    ensures exists m :: IsLeast(m, names)
    decreases |names|
  {
    var x :| x in names;
    if names != {x} {
      LeastExists(names - {x});
      var m' :| IsLeast(m', names - {x});
      if Less(x, m') {
        forall y | y in names && y != x ensures Less(x, y) {
          if y != m' { LessTransitive(x, m', y); }
        }
        assert IsLeast(x, names);
      } else {
        LessTotal(x, m');
        assert IsLeast(m', names);
      }
    } else {
      assert IsLeast(x, names);
    }
  }

  lemma LeastUnique(names: set<string>)
    ensures forall a, b :: IsLeast(a, names) && IsLeast(b, names) ==> a == b
  {
    forall a, b | IsLeast(a, names) && IsLeast(b, names) ensures a == b {
      if a != b {
        LessTransitive(a, b, a);
        LessIrreflexive(a);
      }
    }
  }

  /** The first name of `names` in Python's string order. */
  function Least(names: set<string>): (m: string)
    requires names != {}
    ensures IsLeast(m, names)
  {
    LeastExists(names);
    LeastUnique(names);
    var m :| IsLeast(m, names);
    m
  }

  predicate StrictlySorted(s: seq<string>)
  {
    forall i, j :: 0 <= i < j < |s| ==> Less(s[i], s[j])
  }

  /** Python's `sorted(names)` for a set of strings: the names, each once,
      least first (SortedNamesSorted). */
  function SortedNames(names: set<string>): (r: seq<string>)
    ensures |r| == |names|
    ensures forall x :: x in r <==> x in names
    decreases |names|
  {
    if names == {} then []
    else
      var m := Least(names);
      [m] + SortedNames(names - {m})
  }

  /** `sorted` puts the names in strictly increasing order. */
  lemma {:induction false} SortedNamesSorted(names: set<string>)
    ensures StrictlySorted(SortedNames(names))
    decreases |names|
  {
    if names != {} {
      var m := Least(names);
      var rest := SortedNames(names - {m});
      SortedNamesSorted(names - {m});
      var r := SortedNames(names);
      assert r == [m] + rest;
      forall i, j | 0 <= i < j < |r| ensures Less(r[i], r[j]) {
        if i == 0 {
          assert r[j] == rest[j - 1] && rest[j - 1] in names - {m};
        } else {
          assert r[i] == rest[i - 1] && r[j] == rest[j - 1];
        }
      }
    }
  }

  /** A strictly sorted sequence has no repeated element. */
  lemma SortedDistinct(s: seq<string>, i: nat, j: nat)
    requires StrictlySorted(s) && i < j < |s|
    ensures s[i] != s[j]
  {
    if s[i] == s[j] {
      LessIrreflexive(s[i]);
    }
  }
}
