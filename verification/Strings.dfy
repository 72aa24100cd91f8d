/**
 * The JavaScript string operations the application relies on, stated over
 * `seq<char>`: `includes`, `startsWith`, `trim`, `toLowerCase` (ASCII part),
 * `split` on a fixed separator and on the regular expression `/\s+/`, and
 * `Array.prototype.join`.
 */
module Strings {

  // ---------------------------------------------------------------------------
  // Substring tests
  // ---------------------------------------------------------------------------

  /** `p` occurs in `s` starting at index `i`. */
  predicate MatchesAt(s: string, p: string, i: int)
  {
    0 <= i && i + |p| <= |s| && s[i..i + |p|] == p
  }

  /** `s.includes(p)`. */
  predicate Contains(s: string, p: string)
  {
    exists i | 0 <= i <= |s| - |p| :: MatchesAt(s, p, i)
  }

  /** `s.startsWith(p)`. */
  predicate StartsWith(s: string, p: string)
  {
    |p| <= |s| && s[..|p|] == p
  }

  lemma PrefixIsContained(s: string, p: string)
    requires StartsWith(s, p)
    ensures Contains(s, p)
  {
    assert MatchesAt(s, p, 0);
  }

  /** The window of `s` at `i` differs from `p` at offset `j` or at offset `k`. */
  predicate DisagreesAt(s: string, p: string, i: int, j: int, k: int)
    requires 0 <= i <= |s| - |p| && 0 <= j < |p| && 0 <= k < |p|
  {
    s[i + j] != p[j] || s[i + k] != p[k]
  }

  /**
   * `p` is not in `s` when no window of `s` agrees with `p` both at offset `j`
   * and at offset `k`; used to refute `includes` on concrete model ids.
   */
  lemma NotContainsByTwo(s: string, p: string, j: int, k: int)
    requires 0 <= j < |p| && 0 <= k < |p|
    requires forall i | 0 <= i <= |s| - |p| :: DisagreesAt(s, p, i, j, k)
    ensures !Contains(s, p)
  {
    forall i | 0 <= i <= |s| - |p|
      ensures !MatchesAt(s, p, i)
    {
      assert DisagreesAt(s, p, i, j, k);
      if s[i + j] != p[j] {
        assert s[i..i + |p|][j] != p[j];
      } else {
        assert s[i..i + |p|][k] != p[k];
      }
    }
  }

  /** A string contains every string it starts with, and a longer text contains what a part of it contains. */
  lemma ContainsInExtension(s: string, t: string, p: string)
    requires Contains(s, p)
    ensures Contains(t + s, p) && Contains(s + t, p)
  {
    var i :| 0 <= i <= |s| - |p| && MatchesAt(s, p, i);
    assert (t + s)[|t| + i..|t| + i + |p|] == s[i..i + |p|];
    assert MatchesAt(t + s, p, |t| + i);
    assert (s + t)[i..i + |p|] == s[i..i + |p|];
    assert MatchesAt(s + t, p, i);
  }

  /** `s.replace(pat, rep)` with a string pattern: only the first occurrence is replaced. */
  function ReplaceFirst(s: string, pat: string, rep: string): string
    decreases |s|
  {
    if StartsWith(s, pat) then rep + s[|pat|..]
    else if s == [] then s
    else [s[0]] + ReplaceFirst(s[1..], pat, rep)
  }

  /** Replacing a pattern that does not occur leaves the text unchanged. */
  lemma {:induction false} ReplaceFirstAbsent(s: string, pat: string, rep: string)
    requires !Contains(s, pat)
    ensures ReplaceFirst(s, pat, rep) == s
    decreases |s|
  {
    if StartsWith(s, pat) {
      PrefixIsContained(s, pat);
    } else if s != [] {
      assert [s[0]] + s[1..] == s;
      if Contains(s[1..], pat) {
        ContainsInExtension(s[1..], [s[0]], pat);
      }
      ReplaceFirstAbsent(s[1..], pat, rep);
    }
  }

  // ---------------------------------------------------------------------------
  // Whitespace, trim and case
  // ---------------------------------------------------------------------------

  /**
   * ECMAScript WhiteSpace and LineTerminator code points: the set both
   * `String.prototype.trim` and the regular-expression class `\s` use.
   */
  predicate IsSpace(c: char)
  {
    || c == '\t' || c == '\n' || c == '\U{000B}' || c == '\U{000C}' || c == '\r'
    || c == ' ' || c == '\U{00A0}' || c == '\U{1680}'
    || ('\U{2000}' <= c <= '\U{200A}')
    || c == '\U{2028}' || c == '\U{2029}' || c == '\U{202F}' || c == '\U{205F}'
    || c == '\U{3000}' || c == '\U{FEFF}'
  }

  predicate AllSpace(s: string)
  {
    forall i | 0 <= i < |s| :: IsSpace(s[i])
  }

  lemma AllSpaceCons(c: char, s: string)
    requires IsSpace(c) && AllSpace(s)
    ensures AllSpace([c] + s)
  {
    forall i | 1 <= i < |[c] + s| ensures IsSpace(([c] + s)[i]) {
      assert ([c] + s)[i] == s[i - 1];
    }
  }

  lemma AllSpaceSnoc(s: string, c: char)
    requires AllSpace(s) && IsSpace(c)
    ensures AllSpace(s + [c])
  {
    forall i | 0 <= i < |s| ensures IsSpace((s + [c])[i]) {
      assert (s + [c])[i] == s[i];
    }
  }

  /** `s.trimStart()`: the suffix of `s` after its leading whitespace. */
  function TrimStart(s: string): (r: string)
    ensures |r| <= |s| && r == s[|s| - |r|..]
    ensures AllSpace(s[..|s| - |r|])
    ensures r == [] || !IsSpace(r[0])
    decreases |s|
  {
    if |s| > 0 && IsSpace(s[0]) then
      var r := TrimStart(s[1..]);
      assert s[1..][|s| - 1 - |r|..] == s[|s| - |r|..];
      assert s[..|s| - |r|] == [s[0]] + s[1..][..|s| - 1 - |r|];
      AllSpaceCons(s[0], s[1..][..|s| - 1 - |r|]);
      r
    else s
  }

  /** `s.trimEnd()`: the prefix of `s` before its trailing whitespace. */
  function TrimEnd(s: string): (r: string)
    ensures |r| <= |s| && r == s[..|r|]
    ensures AllSpace(s[|r|..])
    ensures r == [] || !IsSpace(r[|r| - 1])
    decreases |s|
  {
    if |s| > 0 && IsSpace(s[|s| - 1]) then
      var r := TrimEnd(s[..|s| - 1]);
      assert s[..|s| - 1][..|r|] == s[..|r|];
      assert s[|r|..] == s[..|s| - 1][|r|..] + [s[|s| - 1]];
      AllSpaceSnoc(s[..|s| - 1][|r|..], s[|s| - 1]);
      r
    else s
  }

  /** `s.trim()`. */
  function Trim(s: string): (r: string)
    ensures |r| <= |s|
    ensures r == [] || (!IsSpace(r[0]) && !IsSpace(r[|r| - 1]))
  {
    TrimEnd(TrimStart(s))
  }

  /** A text that starts with a non-whitespace character has nothing to trim at its start. */
  lemma TrimStartKeepsWord(s: string)
    requires s != [] && !IsSpace(s[0])
    ensures TrimStart(s) == s
  {
  }

  /** A text that ends with a non-whitespace character has nothing to trim at its end. */
  lemma TrimEndKeepsWord(s: string)
    requires s != [] && !IsSpace(s[|s| - 1])
    ensures TrimEnd(s) == s
  {
  }

  /** Trimming keeps one contiguous part of the text and removes only whitespace around it. */
  lemma TrimRemovesSurroundingSpace(s: string)
    ensures exists i, j | 0 <= i <= j <= |s| :: Trim(s) == s[i..j] && AllSpace(s[..i]) && AllSpace(s[j..])
  {
    var t := TrimStart(s);
    var r := TrimEnd(t);
    var i, j := |s| - |t|, |s| - |t| + |r|;
    assert r == s[i..j] by {
      assert t == s[i..];
      assert r == t[..|r|];
    }
    assert AllSpace(s[j..]) by {
      assert s[j..] == t[|r|..];
    }
  }

  lemma {:induction false} TrimStartSkipsPadding(pad: string, s: string)
    requires AllSpace(pad)
    ensures TrimStart(pad + s) == TrimStart(s)
    decreases |pad|
  {
    if pad == [] {
      assert pad + s == s;
    } else {
      assert (pad + s)[0] == pad[0] && IsSpace(pad[0]);
      assert (pad + s)[1..] == pad[1..] + s;
      assert AllSpace(pad[1..]) by {
        forall i | 0 <= i < |pad[1..]| ensures IsSpace(pad[1..][i]) {
          assert pad[1..][i] == pad[i + 1];
        }
      }
      TrimStartSkipsPadding(pad[1..], s);
    }
  }

  lemma {:induction false} TrimEndSkipsPadding(s: string, pad: string)
    requires AllSpace(pad)
    ensures TrimEnd(s + pad) == TrimEnd(s)
    decreases |pad|
  {
    if pad == [] {
      assert s + pad == s;
    } else {
      assert (s + pad)[|s + pad| - 1] == pad[|pad| - 1] && IsSpace(pad[|pad| - 1]);
      assert (s + pad)[..|s + pad| - 1] == s + pad[..|pad| - 1];
      var init := pad[..|pad| - 1];
      assert AllSpace(init) by {
        forall i | 0 <= i < |init| ensures IsSpace(init[i]) {
          assert init[i] == pad[i];
        }
      }
      TrimEndSkipsPadding(s, init);
    }
  }

  /** Trailing whitespace survives `trimStart` unless the whole text was blank. */
  lemma {:induction false} TrimStartKeepsTail(s: string, pad: string)
    requires AllSpace(pad)
    ensures TrimStart(s + pad) == if TrimStart(s) == [] then [] else TrimStart(s) + pad
    decreases |s|
  {
    if s == [] {
      assert s + pad == pad;
      TrimStartSkipsPadding(pad, []);
      assert pad + [] == pad;
    } else if IsSpace(s[0]) {
      assert (s + pad)[1..] == s[1..] + pad;
      TrimStartKeepsTail(s[1..], pad);
    }
  }

  /** Whitespace around a text does not change what it trims to. */
  lemma TrimIgnoresPadding(front: string, s: string, back: string)
    requires AllSpace(front) && AllSpace(back)
    ensures Trim(front + s + back) == Trim(s)
  {
    assert front + s + back == front + (s + back);
    TrimStartSkipsPadding(front, s + back);
    TrimStartKeepsTail(s, back);
    if TrimStart(s) != [] {
      TrimEndSkipsPadding(TrimStart(s), back);
    }
  }

  /** The ASCII part of `toLowerCase`. */
  function LowerChar(c: char): char
  {
    if 'A' <= c <= 'Z' then (c as int + 32) as char else c
  }

  /** `s.toLowerCase()` on the ASCII letters; every other character is kept. */
  function ToLower(s: string): (r: string)
    ensures |r| == |s|
    ensures forall i | 0 <= i < |s| :: r[i] == LowerChar(s[i])
  {
    seq(|s|, i requires 0 <= i < |s| => LowerChar(s[i]))
  }

  lemma ToLowerIdempotent(s: string)
    ensures ToLower(ToLower(s)) == ToLower(s)
  {
  }

  // ---------------------------------------------------------------------------
  // join and split
  // ---------------------------------------------------------------------------

  /** `parts.join(sep)`. */
  function Join(parts: seq<string>, sep: string): string
  {
    if |parts| == 0 then ""
    else if |parts| == 1 then parts[0]
    else parts[0] + sep + Join(parts[1..], sep)
  }

  /** Two pieces are joined with one separator between them. */
  lemma JoinTwo(x: string, y: string, sep: string)
    ensures Join([x, y], sep) == x + sep + y
  {
    assert [x, y][1..] == [y];
  }

  /** Joining two non-empty lists puts exactly one separator between them. */
  lemma {:induction false} JoinAppend(a: seq<string>, b: seq<string>, sep: string)
    requires |a| > 0 && |b| > 0
    ensures Join(a + b, sep) == Join(a, sep) + sep + Join(b, sep)
    decreases |a|
  {
    if |a| == 1 {
      assert (a + b)[1..] == b;
    } else {
      assert (a + b)[1..] == a[1..] + b;
      JoinAppend(a[1..], b, sep);
    }
  }

  /** `s.split(sep)` for a non-empty separator: cut at each leftmost, non-overlapping occurrence. */
  function Split(s: string, sep: string): (r: seq<string>)
    requires |sep| > 0
    ensures |r| >= 1
    decreases |s|
  {
    if |s| < |sep| then [s]
    else if s[..|sep|] == sep then [""] + Split(s[|sep|..], sep)
    else
      var rest := Split(s[1..], sep);
      [[s[0]] + rest[0]] + rest[1..]
  }

  /** The number of leftmost, non-overlapping occurrences of `sep` in `s`. */
  function Occurrences(s: string, sep: string): nat
    requires |sep| > 0
    decreases |s|
  {
    if |s| < |sep| then 0
    else if s[..|sep|] == sep then 1 + Occurrences(s[|sep|..], sep)
    else Occurrences(s[1..], sep)
  }

  /** The number of times character `c` appears in `s`. */
  function CountChar(s: string, c: char): nat
  {
    if s == [] then 0 else (if s[0] == c then 1 else 0) + CountChar(s[1..], c)
  }

  lemma {:induction false} CountCharAppend(a: string, b: string, c: char)
    ensures CountChar(a + b, c) == CountChar(a, c) + CountChar(b, c)
    decreases |a|
  {
    if a != [] {
      assert (a + b)[1..] == a[1..] + b;
      CountCharAppend(a[1..], b, c);
    } else {
      assert a + b == b;
    }
  }

  /** `c` does not occur in `s`. */
  predicate NoChar(s: string, c: char)
  {
    forall i | 0 <= i < |s| :: s[i] != c
  }

  lemma {:induction false} NoCharCount(s: string, c: char)
    requires NoChar(s, c)
    ensures CountChar(s, c) == 0
    decreases |s|
  {
    if s != [] {
      NoCharCount(s[1..], c);
    }
  }

  /** Two free text runs, each followed by `c`, hold `c` exactly twice. */
  lemma TwoMarks(a: string, b: string, c: char)
    requires NoChar(a, c) && NoChar(b, c)
    ensures CountChar(a + [c] + b + [c], c) == 2
  {
    NoCharCount(a, c);
    NoCharCount(b, c);
    CountCharAppend(a, [c], c);
    CountCharAppend(a + [c], b, c);
    CountCharAppend(a + [c] + b, [c], c);
  }

  /** For a one-character separator the occurrences are exactly the positions holding it. */
  lemma {:induction false} OccurrencesOfChar(s: string, c: char)
    ensures Occurrences(s, [c]) == CountChar(s, c)
    decreases |s|
  {
    if s != [] {
      OccurrencesOfChar(s[1..], c);
    }
  }

  /** Splitting yields one piece more than there are separators. */
  lemma {:induction false} SplitLength(s: string, sep: string)
    requires |sep| > 0
    ensures |Split(s, sep)| == Occurrences(s, sep) + 1
    decreases |s|
  {
    if |s| < |sep| {
    } else if s[..|sep|] == sep {
      SplitLength(s[|sep|..], sep);
    } else {
      SplitLength(s[1..], sep);
    }
  }

  /** Joining the pieces with the separator gives back the text. */
  lemma {:induction false} SplitThenJoin(s: string, sep: string)
    requires |sep| > 0
    ensures Join(Split(s, sep), sep) == s
    decreases |s|
  {
    if |s| < |sep| {
    } else if s[..|sep|] == sep {
      var rest := Split(s[|sep|..], sep);
      SplitThenJoin(s[|sep|..], sep);
      assert Split(s, sep) == [""] + rest;
      assert ([""] + rest)[1..] == rest;
      assert s == sep + s[|sep|..];
    } else {
      var rest := Split(s[1..], sep);
      SplitThenJoin(s[1..], sep);
      JoinPrependChar(s[0], rest, sep);
      assert s == [s[0]] + s[1..];
    }
  }

  /** Prepending a character to the first piece prepends it to the joined text. */
  lemma JoinPrependChar(x: char, rest: seq<string>, sep: string)
    requires |rest| >= 1
    ensures Join([[x] + rest[0]] + rest[1..], sep) == [x] + Join(rest, sep)
  {
    var r := [[x] + rest[0]] + rest[1..];
    if |rest| > 1 {
      assert r[1..] == rest[1..];
    }
  }

  // ---------------------------------------------------------------------------
  // split(/\s+/)
  // ---------------------------------------------------------------------------

  /** The text after the whitespace run that starts `s`. */
  function DropSpaces(s: string): (r: string)
    ensures |r| <= |s| && r == s[|s| - |r|..]
    ensures |s| > 0 && IsSpace(s[0]) ==> |r| < |s|
    ensures r == [] || !IsSpace(r[0])
    decreases |s|
  {
    if |s| > 0 && IsSpace(s[0]) then DropSpaces(s[1..]) else s
  }

  /** `s.split(/\s+/)`: the pieces between maximal whitespace runs. */
  function SplitOnSpaces(s: string): (r: seq<string>)
    ensures |r| >= 1
    decreases |s|
  {
    if |s| == 0 then [""]
    else if IsSpace(s[0]) then [""] + SplitOnSpaces(DropSpaces(s))
    else
      var rest := SplitOnSpaces(s[1..]);
      [[s[0]] + rest[0]] + rest[1..]
  }

  /**
   * The number of maximal whitespace runs of `s`, counted by their first
   * character; `afterSpace` says whether the text before `s` ended in whitespace.
   */
  function RunStarts(s: string, afterSpace: bool): nat
  {
    if s == [] then 0
    else (if IsSpace(s[0]) && !afterSpace then 1 else 0) + RunStarts(s[1..], IsSpace(s[0]))
  }

  lemma {:induction false} RunStartsInsideRun(s: string)
    ensures RunStarts(s, true) == RunStarts(DropSpaces(s), false)
    decreases |s|
  {
    if s != [] && IsSpace(s[0]) {
      RunStartsInsideRun(s[1..]);
    }
  }

  /** `/\s+/` splits a text into one more piece than it has whitespace runs. */
  lemma {:induction false} SplitOnSpacesLength(s: string)
    ensures |SplitOnSpaces(s)| == RunStarts(s, false) + 1
    decreases |s|
  {
    if s == [] {
    } else if IsSpace(s[0]) {
      SplitOnSpacesLength(DropSpaces(s));
      RunStartsInsideRun(s[1..]);
      assert DropSpaces(s) == DropSpaces(s[1..]);
    } else {
      SplitOnSpacesLength(s[1..]);
    }
  }

  /** `w` holds no whitespace. */
  predicate Word(w: string)
  {
    forall i | 0 <= i < |w| :: !IsSpace(w[i])
  }

  /** A character that is not whitespace, put in front of a word, keeps a word. */
  lemma WordCons(x: char, w: string)
    requires !IsSpace(x) && Word(w)
    ensures Word([x] + w)
  {
    forall i | 1 <= i < |[x] + w| ensures !IsSpace(([x] + w)[i]) {
      assert ([x] + w)[i] == w[i - 1];
    }
  }

  /** No piece of `split(/\s+/)` contains whitespace. */
  lemma {:induction false} SplitOnSpacesPiecesAreWords(s: string)
    ensures forall k | 0 <= k < |SplitOnSpaces(s)| :: Word(SplitOnSpaces(s)[k])
    decreases |s|
  {
    if s == [] {
    } else if IsSpace(s[0]) {
      SplitOnSpacesPiecesAreWords(DropSpaces(s));
    } else {
      SplitOnSpacesPiecesAreWords(s[1..]);
      var rest := SplitOnSpaces(s[1..]);
      WordCons(s[0], rest[0]);
      var r := [[s[0]] + rest[0]] + rest[1..];
      assert SplitOnSpaces(s) == r;
      forall k | 1 <= k < |r| ensures Word(r[k]) {
        assert r[k] == rest[k];
      }
    }
  }
}
