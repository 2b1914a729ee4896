/** Character classes and string helpers shared by every extractor: Python's
    `str.upper`, `str.lower`, `in` on strings, `str.join`, `str.replace(" ", "")`,
    `str.strip` and `str.split`, restricted to what the extractors rely on. */
module Strings {

  datatype Option<+T> = None | Some(value: T)

  type String = seq<char>

  predicate IsDigit(c: char) { '0' <= c <= '9' }

  predicate IsUpperLetter(c: char) { 'A' <= c <= 'Z' }

  predicate IsLowerLetter(c: char) { 'a' <= c <= 'z' }

  /** `[A-Za-z0-9_]`: the characters on one side of a `\b` boundary (ASCII only). */
  predicate IsWordChar(c: char) { IsDigit(c) || IsUpperLetter(c) || IsLowerLetter(c) || c == '_' }

  /** The characters Python's `str.isspace` accepts, used by `str.strip()` and `str.split()`. */
  predicate IsSpace(c: char) {
    || c == ' '
    || '\t' <= c <= '\r'
    || '\U{1c}' <= c <= '\U{1f}'
    || c == '\U{85}' || c == '\U{a0}' || c == '\U{1680}'
    || '\U{2000}' <= c <= '\U{200a}'
    || c == '\U{2028}' || c == '\U{2029}' || c == '\U{202f}' || c == '\U{205f}' || c == '\U{3000}'
  }

  function UpperChar(c: char): (d: char)
    ensures IsLowerLetter(c) ==> IsUpperLetter(d)
    ensures !IsLowerLetter(c) ==> d == c
  {
    if IsLowerLetter(c) then (c as int - 32) as char else c
  }

  function LowerChar(c: char): (d: char)
    ensures IsUpperLetter(c) ==> IsLowerLetter(d)
    ensures !IsUpperLetter(c) ==> d == c
  {
    if IsUpperLetter(c) then (c as int + 32) as char else c
  }

  /** `s.upper()` on ASCII letters. */
  function Upper(s: String): (u: String)
    ensures |u| == |s|
    ensures forall i | 0 <= i < |s| :: !IsLowerLetter(u[i])
  {
    seq(|s|, i requires 0 <= i < |s| => UpperChar(s[i]))
  }

  /** `s.lower()` on ASCII letters. */
  function Lower(s: String): (l: String)
    ensures |l| == |s|
    ensures forall i | 0 <= i < |s| :: !IsUpperLetter(l[i])
  {
    seq(|s|, i requires 0 <= i < |s| => LowerChar(s[i]))
  }

  function LowerAll(texts: seq<String>): (r: seq<String>)
    ensures |r| == |texts|
    ensures forall i | 0 <= i < |texts| :: r[i] == Lower(texts[i])
  {
    seq(|texts|, i requires 0 <= i < |texts| => Lower(texts[i]))
  }

  predicate StartsWith(s: String, prefix: String) {
    |prefix| <= |s| && s[..|prefix|] == prefix
  }

  /** Python's `sub in s`: `sub` occurs in `s` at some position. */
  predicate Contains(s: String, sub: String)
    decreases |s|
  {
    StartsWith(s, sub) || (|s| > 0 && Contains(s[1..], sub))
  }

  /** `any(w in u for w in words)`. */
  predicate ContainsAny(u: String, words: seq<String>) {
    exists k | 0 <= k < |words| :: Contains(u, words[k])
  }

  /** Python's `re.search(r'\d', s)` is not None (ASCII digits). */
  predicate HasDigit(s: String) {
    exists i | 0 <= i < |s| :: IsDigit(s[i])
  }

  /** `sep.join(parts)`. */
  function Join(parts: seq<String>, sep: String): (r: String)
    ensures parts == [] ==> r == []
    ensures |parts| == 1 ==> r == parts[0]
    decreases |parts|
  {
    if parts == [] then []
    else if |parts| == 1 then parts[0]
    else parts[0] + sep + Join(parts[1..], sep)
  }

  /** `s.replace(" ", "")`. */
  function RemoveSpaces(s: String): (r: String)
    ensures ' ' !in r
    ensures |r| <= |s|
  {
    if s == [] then []
    else if s[0] == ' ' then RemoveSpaces(s[1..])
    else [s[0]] + RemoveSpaces(s[1..])
  }

  /** `s.strip()` with no argument: drops leading and trailing whitespace. */
  function Strip(s: String): (r: String)
    ensures |r| <= |s|
    ensures r != [] ==> !IsSpace(r[0]) && !IsSpace(r[|r| - 1])
  {
    StripEnd(StripStart(s))
  }

  function StripStart(s: String): (r: String)
    ensures |r| <= |s|
    ensures r != [] ==> !IsSpace(r[0]) && r == s[|s| - |r|..]
  {
    if s != [] && IsSpace(s[0]) then StripStart(s[1..]) else s
  }

  function StripEnd(s: String): (r: String)
    ensures |r| <= |s| && r == s[..|r|]
    ensures r != [] ==> !IsSpace(r[|r| - 1])
  {
    if s != [] && IsSpace(s[|s| - 1]) then StripEnd(s[..|s| - 1]) else s
  }

  /** Length of the run of non-space characters at the start of `s`. */
  function WordLength(s: String): (n: nat)
    ensures n <= |s|
    ensures forall i | 0 <= i < n :: !IsSpace(s[i])
    ensures n < |s| ==> IsSpace(s[n])
  {
    if s == [] || IsSpace(s[0]) then 0 else 1 + WordLength(s[1..])
  }

  predicate IsWord(w: String) {
    w != [] && forall i | 0 <= i < |w| :: !IsSpace(w[i])
  }

  /** `s.split()` with no argument: the maximal runs of non-whitespace characters. */
  function SplitWords(s: String): (words: seq<String>)
    ensures forall i | 0 <= i < |words| :: IsWord(words[i])
    decreases |s|
  {
    if s == [] then []
    else if IsSpace(s[0]) then SplitWords(s[1..])
    else
      var n := WordLength(s);
      [s[..n]] + SplitWords(s[n..])
  }

  /** Splitting a word glued to more text by a space yields that word first. */
  lemma SplitWordsCons(w: String, rest: String)
    requires IsWord(w)
    ensures SplitWords(w + " " + rest) == [w] + SplitWords(rest)
  {
    var s := w + " " + rest;
    WordLengthOfWord(w, " " + rest);
    assert s[..|w|] == w;
    assert s[|w|..] == " " + rest;
    assert (" " + rest)[1..] == rest;
  }

  lemma {:induction false} WordLengthOfWord(w: String, tail: String)
    requires IsWord(w)
    requires tail != [] && IsSpace(tail[0])
    ensures WordLength(w + tail) == |w|
    decreases |w|
  {
    var s := w + tail;
    assert s[1..] == w[1..] + tail;
    if |w| > 1 {
      WordLengthOfWord(w[1..], tail);
    } else {
      assert w[1..] == [];
      assert s[1..] == tail;
    }
  }

  /** `" ".join(words).split() == words` for words without whitespace: the
      round trip that `split_name` relies on for its middle part. */
  lemma {:induction false} SplitJoinRoundTrip(words: seq<String>)
    requires forall i | 0 <= i < |words| :: IsWord(words[i])
    ensures SplitWords(Join(words, " ")) == words
    decreases |words|
  {
    if words == [] {
    } else if |words| == 1 {
      var w := words[0];
      WordLengthWhole(w);
      assert w[..|w|] == w;
      assert w[|w|..] == [];
    } else {
      SplitWordsCons(words[0], Join(words[1..], " "));
      SplitJoinRoundTrip(words[1..]);
      assert words == [words[0]] + words[1..];
    }
  }

  lemma {:induction false} WordLengthWhole(w: String)
    requires IsWord(w)
    ensures WordLength(w) == |w|
    decreases |w|
  {
    if |w| > 1 {
      WordLengthWhole(w[1..]);
    }
  }

  /** An occurrence stays an occurrence when text is put in front. */
  lemma {:induction false} ContainsAfterPrefix(pre: String, s: String, sub: String)
    requires Contains(s, sub)
    ensures Contains(pre + s, sub)
    decreases |pre|
  {
    if pre != [] {
      assert (pre + s)[1..] == pre[1..] + s;
      ContainsAfterPrefix(pre[1..], s, sub);
    } else {
      assert pre + s == s;
    }
  }

  lemma {:induction false} ContainsPrefix(s: String, rest: String)
    ensures Contains(s + rest, s)
  {
    assert (s + rest)[..|s|] == s;
  }

  /** Joining with single spaces puts every adjacent pair of parts side by side,
      separated by one space. */
  lemma {:induction false} JoinAdjacent(parts: seq<String>, i: nat)
    requires i + 1 < |parts|
    ensures Contains(Join(parts, " "), parts[i] + " " + parts[i + 1])
    decreases |parts|
  {
    if i == 0 {
      var rest := Join(parts[1..], " ");
      if |parts| == 2 {
        assert Join(parts, " ") == parts[0] + " " + parts[1] + [];
        ContainsPrefix(parts[0] + " " + parts[1], []);
      } else {
        assert Join(parts[1..], " ") == parts[1] + " " + Join(parts[2..], " ");
        assert Join(parts, " ") == (parts[0] + " " + parts[1]) + (" " + Join(parts[2..], " "));
        ContainsPrefix(parts[0] + " " + parts[1], " " + Join(parts[2..], " "));
      }
    } else {
      JoinAdjacent(parts[1..], i - 1);
      assert parts[1..][i - 1] == parts[i] && parts[1..][i] == parts[i + 1];
      ContainsAfterPrefix(parts[0] + " ", Join(parts[1..], " "), parts[i] + " " + parts[i + 1]);
      assert Join(parts, " ") == (parts[0] + " ") + Join(parts[1..], " ");
    }
  }

  /** Every slice of `s` occurs in `s`. */
  lemma {:induction false} ContainsSlice(s: String, i: nat, j: nat)
    requires i <= j <= |s|
    ensures Contains(s, s[i..j])
    decreases i
  {
    if i == 0 {
      assert s[..j - i] == s[i..j];
    } else {
      var t := s[1..];
      ContainsSlice(t, i - 1, j - 1);
      forall k | 0 <= k < j - i ensures t[i - 1..j - 1][k] == s[i..j][k] {
        assert t[i - 1 + k] == s[i + k];
      }
      assert t[i - 1..j - 1] == s[i..j];
    }
  }

  /** An occurrence is a slice: `sub in s` means `s[i:i+len(sub)] == sub` for some `i`. */
  lemma {:induction false} ContainsAt(s: String, sub: String) returns (i: nat)
    requires Contains(s, sub)
    ensures i + |sub| <= |s| && s[i..i + |sub|] == sub
    decreases |s|
  {
    if StartsWith(s, sub) {
      i := 0;
    } else {
      var j := ContainsAt(s[1..], sub);
      assert s[1..][j..j + |sub|] == s[j + 1..j + 1 + |sub|];
      i := j + 1;
    }
  }

  /** Whatever occurs in a part of `s` occurs in `s`. */
  lemma ContainsTransitive(s: String, mid: String, sub: String)
    requires Contains(s, mid) && Contains(mid, sub)
    ensures Contains(s, sub)
  {
    var i := ContainsAt(s, mid);
    var j := ContainsAt(mid, sub);
    var piece := s[i + j..i + j + |sub|];
    forall k | 0 <= k < |sub| ensures piece[k] == sub[k] {
      assert piece[k] == s[i..i + |mid|][j + k];
      assert mid[j..j + |sub|][k] == mid[j + k];
    }
    assert piece == sub;
    ContainsSlice(s, i + j, i + j + |sub|);
  }

  /** Each part of a space-joined list occurs in the joined string. */
  lemma {:induction false} JoinContainsEach(parts: seq<String>, i: nat)
    requires i < |parts|
    ensures Contains(Join(parts, " "), parts[i])
    decreases |parts|
  {
    if |parts| == 1 {
      ContainsSelf(parts[0]);
    } else {
      var rest := Join(parts[1..], " ");
      assert Join(parts, " ") == parts[0] + (" " + rest);
      if i == 0 {
        ContainsPrefix(parts[0], " " + rest);
      } else {
        JoinContainsEach(parts[1..], i - 1);
        assert Join(parts, " ") == (parts[0] + " ") + rest;
        ContainsAfterPrefix(parts[0] + " ", rest, parts[i]);
      }
    }
  }

  /** The first index at or after `from` whose element satisfies `p`: the shape
      of every `for x in xs: if p(x): return ...` loop of the extractors. */
  function FindFrom<T>(xs: seq<T>, p: T -> bool, from: nat): (r: Option<nat>)
    ensures r.Some? ==> from <= r.value < |xs| && p(xs[r.value])
    ensures r.Some? ==> forall k | from <= k < r.value :: !p(xs[k])
    ensures r.None? ==> forall k | from <= k < |xs| :: !p(xs[k])
    decreases |xs| - from
  {
    if from >= |xs| then None
    else if p(xs[from]) then Some(from)
    else FindFrom(xs, p, from + 1)
  }

  /** `replace(" ", "")` changes nothing once no space is left. */
  lemma {:induction false} RemoveSpacesIdempotent(s: String)
    ensures RemoveSpaces(RemoveSpaces(s)) == RemoveSpaces(s)
  {
    if s != [] {
      RemoveSpacesIdempotent(s[1..]);
      if s[0] != ' ' {
        var r := RemoveSpaces(s[1..]);
        assert ([s[0]] + r)[1..] == r;
      }
    }
  }

  /** `replace(" ", "")` distributes over concatenation. */
  lemma {:induction false} RemoveSpacesAppend(a: String, b: String)
    ensures RemoveSpaces(a + b) == RemoveSpaces(a) + RemoveSpaces(b)
  {
    if a == [] {
      assert a + b == b;
    } else {
      assert (a + b)[1..] == a[1..] + b;
      RemoveSpacesAppend(a[1..], b);
    }
  }

  /** A string without spaces is left as it is by `replace(" ", "")`. */
  lemma {:induction false} RemoveSpacesNoSpace(s: String)
    requires ' ' !in s
    ensures RemoveSpaces(s) == s
  {
    if s != [] {
      RemoveSpacesNoSpace(s[1..]);
      assert s == [s[0]] + s[1..];
    }
  }

  /** A string that neither starts nor ends with whitespace is left as it is by `strip()`. */
  lemma StripUntrimmed(s: String)
    requires s != [] ==> !IsSpace(s[0]) && !IsSpace(s[|s| - 1])
    ensures Strip(s) == s
  {
  }

  /** Every character of an occurrence is a character of the text. */
  lemma {:induction false} ContainsChar(s: String, sub: String, k: nat)
    requires Contains(s, sub) && k < |sub|
    ensures sub[k] in s
    decreases |s|
  {
    if StartsWith(s, sub) {
      assert s[k] == sub[k];
    } else {
      ContainsChar(s[1..], sub, k);
      assert sub[k] in s[1..];
    }
  }

  /** Joining digit-free parts with single spaces gives a digit-free string. */
  lemma {:induction false} JoinNoDigit(parts: seq<String>)
    requires forall k | 0 <= k < |parts| :: !HasDigit(parts[k])
    ensures !HasDigit(Join(parts, " "))
    decreases |parts|
  {
    if |parts| > 1 {
      JoinNoDigit(parts[1..]);
      var rest := Join(parts[1..], " ");
      var r := parts[0] + " " + rest;
      forall i | 0 <= i < |r| ensures !IsDigit(r[i]) {
        if i < |parts[0]| {
          assert r[i] == parts[0][i];
        } else if i > |parts[0]| {
          assert r[i] == rest[i - |parts[0]| - 1];
        }
      }
    }
  }

  /** `s` occurs in itself. */
  lemma ContainsSelf(s: String)
    ensures Contains(s, s)
  {
    assert s[..|s|] == s;
  }

  /** A run of spaces contains no text that starts with something else. */
  lemma {:induction false} SpacesContainNoWord(s: String, w: String)
    requires forall i | 0 <= i < |s| :: s[i] == ' '
    requires w != [] && w[0] != ' '
    ensures !Contains(s, w)
    decreases |s|
  {
    if |w| <= |s| {
      assert s[..|w|][0] != w[0];
    }
    if s != [] {
      SpacesContainNoWord(s[1..], w);
    }
  }
}
