/**
 * The Python `str` operations the assistant is built from, over `seq<char>`:
 * `sub in s`, `lower()`, `split()`, `strip()`, `sep.join(parts)` and
 * `replace(old, "")`. Whitespace and case follow Python's rules on ASCII.
 */
module PyStr {

  /** Python's `str.isspace()` on ASCII: space, tab, line feed, vertical tab,
      form feed, carriage return and the separators 0x1C to 0x1F. */
  predicate IsSpace(c: char) {
    c == ' ' || 9 <= c as int <= 13 || 28 <= c as int <= 31
  }

  /** A word as `split()` produces it: non-empty, with no whitespace. */
  predicate IsToken(w: string) {
    w != [] && forall i :: 0 <= i < |w| ==> !IsSpace(w[i])
  }

  /** No whitespace at either end, as `strip()` leaves a string. */
  predicate IsStripped(s: string) {
    s == [] || (!IsSpace(s[0]) && !IsSpace(s[|s| - 1]))
  }

  // ---------------------------------------------------------------------------
  // Substring search: `sub in s`
  // ---------------------------------------------------------------------------

  /** `sub in s`. */
  predicate Contains(s: string, sub: string)
    decreases |s|
  {
    sub <= s || (|s| > 0 && Contains(s[1..], sub))
  }

  /** `any(k in s for k in keywords)`. */
  predicate ContainsAny(s: string, keywords: seq<string>)
    decreases |keywords|
  {
    |keywords| > 0 && (Contains(s, keywords[0]) || ContainsAny(s, keywords[1..]))
  }

  /** `sub` occurs in `s` starting at index `i`. */
  predicate OccursAt(s: string, sub: string, i: int) {
    0 <= i && i + |sub| <= |s| && s[i..i + |sub|] == sub
  }

  /** `Contains` agrees with the positional reading of `sub in s`: some slice of `s` is `sub`. */
  lemma {:induction false} ContainsAt(s: string, sub: string)
    ensures Contains(s, sub) <==> exists i :: OccursAt(s, sub, i)
    decreases |s|
  {
    if sub <= s {
      assert s[0..|sub|] == sub;
      assert OccursAt(s, sub, 0);
    } else if |s| > 0 {
      ContainsAt(s[1..], sub);
      if exists i :: OccursAt(s, sub, i) {
        var i :| OccursAt(s, sub, i);
        assert i != 0;
        assert s[1..][i - 1..i - 1 + |sub|] == s[i..i + |sub|];
        assert OccursAt(s[1..], sub, i - 1);
      }
      if Contains(s[1..], sub) {
        var j :| OccursAt(s[1..], sub, j);
        assert s[j + 1..j + 1 + |sub|] == s[1..][j..j + |sub|];
        assert OccursAt(s, sub, j + 1);
      }
    } else {
      assert |sub| > 0;
    }
  }

  /** A substring of a substring is a substring. */
  lemma ContainsTransitive(s: string, mid: string, sub: string)
    requires Contains(s, mid) && Contains(mid, sub)
    ensures Contains(s, sub)
  {
    ContainsAt(s, mid);
    ContainsAt(mid, sub);
    var i :| OccursAt(s, mid, i);
    var j :| OccursAt(mid, sub, j);
    forall k | 0 <= k < |sub|
      ensures s[i + j..i + j + |sub|][k] == sub[k]
    {
      assert s[i + j + k] == s[i..i + |mid|][j + k] == mid[j + k] == mid[j..j + |sub|][k];
    }
    assert s[i + j..i + j + |sub|] == sub;
    assert OccursAt(s, sub, i + j);
    ContainsAt(s, sub);
  }

  /** A string that lacks one of the characters of `sub` does not contain `sub`. */
  lemma {:induction false} MissingCharNotContained(s: string, sub: string, c: char)
    requires c in sub && c !in s
    ensures !Contains(s, sub)
    decreases |s|
  {
    var k :| 0 <= k < |sub| && sub[k] == c;
    assert !(sub <= s) by {
      assert k < |s| ==> s[k] != c;
    }
    if |s| > 0 {
      MissingCharNotContained(s[1..], sub, c);
    }
  }

  /** `any(...)` over a keyword list holds exactly when one of its keywords occurs. */
  lemma {:induction false} ContainsAnyExists(s: string, keywords: seq<string>)
    ensures ContainsAny(s, keywords) <==> exists i :: 0 <= i < |keywords| && Contains(s, keywords[i])
    decreases |keywords|
  {
    if |keywords| > 0 {
      ContainsAnyExists(s, keywords[1..]);
      if exists i :: 0 <= i < |keywords| && Contains(s, keywords[i]) {
        var i :| 0 <= i < |keywords| && Contains(s, keywords[i]);
        if i > 0 {
          assert keywords[1..][i - 1] == keywords[i];
        }
      }
      if ContainsAny(s, keywords[1..]) {
        var j :| 0 <= j < |keywords| - 1 && Contains(s, keywords[1..][j]);
        assert keywords[j + 1] == keywords[1..][j];
      }
    }
  }

  // ---------------------------------------------------------------------------
  // Case: `lower()`
  // ---------------------------------------------------------------------------

  function LowerChar(c: char): char {
    if 'A' <= c <= 'Z' then (c as int - 'A' as int + 'a' as int) as char else c
  }

  /** `s.lower()`: each ASCII capital becomes its small letter, every other character stays. */
  function Lower(s: string): (r: string)
    ensures |r| == |s|
    ensures forall i :: 0 <= i < |s| ==> r[i] == LowerChar(s[i])
    ensures forall i :: 0 <= i < |r| ==> !('A' <= r[i] <= 'Z')
  {
    if s == [] then [] else [LowerChar(s[0])] + Lower(s[1..])
  }

  /** Lower-casing twice is lower-casing once. */
  lemma LowerIdempotent(s: string)
    ensures Lower(Lower(s)) == Lower(s)
  {
    assert forall i :: 0 <= i < |s| ==> LowerChar(Lower(s)[i]) == Lower(s)[i];
  }

  /** Lower-casing works character by character, so it distributes over concatenation. */
  lemma LowerAppend(a: string, b: string)
    ensures Lower(a + b) == Lower(a) + Lower(b)
  {
    assert forall i :: 0 <= i < |a| ==> (a + b)[i] == a[i];
    assert forall i :: |a| <= i < |a + b| ==> (a + b)[i] == b[i - |a|];
  }

  /** A string without capitals is its own lower case. */
  lemma LowerUnchanged(s: string)
    requires forall i :: 0 <= i < |s| ==> !('A' <= s[i] <= 'Z')
    ensures Lower(s) == s
  {
  }

  // ---------------------------------------------------------------------------
  // Whitespace: `lstrip()`, `rstrip()`, `strip()`, `split()`
  // ---------------------------------------------------------------------------

  /** The leading run of non-whitespace characters of `s`. */
  function LeadingWord(s: string): (w: string)
    ensures w <= s
    ensures forall i :: 0 <= i < |w| ==> !IsSpace(w[i])
    ensures |w| < |s| ==> IsSpace(s[|w|])
  {
    if s == [] || IsSpace(s[0]) then [] else [s[0]] + LeadingWord(s[1..])
  }

  /** `s.lstrip()`. */
  function TrimStart(s: string): (r: string)
    ensures |r| <= |s| && r == s[|s| - |r|..]
    ensures r == [] || !IsSpace(r[0])
    ensures forall i :: 0 <= i < |s| - |r| ==> IsSpace(s[i])
  {
    if s != [] && IsSpace(s[0]) then TrimStart(s[1..]) else s
  }

  /** `s.rstrip()`. */
  function TrimEnd(s: string): (r: string)
    ensures r <= s
    ensures r == [] || !IsSpace(r[|r| - 1])
    ensures forall i :: |r| <= i < |s| ==> IsSpace(s[i])
  {
    if s != [] && IsSpace(s[|s| - 1]) then TrimEnd(s[..|s| - 1]) else s
  }

  /** `s.strip()`: the result has no whitespace at either end, and is empty
      exactly when `s` is nothing but whitespace. */
  function Strip(s: string): (r: string)
    ensures IsStripped(r) && |r| <= |s|
    ensures r == [] <==> forall i :: 0 <= i < |s| ==> IsSpace(s[i])
    ensures IsStripped(s) ==> r == s
  {
    var t := TrimStart(s);
    assert t == [] ==> forall i :: 0 <= i < |s| ==> IsSpace(s[i]);
    TrimEnd(t)
  }

  /** `s.split()`: the maximal runs of non-whitespace characters of `s`, in order. */
  function Split(s: string): (words: seq<string>)
    ensures forall w :: w in words ==> IsToken(w)
    decreases |s|
  {
    var t := TrimStart(s);
    if t == [] then []
    else
      var w := LeadingWord(t);
      [w] + Split(t[|w|..])
  }

  /** `sep.join(parts)`. */
  function Join(sep: string, parts: seq<string>): string
  {
    if parts == [] then []
    else if |parts| == 1 then parts[0]
    else parts[0] + sep + Join(sep, parts[1..])
  }

  /** Leading whitespace does not change what `split()` returns. */
  lemma SplitTrimStart(s: string)
    ensures Split(TrimStart(s)) == Split(s)
  {
    assert TrimStart(TrimStart(s)) == TrimStart(s);
  }

  /** `split()` returns nothing exactly for empty or whitespace-only text. */
  lemma SplitBlank(s: string)
    ensures Split(s) == [] <==> forall i :: 0 <= i < |s| ==> IsSpace(s[i])
  {
    var t := TrimStart(s);
    if t != [] {
      assert IsSpace(s[|s| - |t|]) == IsSpace(t[0]);
    }
  }

  /** The leading word of `w + rest` is `w` when `w` holds no whitespace and `rest`
      is empty or starts with whitespace. */
  lemma {:induction false} LeadingWordOf(w: string, rest: string)
    requires forall i :: 0 <= i < |w| ==> !IsSpace(w[i])
    requires rest == [] || IsSpace(rest[0])
    ensures LeadingWord(w + rest) == w
    decreases |w|
  {
    if w != [] {
      assert (w + rest)[1..] == w[1..] + rest;
      LeadingWordOf(w[1..], rest);
    } else {
      assert w + rest == rest;
    }
  }

  /** A word followed by nothing or by whitespace splits off as the first word. */
  lemma SplitConsToken(w: string, rest: string)
    requires IsToken(w)
    requires rest == [] || IsSpace(rest[0])
    ensures Split(w + rest) == [w] + Split(rest)
  {
    var s := w + rest;
    assert s[0] == w[0];
    assert TrimStart(s) == s;
    LeadingWordOf(w, rest);
    assert s[|w|..] == rest;
  }

  /** A leading whitespace character does not change what `split()` returns. */
  lemma SplitSpaceCons(c: char, s: string)
    requires IsSpace(c)
    ensures Split([c] + s) == Split(s)
  {
    assert ([c] + s)[1..] == s;
    assert TrimStart([c] + s) == TrimStart(s);
    SplitTrimStart(s);
  }

  /** Joining words with single spaces and splitting again gives the words back. */
  lemma {:induction false} SplitJoin(words: seq<string>)
    requires forall i :: 0 <= i < |words| ==> IsToken(words[i])
    ensures Split(Join(" ", words)) == words
    decreases |words|
  {
    if words == [] {
    } else {
      var w, tail := words[0], words[1..];
      assert IsToken(w);
      assert words == [w] + tail;
      if tail == [] {
        assert Join(" ", words) == w + [];
        SplitConsToken(w, []);
      } else {
        assert forall i :: 0 <= i < |tail| ==> tail[i] == words[i + 1];
        SplitJoin(tail);
        SplitJoinCons(w, tail);
      }
    }
  }

  /** One step of `SplitJoin`: a word, a space, and the rest of the joined words. */
  lemma SplitJoinCons(w: string, tail: seq<string>)
    requires IsToken(w) && tail != []
    ensures Split(Join(" ", [w] + tail)) == [w] + Split(Join(" ", tail))
  {
    var rest := Join(" ", tail);
    assert ([w] + tail)[1..] == tail;
    assert Join(" ", [w] + tail) == w + ([' '] + rest);
    SplitConsToken(w, [' '] + rest);
    SplitSpaceCons(' ', rest);
  }

  // ---------------------------------------------------------------------------
  // Deletion: `replace(pattern, "")`
  // ---------------------------------------------------------------------------

  /** `s.replace(pattern, "")`: the occurrences of `pattern` found scanning left to
      right, without overlap, are deleted. Replacing the empty string by the empty
      string changes nothing. */
  function RemoveAll(s: string, pattern: string): (r: string)
    ensures |r| <= |s|
    ensures !Contains(s, pattern) ==> r == s
    decreases |s|
  {
    if pattern == [] || s == [] then s
    else if pattern <= s then RemoveAll(s[|pattern|..], pattern)
    else [s[0]] + RemoveAll(s[1..], pattern)
  }
}
