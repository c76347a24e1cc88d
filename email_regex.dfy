/**
 * The e-mail rule of the register screen, the regular expression
 * `^[^\s@]+@[^\s@]+\.[^\s@]+$`: what it matches (MatchesEmailRegex, the
 * regular expression's own meaning), how `test` decides it (EmailTest),
 * and the proof that the two agree.
 */
module EmailRegex {
  import opened JsText

  /** One character of the class `[^\s@]`. */
  predicate PlainChar(c: char)
  {
    !IsWs(c) && c != '@'
  }

  /** A run of `[^\s@]` characters (possibly empty). */
  predicate Plain(t: string)
  {
    forall k | 0 <= k < |t| :: PlainChar(t[k])
  }

  /**
   * The regular expression matches `s` with its `@` at index `i` and the
   * `.` it needs at index `j`: three non-empty runs of `[^\s@]` around
   * them, covering the whole string.
   */
  ghost predicate SplitsAt(s: string, i: int, j: int)
  {
    && 0 < i && i + 1 < j && j + 1 < |s|
    && Plain(s[..i]) && s[i] == '@'
    && Plain(s[i + 1..j]) && s[j] == '.'
    && Plain(s[j + 1..])
  }

  /** `s` is in the language of `^[^\s@]+@[^\s@]+\.[^\s@]+$`. */
  ghost predicate MatchesEmailRegex(s: string): (b: bool)
    ensures b ==> |s| >= 5 && '@' in s && '.' in s
  {
    exists i, j :: SplitsAt(s, i, j)
  }

  /** No character of `s` is whitespace. */
  predicate NoWhitespace(s: string)
  {
    forall k | 0 <= k < |s| :: !IsWs(s[k])
  }

  /** How many times `c` occurs in `s`. */
  function Count(s: string, c: char): (n: nat)
    ensures n == 0 <==> c !in s
  {
    if s == [] then 0 else (if s[0] == c then 1 else 0) + Count(s[1..], c)
  }

  /** The index of the first `c` in `s`, or `|s|` when there is none. */
  function IndexOf(s: string, c: char): (i: nat)
    ensures i <= |s|
    ensures i < |s| ==> s[i] == c
    ensures c !in s[..i]
  {
    if s == [] then 0
    else if s[0] == c then 0
    else
      var k := IndexOf(s[1..], c);
      assert s[1..][..k] == s[1..k + 1];
      k + 1
  }

  /** A `.` with at least one character on each side of it in `d`. */
  predicate DotInside(d: string)
  {
    |d| >= 3 && '.' in d[1..|d| - 1]
  }

  /**
   * `emailRegex.test(s)`: no whitespace, exactly one `@`, a non-empty part
   * before it, and a `.` inside the part after it.
   */
  function EmailTest(s: string): (ok: bool)
    ensures ok <==> MatchesEmailRegex(s)
  {
    var at := IndexOf(s, '@');
    EmailCharacterisation(s);
    NoWhitespace(s) && Count(s, '@') == 1 && 0 < at && DotInside(s[at + 1..])
  }

  lemma {:induction false} CountAppend(a: string, b: string, c: char)
    ensures Count(a + b, c) == Count(a, c) + Count(b, c)
    decreases |a|
  {
    if a == [] {
      assert a + b == b;
    } else {
      assert (a + b)[0] == a[0] && (a + b)[1..] == a[1..] + b;
      CountAppend(a[1..], b, c);
    }
  }

  /** If `c` occurs first at `i`, IndexOf finds `i`. */
  lemma IndexOfFirst(s: string, c: char, i: int)
    requires 0 <= i < |s| && s[i] == c && c !in s[..i]
    ensures IndexOf(s, c) == i
  {
  }

  /** A run of `[^\s@]` holds no `@`. */
  lemma PlainHasNoAt(t: string)
    requires Plain(t)
    ensures '@' !in t
  {
  }

  /** Characters `lo` to `hi` of `s` that are all `[^\s@]` form a run. */
  lemma PlainSlice(s: string, lo: int, hi: int)
    requires 0 <= lo <= hi <= |s|
    requires forall k | lo <= k < hi :: PlainChar(s[k])
    ensures Plain(s[lo..hi])
  {
  }

  /** The `@` of a match is the only one in the string. */
  lemma SplitHasOneAt(s: string, i: int, j: int)
    requires SplitsAt(s, i, j)
    ensures Count(s, '@') == 1 && IndexOf(s, '@') == i
  {
    var local, domain := s[..i], s[i + 1..];
    assert s == local + [s[i]] + domain;
    assert domain == s[i + 1..j] + [s[j]] + s[j + 1..];
    PlainHasNoAt(local);
    PlainHasNoAt(s[i + 1..j]);
    PlainHasNoAt(s[j + 1..]);
    CountAppend(s[i + 1..j], [s[j]], '@');
    CountAppend(s[i + 1..j] + [s[j]], s[j + 1..], '@');
    CountAppend(local, [s[i]], '@');
    CountAppend(local + [s[i]], domain, '@');
    IndexOfFirst(s, '@', i);
  }

  /** No character of a match is whitespace. */
  lemma SplitHasNoWhitespace(s: string, i: int, j: int)
    requires SplitsAt(s, i, j)
    ensures NoWhitespace(s)
  {
  }

  /** Exactly one `c` in `s`, at index `i`: every other character differs from `c`. */
  lemma OnlyOccurrence(s: string, c: char, i: int)
    requires 0 <= i < |s| && s[i] == c && Count(s, c) == 1
    ensures c !in s[..i] && c !in s[i + 1..]
  {
    assert s == s[..i] + [s[i]] + s[i + 1..];
    CountAppend(s[..i], [s[i]], c);
    CountAppend(s[..i] + [s[i]], s[i + 1..], c);
  }

  /**
   * The regular expression accepts exactly the strings that have no
   * whitespace, exactly one `@` with at least one character before it,
   * and after the `@` a `.` with at least one character on each side.
   */
  lemma EmailCharacterisation(s: string)
    ensures MatchesEmailRegex(s) <==>
      && NoWhitespace(s)
      && Count(s, '@') == 1
      && 0 < IndexOf(s, '@')
      && DotInside(s[IndexOf(s, '@') + 1..])
  {
    if MatchesEmailRegex(s) {
      var i, j :| SplitsAt(s, i, j);
      SplitHasOneAt(s, i, j);
      SplitHasNoWhitespace(s, i, j);
      var d := s[i + 1..];
      assert d[1..|d| - 1][j - i - 2] == '.';
    }
    var at := IndexOf(s, '@');
    if NoWhitespace(s) && Count(s, '@') == 1 && 0 < at && DotInside(s[at + 1..]) {
      var d := s[at + 1..];
      var k :| 0 <= k < |d| - 2 && d[1..|d| - 1][k] == '.';
      var j := at + 2 + k;
      OnlyOccurrence(s, '@', at);
      forall m | 0 <= m < |s| && m != at ensures PlainChar(s[m]) {
        if m < at {
          assert s[m] == s[..at][m];
        } else {
          assert s[m] == s[at + 1..][m - at - 1];
        }
      }
      PlainSlice(s, 0, at);
      PlainSlice(s, at + 1, j);
      PlainSlice(s, j + 1, |s|);
      assert s[0..at] == s[..at] && s[j + 1..|s|] == s[j + 1..];
      assert SplitsAt(s, at, j);
    }
  }
}

module EmailRegexExamples {
  import opened EmailRegex

  /** Addresses the rule accepts, trailing and doubled dots included. */
  lemma Accepted()
    ensures MatchesEmailRegex("a@b.c")
    ensures MatchesEmailRegex("a@b.c.")
    ensures MatchesEmailRegex("a@b..c")
  {
    assert SplitsAt("a@b.c", 1, 3);
    assert SplitsAt("a@b.c.", 1, 3);
    assert SplitsAt("a@b..c", 1, 3);
  }

  /** Addresses the rule rejects. */
  lemma Rejected()
    ensures !MatchesEmailRegex("a@b")
    ensures !MatchesEmailRegex("a@@b.c")
    ensures !MatchesEmailRegex("a b@c.d")
    ensures !MatchesEmailRegex("@b.c")
    ensures !MatchesEmailRegex("a@.c")
  {
    assert !EmailTest("a@b");
    assert !EmailTest("a@@b.c");
    assert !EmailTest("a b@c.d");
    assert !EmailTest("@b.c");
    assert !EmailTest("a@.c");
  }
}
