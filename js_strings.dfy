/**
 * The JavaScript and Closure Library string primitives the core relies on,
 * with their exact semantics: `goog.string.isEmptyOrWhitespace`,
 * `Array.prototype.join`, `String.prototype.split` on a one-character
 * separator, `String.prototype.slice(0, -n)`, and a global replace with a
 * literal pattern.
 */
module JsStrings {

  /** The characters matched by `[\s\xa0]` in a JavaScript regular expression. */
  predicate IsWhitespace(c: char) {
    || c == ' ' || c == '\t' || c == '\n' || c == '\r' || c == '\U{000B}' || c == '\U{000C}'
    || c == '\U{00A0}' || c == '\U{1680}' || ('\U{2000}' <= c <= '\U{200A}')
    || c == '\U{2028}' || c == '\U{2029}' || c == '\U{202F}' || c == '\U{205F}'
    || c == '\U{3000}' || c == '\U{FEFF}'
  }

  /** `goog.string.isEmptyOrWhitespace`: empty, or made of whitespace only. */
  predicate IsBlank(s: string) {
    forall i :: 0 <= i < |s| ==> IsWhitespace(s[i])
  }

  /** `xs.join(sep)`. */
  function Join(xs: seq<string>, sep: string): (r: string)
    ensures |xs| == 1 ==> r == xs[0]
  {
    if |xs| == 0 then ""
    else if |xs| == 1 then xs[0]
    else xs[0] + sep + Join(xs[1..], sep)
  }

  /** `s.split(c)` for a one-character separator: never empty, one more piece than separators. */
  function Split(s: string, c: char): (r: seq<string>)
    ensures |r| >= 1
    ensures forall i :: 0 <= i < |r| ==> c !in r[i]
  {
    if s == [] then [""]
    else if s[0] == c then [""] + Split(s[1..], c)
    else
      var rest := Split(s[1..], c);
      [[s[0]] + rest[0]] + rest[1..]
  }

  /** `s.replace(/c/g, '')`: every occurrence of `c` removed. */
  function RemoveChar(s: string, c: char): (r: string)
    ensures c !in r
    ensures forall x :: x in r ==> x in s
  {
    if s == [] then ""
    else (if s[0] == c then "" else [s[0]]) + RemoveChar(s[1..], c)
  }

  /** `s.slice(0, -n)` for n > 0: the last n characters dropped, empty when s is shorter. */
  function DropLast(s: string, n: nat): (r: string)
    requires n > 0
    ensures |s| >= n ==> r + s[|s| - n..] == s
    ensures |s| < n ==> r == ""
  {
    if |s| >= n then s[..|s| - n] else ""
  }

  /** The pattern `find` occurs in `s` at position `i`. */
  predicate OccursAt(s: string, find: string, i: nat) {
    i + |find| <= |s| && s[i..i + |find|] == find
  }

  /**
   * `s.replace(new RegExp(find, 'g'), v)` when `find` holds no regular-expression
   * metacharacter and `v` no `$` pattern: occurrences are replaced left to right
   * and do not overlap. An empty pattern matches before every character and at
   * the end.
   */
  function ReplaceAll(s: string, find: string, v: string): string
    decreases |s|
  {
    if find == [] then
      (if s == [] then v else v + [s[0]] + ReplaceAll(s[1..], find, v))
    else if |s| < |find| then s
    else if s[..|find|] == find then v + ReplaceAll(s[|find|..], find, v)
    else [s[0]] + ReplaceAll(s[1..], find, v)
  }

  /** Text without an occurrence of the pattern is left unchanged. */
  lemma {:induction false} ReplaceAllAbsent(s: string, find: string, v: string)
    requires find != []
    requires forall i :: 0 <= i <= |s| ==> !OccursAt(s, find, i)
    ensures ReplaceAll(s, find, v) == s
  {
    if |s| >= |find| {
      assert !OccursAt(s, find, 0);
      forall i | 0 <= i <= |s[1..]| ensures !OccursAt(s[1..], find, i) {
        assert !OccursAt(s, find, i + 1);
        if i + |find| <= |s[1..]| {
          assert s[1..][i..i + |find|] == s[i + 1..i + 1 + |find|];
        }
      }
      ReplaceAllAbsent(s[1..], find, v);
    }
  }

  /**
   * The first occurrence is replaced and scanning resumes right after it:
   * replacement is left to right and non-overlapping.
   */
  lemma {:induction false} ReplaceAllFirst(a: string, find: string, b: string, v: string)
    requires find != []
    requires forall i :: 0 <= i < |a| ==> !OccursAt(a + find + b, find, i)
    ensures ReplaceAll(a + find + b, find, v) == a + v + ReplaceAll(b, find, v)
    decreases |a|
  {
    var r := ReplaceAll(b, find, v);
    if a == [] {
      assert a + find + b == find + b;
      ReplaceAllAtStart(find, b, v);
      assert a + v + r == v + r;
    } else {
      var s := a + find + b;
      var t := a[1..] + find + b;
      assert s[1..] == t && s[0] == a[0];
      ReplaceAllSkip(s, find, v);
      assert ReplaceAll(s, find, v) == [a[0]] + ReplaceAll(t, find, v);
      forall i | 0 <= i < |a[1..]| ensures !OccursAt(t, find, i) {
        ShiftOccurrence(s, find, i);
      }
      ReplaceAllFirst(a[1..], find, b, v);
      ConsRegroup(a, v, r);
    }
  }

  /** An occurrence at the very start is replaced and scanning resumes after it. */
  lemma ReplaceAllAtStart(find: string, b: string, v: string)
    requires find != []
    ensures ReplaceAll(find + b, find, v) == v + ReplaceAll(b, find, v)
  {
    var s := find + b;
    assert s[..|find|] == find;
    assert s[|find|..] == b;
  }

  lemma ConsRegroup(a: string, v: string, rest: string)
    requires a != []
    ensures [a[0]] + (a[1..] + v + rest) == a + v + rest
  {
    assert [a[0]] + a[1..] == a;
  }

  /** Where the pattern does not start, the first character is kept. */
  lemma ReplaceAllSkip(s: string, find: string, v: string)
    requires find != [] && |s| >= 1 && !OccursAt(s, find, 0)
    ensures ReplaceAll(s, find, v) == [s[0]] + ReplaceAll(s[1..], find, v)
  {
  }

  lemma ShiftOccurrence(s: string, find: string, i: nat)
    requires |s| >= 1
    ensures OccursAt(s[1..], find, i) <==> OccursAt(s, find, i + 1)
  {
    if i + |find| <= |s[1..]| {
      assert s[1..][i..i + |find|] == s[i + 1..i + 1 + |find|];
    }
  }

  /** Appending one more piece adds the separator and that piece to the join. */
  lemma {:induction false} JoinAppend(xs: seq<string>, x: string, sep: string)
    requires xs != []
    ensures Join(xs + [x], sep) == Join(xs, sep) + sep + x
  {
    if |xs| == 1 {
      assert (xs + [x])[1..] == [x];
    } else {
      assert (xs + [x])[1..] == xs[1..] + [x];
      JoinAppend(xs[1..], x, sep);
    }
  }

  /** Every string of `xs` followed by `sep`: what a loop appending `x + sep` per element builds. */
  function Terminated(xs: seq<string>, sep: string): string
  {
    if xs == [] then "" else Terminated(xs[..|xs| - 1], sep) + xs[|xs| - 1] + sep
  }

  lemma TerminatedStep(xs: seq<string>, sep: string, i: nat)
    requires i < |xs|
    ensures Terminated(xs[..i + 1], sep) == Terminated(xs[..i], sep) + xs[i] + sep
  {
    assert xs[..i + 1][..i] == xs[..i];
  }

  /** A terminated list is the joined list plus one trailing separator. */
  lemma {:induction false} TerminatedJoin(xs: seq<string>, sep: string)
    requires xs != []
    ensures Terminated(xs, sep) == Join(xs, sep) + sep
    decreases |xs|
  {
    var init := xs[..|xs| - 1];
    var x := xs[|xs| - 1];
    assert Terminated(xs, sep) == Terminated(init, sep) + x + sep;
    if init == [] {
      assert Terminated(init, sep) + x == x;
    } else {
      assert xs == init + [x];
      TerminatedJoin(init, sep);
      JoinAppend(init, x, sep);
      ConcatRegroup(Join(init, sep), sep, x);
    }
  }

  lemma ConcatRegroup(a: string, sep: string, x: string)
    ensures (a + sep) + x + sep == (a + sep + x) + sep
  {
  }

  /** A join with a following piece puts the separator between the first string and the rest. */
  lemma JoinCons(x: string, ys: seq<string>, sep: string)
    requires ys != []
    ensures Join([x] + ys, sep) == x + sep + Join(ys, sep)
  {
    assert ([x] + ys)[1..] == ys;
  }

  /** Joining the pieces of a split with the separator gives back the text. */
  lemma {:induction false} SplitJoin(s: string, c: char)
    ensures Join(Split(s, c), [c]) == s
    decreases |s|
  {
    if s != [] {
      var rest := Split(s[1..], c);
      SplitJoin(s[1..], c);
      if s[0] == c {
        JoinCons("", rest, [c]);
        assert [c] + s[1..] == s;
      } else if |rest| == 1 {
        assert [s[0]] + s[1..] == s;
      } else {
        var head := [s[0]] + rest[0];
        assert [rest[0]] + rest[1..] == rest;
        JoinCons(rest[0], rest[1..], [c]);
        JoinCons(head, rest[1..], [c]);
        assert [head] + rest[1..] == Split(s, c);
        assert head + [c] + Join(rest[1..], [c]) == [s[0]] + (rest[0] + [c] + Join(rest[1..], [c]));
        assert [s[0]] + s[1..] == s;
      }
    }
  }

  /** `split` stops its first piece at the first separator. */
  lemma {:induction false} SplitFirstPiece(a: string, c: char, b: string)
    requires c !in a
    ensures Split(a + [c] + b, c)[0] == a
  {
    if a != [] {
      assert (a + [c] + b)[1..] == a[1..] + [c] + b;
      SplitFirstPiece(a[1..], c, b);
      assert [a[0]] + a[1..] == a;
    } else {
      assert (a + [c] + b) == [c] + b;
    }
  }

  /** Removing a character that does not occur changes nothing; it distributes over concatenation. */
  lemma {:induction false} RemoveCharConcat(a: string, b: string, c: char)
    ensures RemoveChar(a + b, c) == RemoveChar(a, c) + RemoveChar(b, c)
  {
    if a != [] {
      assert (a + b)[1..] == a[1..] + b;
      RemoveCharConcat(a[1..], b, c);
    } else {
      assert a + b == b;
    }
  }

  lemma {:induction false} RemoveCharAbsent(a: string, c: char)
    requires c !in a
    ensures RemoveChar(a, c) == a
  {
    if a != [] {
      RemoveCharAbsent(a[1..], c);
      assert [a[0]] + a[1..] == a;
    }
  }
}
