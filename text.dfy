/**
 * The string operations the plan templates rely on: `toLowerCase`, a literal
 * substring test (what a regular expression made of plain keywords does),
 * `split(sep)[0]`, `replace(/\.$/, "")`, `join(sep)` and the `xs[i] ?? fallback`
 * lookup. Lower-casing is modelled for ASCII letters only.
 */
module Text {

  /** `c.toLowerCase()` for one character, ASCII letters only. */
  function LowerChar(c: char): (d: char)
    ensures 'A' <= c <= 'Z' ==> d as int == c as int + 32
    ensures !('A' <= c <= 'Z') ==> d == c
  {
    if 'A' <= c <= 'Z' then (c as int + 32) as char else c
  }

  /** `s.toLowerCase()`: every character lower-cased, nothing else changes. */
  function Lower(s: string): (r: string)
    ensures |r| == |s|
    ensures forall i :: 0 <= i < |s| ==> r[i] == LowerChar(s[i])
  {
    seq(|s|, i requires 0 <= i < |s| => LowerChar(s[i]))
  }

  lemma LowerAppend(a: string, b: string)
    ensures Lower(a + b) == Lower(a) + Lower(b)
  {
    assert forall i :: 0 <= i < |a + b| ==> Lower(a + b)[i] == (Lower(a) + Lower(b))[i];
  }

  /** Lower-casing twice is lower-casing once. */
  lemma LowerIdempotent(s: string)
    ensures Lower(Lower(s)) == Lower(s)
  {
  }

  /** `word` occurs in `text` starting at position `i`. */
  ghost predicate OccursAt(text: string, word: string, i: int)
  {
    0 <= i && i + |word| <= |text| && text[i..i + |word|] == word
  }

  /**
   * `text.includes(word)`, which is also what `/word/.test(text)` does for a
   * pattern made of literal characters.
   */
  function Contains(text: string, word: string): (found: bool)
    ensures found <==> exists i :: OccursAt(text, word, i)
    decreases |text|
  {
    if |word| > |text| then false
    else if text[..|word|] == word then assert OccursAt(text, word, 0); true
    else
      var rest := Contains(text[1..], word);
      assert forall i :: OccursAt(text[1..], word, i) <==> OccursAt(text, word, i + 1) by {
        forall i ensures OccursAt(text[1..], word, i) <==> OccursAt(text, word, i + 1) {
          if 0 <= i && i + |word| <= |text[1..]| {
            assert text[1..][i..i + |word|] == text[i + 1..i + 1 + |word|];
          }
        }
      }
      assert !OccursAt(text, word, 0);
      assert (exists i :: OccursAt(text, word, i)) ==> exists i :: OccursAt(text[1..], word, i) by {
        if exists i :: OccursAt(text, word, i) {
          var i :| OccursAt(text, word, i);
          assert OccursAt(text[1..], word, i - 1);
        }
      }
      rest
  }

  /** `s.endsWith(suffix)`. */
  predicate EndsWith(s: string, suffix: string)
  {
    |suffix| <= |s| && s[|s| - |suffix|..] == suffix
  }

  /** `s.split(sep)[0]`: the part of `s` before the first `sep`, or all of `s`. */
  function Before(s: string, sep: char): (r: string)
    ensures r <= s
    ensures sep !in r
    ensures |r| < |s| ==> s[|r|] == sep
  {
    if s == [] || s[0] == sep then [] else [s[0]] + Before(s[1..], sep)
  }

  /** `s.replace(/\.$/, "")`: one final period is dropped, nothing else. */
  function StripFinalPeriod(s: string): (r: string)
    ensures r + "." == s || (r == s && (s == [] || s[|s| - 1] != '.'))
    ensures |r| >= |s| - 1
  {
    if s != [] && s[|s| - 1] == '.' then s[..|s| - 1] else s
  }

  /** `parts.join(sep)`. */
  function Join(parts: seq<string>, sep: string): (r: string)
    ensures parts == [] ==> r == ""
    ensures |parts| == 1 ==> r == parts[0]
    ensures |parts| > 0 ==> parts[0] <= r
  {
    if parts == [] then ""
    else if |parts| == 1 then parts[0]
    else parts[0] + sep + Join(parts[1..], sep)
  }

  /** Joining one more part appends the separator and that part. */
  lemma {:induction false} JoinSnoc(parts: seq<string>, p: string, sep: string)
    requires |parts| > 0
    ensures Join(parts + [p], sep) == Join(parts, sep) + sep + p
    decreases |parts|
  {
    var whole := parts + [p];
    assert whole[0] == parts[0];
    if |parts| == 1 {
      assert whole[1..] == [p];
    } else {
      assert whole[1..] == parts[1..] + [p];
      JoinSnoc(parts[1..], p, sep);
    }
  }

  function LowerAll(parts: seq<string>): (r: seq<string>)
    ensures |r| == |parts|
    ensures forall i :: 0 <= i < |parts| ==> r[i] == Lower(parts[i])
  {
    seq(|parts|, i requires 0 <= i < |parts| => Lower(parts[i]))
  }

  /** Lower-casing a joined list is joining the lower-cased parts with a lower-cased separator. */
  lemma {:induction false} LowerJoin(parts: seq<string>, sep: string)
    ensures Lower(Join(parts, sep)) == Join(LowerAll(parts), Lower(sep))
    decreases |parts|
  {
    if |parts| > 1 {
      LowerJoin(parts[1..], sep);
      LowerAppend(parts[0] + sep, Join(parts[1..], sep));
      LowerAppend(parts[0], sep);
      assert LowerAll(parts)[1..] == LowerAll(parts[1..]);
    }
  }

  /** `xs[i] ?? fallback`: the element at `i` when there is one. */
  function ElementOr(xs: seq<string>, i: nat, fallback: string): (r: string)
    ensures i < |xs| ==> r == xs[i]
    ensures i >= |xs| ==> r == fallback
  {
    if i < |xs| then xs[i] else fallback
  }
}
