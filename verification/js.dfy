/** The few JavaScript built-ins the classifiers rely on, with the exact
    semantics the source gets from the language: Math.round, the `%`
    operator on integers, String.prototype.includes and Array.prototype.join.
    `Option` stands for a value that may be `undefined` or `null`. */
module Js {

  datatype Option<+T> = None | Some(value: T)

  /** Math.round: the nearest integer, halves rounded toward +infinity
      (so -0.5 rounds to 0 and 0.5 rounds to 1). */
  function Round(x: real): (r: int)
    ensures r as real - 0.5 <= x < r as real + 0.5
  {
    (x + 0.5).Floor
  }

  /** The JavaScript remainder `a % d` on integers: it truncates toward zero,
      so the result takes the sign of the dividend (unlike Dafny's `%`). */
  function Rem(a: int, d: int): (r: int)
    requires d > 0
    ensures a >= 0 ==> 0 <= r < d
    ensures a < 0 ==> -d < r <= 0
    ensures a >= 0 ==> r == a % d
  {
    if a >= 0 then a % d else -((-a) % d)
  }

  /** String.prototype.includes: `key` occurs in `text` at some offset. */
  predicate Includes(text: string, key: string): (r: bool)
    ensures r ==> |key| <= |text|
  {
    exists i :: 0 <= i <= |text| && key <= text[i..]
  }

  lemma IncludesAt(text: string, key: string, i: nat)
    requires i <= |text| && key <= text[i..]
    ensures Includes(text, key)
  {
  }

  /** A key can only occur in a text at least as long, and a key as long as
      the text occurs in it only when the two are equal. */
  lemma IncludesLength(text: string, key: string)
    requires Includes(text, key)
    ensures |key| <= |text|
    ensures |key| == |text| ==> key == text
  {
    var i :| 0 <= i <= |text| && key <= text[i..];
    if |key| == |text| {
      assert i == 0;
      assert text[0..] == text;
    }
  }

  /** Occurrence is transitive: a key inside a word inside a text is inside
      the text. */
  lemma IncludesTransitive(text: string, word: string, key: string)
    requires Includes(text, word) && Includes(word, key)
    ensures Includes(text, key)
  {
    var i :| 0 <= i <= |text| && word <= text[i..];
    var j :| 0 <= j <= |word| && key <= word[j..];
    forall n | 0 <= n < |key|
      ensures text[i + j..][n] == key[n]
    {
      assert word[j..][n] == key[n];
      assert text[i..][j + n] == word[j + n];
    }
    IncludesAt(text, key, i + j);
  }

  /** A key that occurs in a part occurs in any text built around it. */
  lemma IncludesInConcat(before: string, middle: string, after: string, key: string)
    requires Includes(middle, key)
    ensures Includes(before + middle + after, key)
  {
    var i :| 0 <= i <= |middle| && key <= middle[i..];
    var t := before + middle + after;
    forall n | 0 <= n < |key|
      ensures t[|before| + i..][n] == key[n]
    {
      assert middle[i..][n] == key[n];
    }
    IncludesAt(t, key, |before| + i);
  }

  lemma IncludesSelf(text: string)
    ensures Includes(text, text)
  {
    assert text[0..] == text;
  }

  /** Array.prototype.join: the parts separated by `sep`; no parts give "". */
  function Join(parts: seq<string>, sep: string): (r: string)
    ensures |parts| == 0 ==> r == ""
    ensures |parts| > 0 ==> |r| == SumOfLengths(parts) + (|parts| - 1) * |sep|
  {
    if |parts| == 0 then ""
    else if |parts| == 1 then parts[0]
    else parts[0] + sep + Join(parts[1..], sep)
  }

  function SumOfLengths(parts: seq<string>): nat
  {
    if |parts| == 0 then 0 else |parts[0]| + SumOfLengths(parts[1..])
  }

  /** Every part of a join occurs in the joined text. */
  lemma {:induction false} JoinIncludesParts(parts: seq<string>, sep: string, k: nat)
    requires k < |parts|
    ensures Includes(Join(parts, sep), parts[k])
  {
    if |parts| == 1 {
      IncludesSelf(parts[0]);
    } else if k == 0 {
      IncludesSelf(parts[0]);
      IncludesInConcat("", parts[0], sep + Join(parts[1..], sep), parts[0]);
      assert "" + parts[0] + (sep + Join(parts[1..], sep)) == Join(parts, sep);
    } else {
      JoinIncludesParts(parts[1..], sep, k - 1);
      IncludesInConcat(parts[0] + sep, Join(parts[1..], sep), "", parts[k]);
      assert parts[0] + sep + Join(parts[1..], sep) + "" == Join(parts, sep);
    }
  }
}
