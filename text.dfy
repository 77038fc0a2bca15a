/**
 * Character-sequence helpers that stand for the JavaScript string operations
 * the generator relies on: global single-character `replace`, `indexOf`,
 * `Array.prototype.join` and, as a reading aid for the proofs, `split`.
 */
module Text {
  import opened Wrappers

  /** Number of occurrences of `c` in `s`. */
  function Count(s: string, c: char): nat
  {
    if s == [] then 0 else (if s[0] == c then 1 else 0) + Count(s[1..], c)
  }

  /** `s.replace(/c/g, rep)`: every occurrence of `c`, left to right, becomes `rep`. */
  function Replace(s: string, c: char, rep: string): string
  {
    if s == [] then [] else (if s[0] == c then rep else [s[0]]) + Replace(s[1..], c, rep)
  }

  lemma ReplaceOne(d: char, c: char, rep: string)
    ensures Replace([d], c, rep) == if d == c then rep else [d]
  {
    assert [d][1..] == [];
  }

  lemma {:induction false} ReplaceAppend(a: string, b: string, c: char, rep: string)
    ensures Replace(a + b, c, rep) == Replace(a, c, rep) + Replace(b, c, rep)
  {
    if a == [] {
      assert a + b == b;
    } else {
      assert (a + b)[0] == a[0];
      assert (a + b)[1..] == a[1..] + b;
      ReplaceAppend(a[1..], b, c, rep);
    }
  }

  /** `s.indexOf(c)`, with `None` standing for -1. */
  function FirstIndex(s: string, c: char): (r: Option<nat>)
    ensures r.None? <==> c !in s
    ensures r.Some? ==> r.value < |s| && s[r.value] == c && c !in s[..r.value]
  {
    if s == [] then None
    else if s[0] == c then Some(0)
    else match FirstIndex(s[1..], c)
      case None => None
      case Some(i) =>
        assert s[..i + 1] == [s[0]] + s[1..][..i];
        Some(i + 1)
  }

  /** Whatever follows a prefix free of `c`, the first `c` is the one right after the prefix. */
  lemma FirstIndexAfter(p: string, c: char, rest: string)
    requires c !in p
    ensures FirstIndex(p + [c] + rest, c) == Some(|p|)
  {
    var s := p + [c] + rest;
    var r := FirstIndex(s, c);
    assert s[|p|] == c;
    assert s[..|p|] == p;
    assert c in s[..|p| + 1];
  }

  /** The strings of `ss` one after another. */
  function Concat(ss: seq<string>): string
  {
    if ss == [] then "" else ss[0] + Concat(ss[1..])
  }

  /** `tokens.join(sep)`. */
  function Join(tokens: seq<string>, sep: string): string
  {
    if tokens == [] then ""
    else if |tokens| == 1 then tokens[0]
    else tokens[0] + sep + Join(tokens[1..], sep)
  }

  /** `s.split(c)`: the maximal `c`-free pieces of `s`, in order. */
  function Split(s: string, c: char): (r: seq<string>)
    ensures |r| > 0
    decreases |s|
  {
    match FirstIndex(s, c)
    case None => [s]
    case Some(i) => [s[..i]] + Split(s[i + 1..], c)
  }

  /** Joining pieces that do not contain the separator can be undone by splitting. */
  lemma {:induction false} SplitJoin(tokens: seq<string>, c: char)
    requires |tokens| > 0
    requires forall k :: 0 <= k < |tokens| ==> c !in tokens[k]
    ensures Split(Join(tokens, [c]), c) == tokens
  {
    if |tokens| == 1 {
      assert FirstIndex(tokens[0], c).None?;
    } else {
      var rest := Join(tokens[1..], [c]);
      assert Join(tokens, [c]) == tokens[0] + [c] + rest;
      FirstIndexAfter(tokens[0], c, rest);
      var s := tokens[0] + [c] + rest;
      assert s[..|tokens[0]|] == tokens[0];
      assert s[|tokens[0]| + 1..] == rest;
      SplitJoin(tokens[1..], c);
    }
  }
}
