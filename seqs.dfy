/**
 * The sequence and string operations the page script builds its text
 * with: `forEach` that emits one child per item, the `a || b || ...`
 * default chain, and `[...].filter(Boolean).join(sep)`.
 */
module Seqs {

  /** One rendered value per input item, in input order. */
  function MapSeq<A, B>(f: A -> B, s: seq<A>): (r: seq<B>)
    ensures |r| == |s|
  {
    if s == [] then [] else [f(s[0])] + MapSeq(f, s[1..])
  }

  /** Rendering one more item appends one more child: the step of a `forEach` that appends. */
  lemma {:induction false} MapSeqSnoc<A, B>(f: A -> B, s: seq<A>, x: A)
    ensures MapSeq(f, s + [x]) == MapSeq(f, s) + [f(x)]
  {
    if s != [] {
      assert (s + [x])[1..] == s[1..] + [x];
      MapSeqSnoc(f, s[1..], x);
    }
  }

  /** The child at position `k` is the rendering of the item at position `k`. */
  lemma {:induction false} MapSeqAt<A, B>(f: A -> B, s: seq<A>, k: int)
    requires 0 <= k < |s|
    ensures MapSeq(f, s)[k] == f(s[k])
  {
    if k > 0 {
      MapSeqAt(f, s[1..], k - 1);
    }
  }

  /**
   * JavaScript's `xs[0] || xs[1] || ...` over strings: the first non-empty
   * string, or "" when all are empty.
   */
  function FirstNonEmpty(xs: seq<string>): (r: string)
    ensures r == "" <==> forall i | 0 <= i < |xs| :: xs[i] == ""
    ensures r != "" ==> exists i | 0 <= i < |xs| :: xs[i] == r && forall j | 0 <= j < i :: xs[j] == ""
  {
    if xs == [] then ""
    else if xs[0] != "" then xs[0]
    else
      var rest := FirstNonEmpty(xs[1..]);
      assert forall i | 1 <= i < |xs| :: xs[i] == xs[1..][i - 1];
      rest
  }

  /** When `xs[i]` is the first non-empty string, the chain yields it. */
  lemma {:induction false} FirstNonEmptyAt(xs: seq<string>, i: int)
    requires 0 <= i < |xs| && xs[i] != ""
    requires forall j | 0 <= j < i :: xs[j] == ""
    ensures FirstNonEmpty(xs) == xs[i]
  {
    if i > 0 {
      assert xs[0] == "";
      FirstNonEmptyAt(xs[1..], i - 1);
    }
  }

  /** `a || b`: `a` unless it is empty. */
  lemma FirstNonEmptyPair(a: string, b: string)
    ensures FirstNonEmpty([a, b]) == if a != "" then a else b
  {
    if a != "" {
      FirstNonEmptyAt([a, b], 0);
    } else if b != "" {
      FirstNonEmptyAt([a, b], 1);
    }
  }

  /** `xs.filter(Boolean)` over strings: the non-empty ones, in order. */
  function NonEmpty(xs: seq<string>): (r: seq<string>)
    ensures forall i | 0 <= i < |r| :: r[i] != ""
    ensures forall s :: s in r <==> s in xs && s != ""
    ensures |r| <= |xs|
  {
    if xs == [] then []
    else
      assert xs == [xs[0]] + xs[1..];
      if xs[0] == "" then NonEmpty(xs[1..])
      else [xs[0]] + NonEmpty(xs[1..])
  }

  /**
   * Filtering a concatenation filters each part and keeps them in order;
   * with `NonEmpty([]) == []` and `NonEmpty([s])` being `[s]` exactly when
   * `s` is non-empty, this fixes the result of `filter(Boolean)` on any list.
   */
  lemma {:induction false} NonEmptyAppend(xs: seq<string>, ys: seq<string>)
    ensures NonEmpty(xs + ys) == NonEmpty(xs) + NonEmpty(ys)
  {
    if xs == [] {
      assert xs + ys == ys;
    } else {
      assert (xs + ys)[0] == xs[0] && (xs + ys)[1..] == xs[1..] + ys;
      NonEmptyAppend(xs[1..], ys);
    }
  }

  /** A one-element list is kept exactly when its element is non-empty. */
  lemma NonEmptySingle(s: string)
    ensures NonEmpty([s]) == if s == "" then [] else [s]
  {
    assert [s][1..] == [];
  }

  /** `parts.join(sep)`. */
  function Join(parts: seq<string>, sep: string): string {
    if parts == [] then ""
    else if |parts| == 1 then parts[0]
    else parts[0] + sep + Join(parts[1..], sep)
  }

  /**
   * `[a, b].filter(Boolean).join(sep)`: the separator appears only between
   * two non-empty parts; an empty part is dropped.
   */
  lemma JoinNonEmptyPair(a: string, b: string, sep: string)
    ensures Join(NonEmpty([a, b]), sep) ==
      if a == "" then b
      else if b == "" then a
      else a + sep + b
  {
    assert [a, b][1..] == [b];
    NonEmptySingle(b);
  }
}
