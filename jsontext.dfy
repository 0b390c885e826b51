/**
 * The JSON array text the query and history builders write into their buffers:
 * "[" + the elements, with a comma before every element but the first, + "]".
 */
module JsonText {

  /** Elements separated by single commas, one between each neighbouring pair. */
  function Joined(elems: seq<string>): string {
    if |elems| == 0 then ""
    else if |elems| == 1 then elems[0]
    else Joined(elems[..|elems| - 1]) + "," + elems[|elems| - 1]
  }

  function JsonArray(elems: seq<string>): string {
    "[" + Joined(elems) + "]"
  }

  /** Each element rendered with `render`, in order. */
  function Rendered<T>(xs: seq<T>, render: T -> string): (r: seq<string>)
    ensures |r| == |xs| && forall i :: 0 <= i < |xs| ==> r[i] == render(xs[i])
  {
    seq(|xs|, i requires 0 <= i < |xs| => render(xs[i]))
  }

  lemma RenderedAppend<T>(xs: seq<T>, x: T, render: T -> string)
    ensures Rendered(xs + [x], render) == Rendered(xs, render) + [render(x)]
  {
  }

  /** Total length of the elements. */
  function TotalLength(elems: seq<string>): nat {
    if |elems| == 0 then 0 else TotalLength(elems[..|elems| - 1]) + |elems[|elems| - 1]|
  }

  /** Joining two non-empty runs puts exactly one comma at the seam. */
  lemma {:induction false} JoinedAppend(a: seq<string>, b: seq<string>)
    requires |a| > 0 && |b| > 0
    ensures Joined(a + b) == Joined(a) + "," + Joined(b)
    decreases |b|
  {
    if |b| == 1 {
      assert (a + b)[..|a + b| - 1] == a;
    } else {
      assert (a + b)[..|a + b| - 1] == a + b[..|b| - 1];
      JoinedAppend(a, b[..|b| - 1]);
    }
  }

  /** The array text holds the elements and exactly |elems| - 1 commas besides the brackets. */
  lemma {:induction false} JsonArrayLength(elems: seq<string>)
    ensures |JsonArray(elems)| == 2 + TotalLength(elems) + (if |elems| == 0 then 0 else |elems| - 1)
  {
    JoinedLength(elems);
  }

  lemma {:induction false} JoinedLength(elems: seq<string>)
    ensures |Joined(elems)| == TotalLength(elems) + (if |elems| == 0 then 0 else |elems| - 1)
    decreases |elems|
  {
    if |elems| > 1 {
      JoinedLength(elems[..|elems| - 1]);
    }
  }

  lemma JsonArrayEmpty()
    ensures JsonArray([]) == "[]"
  {
  }

  // ---------------------------------------------------------------- buffer writes

  /** Writing pieces one after another onto a buffer appends their concatenation. */
  lemma Regroup2(m: string, a: string, b: string)
    ensures m + a + b == m + (a + b)
  {
  }

  lemma Regroup3(m: string, a: string, b: string, c: string)
    ensures m + a + b + c == m + (a + b + c)
  {
  }

  lemma Regroup4(m: string, a: string, b: string, c: string, d: string)
    ensures m + a + b + c + d == m + (a + b + c + d)
  {
  }

  lemma Regroup5(m: string, a: string, b: string, c: string, d: string, e: string)
    ensures m + a + b + c + d + e == m + (a + b + c + d + e)
  {
  }
}
