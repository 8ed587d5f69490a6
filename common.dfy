/** Shared vocabulary of the model: optional values, results, the outcome of a
    field validator, and the order-preserving filter that both JavaScript's
    `Array.prototype.filter` and an equality query over an entity table
    amount to. */
module Common {

  datatype Option<+T> = None | Some(value: T)

  datatype Result<+T, +E> = Ok(value: T) | Err(error: E)

  /** What a field validator hands back to the entity store: `true`, or a
      message (or error) explaining the rejection. */
  datatype Check = Accepted | Refused(message: string)

  /** What a `v1.routes.resolve` call with `throwIfNotExist: false` settles
      to: an answer, which may or may not name a route, or a rejection. */
  datatype ResolveReply = Answered(found: bool) | CallFailed(error: string)

  /** The rejection text both uniqueness validators build from the
      parameters they were given and the value under validation. */
  function AlreadyAttached(name: string, port: string, value: string): string
  {
    "The name app '" + name + "' is already attached to '" + port + "' as '" + value + "'."
  }

  /** The elements of `s` that satisfy `p`, in their original order. */
  function Filter<T>(s: seq<T>, p: T -> bool): (r: seq<T>)
    ensures |r| <= |s|
    ensures forall i :: 0 <= i < |r| ==> r[i] in s && p(r[i])
    ensures forall i :: 0 <= i < |s| && p(s[i]) ==> s[i] in r
  {
    if |s| == 0 then []
    else
      var rest := Filter(s[1..], p);
      assert forall i :: 1 <= i < |s| ==> s[i] == s[1..][i - 1];
      if p(s[0]) then [s[0]] + rest else rest
  }

  /** The number of elements of `s` that satisfy `p` (what a count query
      returns). */
  function Count<T>(s: seq<T>, p: T -> bool): nat
  {
    |Filter(s, p)|
  }

  /** Filtering distributes over concatenation: together with the value on
      one-element sequences, this pins the filter down as order preserving. */
  lemma {:induction false} FilterAppend<T>(a: seq<T>, b: seq<T>, p: T -> bool)
    ensures Filter(a + b, p) == Filter(a, p) + Filter(b, p)
  {
    if |a| == 0 {
      assert a + b == b;
    } else {
      assert (a + b)[0] == a[0];
      assert (a + b)[1..] == a[1..] + b;
      FilterAppend(a[1..], b, p);
    }
  }

  /** A filter keeps everything exactly when every element qualifies. */
  lemma {:induction false} FilterKeepsAll<T>(s: seq<T>, p: T -> bool)
    ensures Filter(s, p) == s <==> forall i :: 0 <= i < |s| ==> p(s[i])
  {
    if |s| > 0 {
      FilterKeepsAll(s[1..], p);
      if !p(s[0]) {
        assert s[0] !in Filter(s, p);
      } else {
        assert forall i :: 1 <= i < |s| ==> s[i] == s[1..][i - 1];
      }
    }
  }

  /** A count is zero exactly when no element qualifies. */
  lemma CountZero<T>(s: seq<T>, p: T -> bool)
    ensures Count(s, p) == 0 <==> forall i :: 0 <= i < |s| ==> !p(s[i])
  {
    if Count(s, p) != 0 {
      assert Filter(s, p)[0] in Filter(s, p);
    }
  }
}
