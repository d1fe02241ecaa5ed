/** Shared vocabulary: optional values, what a failed call throws, the outcome of
    a call that may throw, and the few string predicates the dashboard uses
    (String.prototype.startsWith, endsWith and includes). */
module Common {

  datatype Option<+T> = None | Some(value: T) {
    function GetOr(default: T): T {
      match this
      case Some(v) => v
      case None => default
    }
  }

  /** What a `catch` block receives. Every exception raised by the HTTP client is
      an `Error` carrying a `message`, and may carry the `message` field of the
      server's response body; `new Error(m)` raised by the dashboard itself is a
      plain `Error`; anything else that is thrown is not an `Error` at all. */
  datatype Thrown =
    | AxiosFailure(message: string, responseMessage: Option<string>)
    | PlainFailure(message: string)
    | NonError
  {
    /** `error instanceof Error` */
    predicate IsError() {
      !NonError?
    }
  }

  /** The outcome of a call that either returns a value or throws. */
  datatype Outcome<+T> = Ok(value: T) | Err(error: Thrown)

  /** The banner text the list views show for a caught failure:
      `err instanceof Error ? err.message : 'An unexpected error occurred'`. */
  function ErrorText(e: Thrown): (r: string)
    ensures e.IsError() ==> r == e.message
    ensures !e.IsError() ==> r == "An unexpected error occurred"
  {
    if e.IsError() then e.message else "An unexpected error occurred"
  }

  /** The error the list views raise before any request when no profile is active. */
  const NoActiveServerMessage: string :=
    "No active WooCommerce server configured. Please set up a server in the Settings page."

  predicate StartsWith(s: string, prefix: string) {
    |prefix| <= |s| && s[..|prefix|] == prefix
  }

  predicate EndsWith(s: string, suffix: string) {
    |suffix| <= |s| && s[|s| - |suffix|..] == suffix
  }

  /** A prefix stays a prefix behind a common head. */
  lemma StartsWithBehind(head: string, s: string, prefix: string)
    requires StartsWith(s, prefix)
    ensures StartsWith(head + s, head + prefix)
  {
    assert (head + s)[..|head + prefix|] == head + s[..|prefix|];
  }

  /** `t` occurs in `s` starting at position `i`. */
  predicate OccursAt(s: string, t: string, i: int) {
    0 <= i <= |s| - |t| && s[i..i + |t|] == t
  }

  /** `s.includes(t)`: does `t` occur in `s` as a contiguous substring?
      Tries the start positions of `s` one by one. */
  function Includes(s: string, t: string): (r: bool)
    decreases |s|
    ensures r <==> exists i :: OccursAt(s, t, i)
  {
    if StartsWith(s, t) then
      assert OccursAt(s, t, 0);
      true
    else if s == [] then
      false
    else
      IncludesShift(s, t);
      Includes(s[1..], t)
  }

  /** Past a start position that does not match, the occurrences of `t` in `s`
      are the occurrences in `s[1..]`, shifted by one. */
  lemma IncludesShift(s: string, t: string)
    requires s != [] && !StartsWith(s, t)
    ensures (exists i :: OccursAt(s, t, i)) <==> (exists i :: OccursAt(s[1..], t, i))
  {
    if i :| OccursAt(s, t, i) {
      assert i != 0;
      assert s[1..][i - 1..i - 1 + |t|] == t;
      assert OccursAt(s[1..], t, i - 1);
    }
    if i :| OccursAt(s[1..], t, i) {
      assert s[i + 1..i + 1 + |t|] == t;
      assert OccursAt(s, t, i + 1);
    }
  }

  /** A string that includes `a + b` includes `a`, at the same position. */
  lemma IncludesPrefix(s: string, a: string, b: string)
    requires Includes(s, a + b)
    ensures Includes(s, a)
  {
    var i :| OccursAt(s, a + b, i);
    assert s[i..i + |a|] == s[i..i + |a + b|][..|a|] == (a + b)[..|a|] == a;
    assert OccursAt(s, a, i);
  }

  /** Every string includes the empty string, so a blank search term keeps everything. */
  lemma IncludesEmpty(s: string)
    ensures Includes(s, "")
  {
    assert s[0..0] == "";
  }

  /** `xs.filter(p)`: the elements that satisfy `p`, in their order. */
  function Filter<T>(xs: seq<T>, p: T -> bool): (r: seq<T>)
    ensures |r| <= |xs|
    ensures forall i :: 0 <= i < |r| ==> r[i] in xs && p(r[i])
    ensures forall i :: 0 <= i < |xs| && p(xs[i]) ==> xs[i] in r
  {
    if xs == [] then []
    else
      var r := (if p(xs[0]) then [xs[0]] else []) + Filter(xs[1..], p);
      assert forall i :: 1 <= i < |xs| ==> xs[i] == xs[1..][i - 1];
      r
  }

  /** Filtering keeps relative order: filtering two parts is filtering the whole. */
  lemma {:induction false} FilterSplit<T>(a: seq<T>, b: seq<T>, p: T -> bool)
    ensures Filter(a + b, p) == Filter(a, p) + Filter(b, p)
  {
    if a == [] {
      assert a + b == b;
    } else {
      assert (a + b)[0] == a[0] && (a + b)[1..] == a[1..] + b;
      FilterSplit(a[1..], b, p);
    }
  }

  /** A predicate every element satisfies keeps the whole sequence. */
  lemma {:induction false} FilterKeepsAll<T>(xs: seq<T>, p: T -> bool)
    requires forall i :: 0 <= i < |xs| ==> p(xs[i])
    ensures Filter(xs, p) == xs
  {
    if xs != [] {
      assert forall i :: 0 <= i < |xs[1..]| ==> xs[1..][i] == xs[i + 1];
      FilterKeepsAll(xs[1..], p);
    }
  }
}
