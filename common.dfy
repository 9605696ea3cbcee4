/** Small helpers shared by the modules below: an optional value, ASCII case
    folding (the model of Go's strings.EqualFold and strings.ToLower) and the
    "first element that matches" search the Go code writes as a loop with
    `break`. */
module Common {

  datatype Option<T> = None | Some(value: T)

  /** The answer of an interactive prompt: the user interrupted it (Ctrl-C),
      the prompt itself failed, or the user chose a value. */
  datatype Answer<T> = Interrupted | Failed | Chose(choice: T)

  function LowerChar(c: char): (r: char)
    ensures 'A' <= c <= 'Z' ==> r as int == c as int + 32
    ensures !('A' <= c <= 'Z') ==> r == c
  {
    if 'A' <= c <= 'Z' then (c as int + 32) as char else c
  }

  /** ASCII lower-casing of a string. */
  function Lower(s: string): (r: string)
    ensures |r| == |s|
    ensures forall i :: 0 <= i < |s| ==> r[i] == LowerChar(s[i])
  {
    seq(|s|, i requires 0 <= i < |s| => LowerChar(s[i]))
  }

  /** Case-insensitive string equality. */
  predicate EqualFold(a: string, b: string) {
    Lower(a) == Lower(b)
  }

  /** The first element of `s` that satisfies `p`, as a loop with `break`
      finds it. */
  function First<T>(s: seq<T>, p: T -> bool): (r: Option<T>)
    ensures r.Some? ==> r.value in s && p(r.value)
    ensures r.None? <==> forall i :: 0 <= i < |s| ==> !p(s[i])
    ensures r.Some? ==> exists k :: 0 <= k < |s| && s[k] == r.value && p(s[k]) && forall j :: 0 <= j < k ==> !p(s[j])
  {
    if |s| == 0 then None
    else if p(s[0]) then Some(s[0])
    else
      var rest := First(s[1..], p);
      assert rest.Some? ==> forall k :: 0 <= k < |s| - 1 ==> s[1..][k] == s[k + 1];
      rest
  }

  /** Searching from index `i` onwards finds what a search of the whole
      sequence finds, once the first `i` elements are known not to match.
      This is the loop invariant of every search loop in the model. */
  lemma {:induction false} FirstFrom<T>(s: seq<T>, p: T -> bool, i: nat)
    requires i <= |s|
    requires forall j :: 0 <= j < i ==> !p(s[j])
    ensures First(s, p) == First(s[i..], p)
  {
    if i > 0 {
      FirstFrom(s[1..], p, i - 1);
      assert s[1..][i - 1..] == s[i..];
    }
  }

  /** The elements of `s` that satisfy `p`, in order. */
  function Filter<T>(s: seq<T>, p: T -> bool): (r: seq<T>)
    ensures |r| <= |s|
    ensures forall i :: 0 <= i < |r| ==> r[i] in s && p(r[i])
    ensures forall i :: 0 <= i < |s| && p(s[i]) ==> s[i] in r
  {
    if |s| == 0 then []
    else (if p(s[0]) then [s[0]] else []) + Filter(s[1..], p)
  }

  lemma {:induction false} FilterAppend<T>(a: seq<T>, b: seq<T>, p: T -> bool)
    ensures Filter(a + b, p) == Filter(a, p) + Filter(b, p)
  {
    if |a| > 0 {
      assert (a + b)[1..] == a[1..] + b;
      FilterAppend(a[1..], b, p);
    } else {
      assert a + b == b;
    }
  }

  lemma AppendAssoc<T>(a: seq<T>, b: seq<T>, c: seq<T>)
    ensures (a + b) + c == a + (b + c)
  {
  }
}
