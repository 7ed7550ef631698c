/** Small helpers shared by the TypeScript and the Python parts of the model:
    an optional value, the first-match search of `Array.prototype.find`,
    and the numeric clamps both code bases write as `max(lo, min(hi, v))`. */
module Common {

  datatype Option<T> = None | Some(value: T)

  /** The first element of `s` satisfying `p`, if there is one
      (`Array.prototype.find`, and Python's `next(...)` idiom). */
  function Find<T>(s: seq<T>, p: T -> bool): (r: Option<T>)
    ensures r.None? <==> forall i :: 0 <= i < |s| ==> !p(s[i])
    ensures r.Some? ==> r.value in s && p(r.value)
    ensures r.Some? ==> exists i :: 0 <= i < |s| && s[i] == r.value && p(s[i]) && FirstMatch(s, p, i)
  {
    if |s| == 0 then None
    else if p(s[0]) then (assert FirstMatch(s, p, 0); Some(s[0]))
    else
      var rest := Find(s[1..], p);
      if rest.Some? then
        assert exists i :: 0 <= i < |s| && s[i] == rest.value && p(s[i]) && FirstMatch(s, p, i) by {
          var i :| 0 <= i < |s[1..]| && s[1..][i] == rest.value && p(s[1..][i]) && FirstMatch(s[1..], p, i);
          forall j | 0 <= j < i + 1 ensures !p(s[j]) {
            if j > 0 { assert s[j] == s[1..][j - 1]; }
          }
          assert FirstMatch(s, p, i + 1);
        }
        rest
      else
        assert forall i :: 0 <= i < |s| ==> !p(s[i]) by {
          forall i | 0 <= i < |s| ensures !p(s[i]) {
            if i > 0 { assert s[i] == s[1..][i - 1]; }
          }
        }
        None
  }

  /** No element before index `i` satisfies `p`. */
  ghost predicate FirstMatch<T>(s: seq<T>, p: T -> bool, i: int)
    requires 0 <= i <= |s|
  {
    forall j :: 0 <= j < i ==> !p(s[j])
  }

  function Min(a: real, b: real): real { if a <= b then a else b }

  function Max(a: real, b: real): real { if a >= b then a else b }

  /** `max(lo, min(hi, v))`, exactly as written in the source (so for
      lo > hi the result is lo). */
  function Clamp(lo: real, hi: real, v: real): (r: real)
    ensures lo <= hi ==> lo <= r <= hi
    ensures lo <= v <= hi ==> r == v
    ensures lo <= hi && v < lo ==> r == lo
    ensures lo <= hi && v > hi ==> r == hi
    ensures lo > hi ==> r == lo
  {
    Max(lo, Min(hi, v))
  }

  function Abs(x: real): (r: real)
    ensures r >= 0.0
    ensures r == x || r == -x
  {
    if x < 0.0 then -x else x
  }
}
