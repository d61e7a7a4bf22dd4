/** The user record the API returns (`/users`, `/users/me`) and the id-keyed list
    operations the table screens perform with spread, `map`, `filter` and `find`.
    The list operations are generic in the record type and take the record's id
    accessor as a parameter. */
module Records {
  import opened Wrappers

  /** One user account as the console receives it from the API. */
  datatype UserRecord = UserRecord(
    id: nat,
    username: string,
    email: string,
    fullName: string,
    isActive: bool,
    role: string)

  function UserId(u: UserRecord): nat { u.id }

  /** `[...xs, r]`: the new record goes at the end, the earlier ones are kept. */
  function Append<T>(xs: seq<T>, r: T): (ys: seq<T>)
    ensures |ys| == |xs| + 1 && ys[..|xs|] == xs && ys[|xs|] == r
  {
    xs + [r]
  }

  /** `xs.map(x => id(x) === k ? v : x)`. */
  function ReplaceById<T, K(==)>(xs: seq<T>, id: T -> K, k: K, v: T): (ys: seq<T>)
    ensures |ys| == |xs|
    ensures forall i :: 0 <= i < |xs| && id(xs[i]) == k ==> ys[i] == v
    ensures forall i :: 0 <= i < |xs| && id(xs[i]) != k ==> ys[i] == xs[i]
  {
    if xs == [] then []
    else [if id(xs[0]) == k then v else xs[0]] + ReplaceById(xs[1..], id, k, v)
  }

  /** `xs.filter(x => id(x) !== k)`. */
  function RemoveById<T(==), K(==)>(xs: seq<T>, id: T -> K, k: K): (ys: seq<T>)
    ensures forall i :: 0 <= i < |ys| ==> ys[i] in xs && id(ys[i]) != k
    ensures forall i :: 0 <= i < |xs| && id(xs[i]) != k ==> xs[i] in ys
    ensures IsSubsequence(ys, xs)
    ensures |ys| == |xs| - CountId(xs, id, k)
  {
    if xs == [] then []
    else if id(xs[0]) == k then RemoveById(xs[1..], id, k)
    else [xs[0]] + RemoveById(xs[1..], id, k)
  }

  /** Number of entries of `xs` whose id is `k`. */
  function CountId<T, K(==)>(xs: seq<T>, id: T -> K, k: K): (n: nat)
    ensures n <= |xs|
  {
    if xs == [] then 0
    else (if id(xs[0]) == k then 1 else 0) + CountId(xs[1..], id, k)
  }

  /** `a` is `b` with some entries deleted, the rest kept in their order. */
  predicate IsSubsequence<T(==)>(a: seq<T>, b: seq<T>)
  {
    if a == [] then true
    else if b == [] then false
    else if a[0] == b[0] then IsSubsequence(a[1..], b[1..])
    else IsSubsequence(a, b[1..])
  }

  /** `xs.find(x => id(x) === k)`: the first entry with that id, if any. */
  function FindById<T, K(==)>(xs: seq<T>, id: T -> K, k: K): (r: Option<T>)
    ensures r.Some? <==> exists i :: 0 <= i < |xs| && id(xs[i]) == k
    ensures r.Some? ==> exists i :: 0 <= i < |xs| && xs[i] == r.value && id(xs[i]) == k
                                 && forall j :: 0 <= j < i ==> id(xs[j]) != k
  {
    if xs == [] then None
    else if id(xs[0]) == k then Some(xs[0])
    else
      var r := FindById(xs[1..], id, k);
      if r.Some? then
        ghost var i :| 0 <= i < |xs| - 1 && xs[1..][i] == r.value && id(xs[1..][i]) == k
                      && forall j :: 0 <= j < i ==> id(xs[1..][j]) != k;
        assert xs[i + 1] == r.value && forall j :: 0 <= j < i + 1 ==> id(xs[j]) != k;
        r
      else r
  }

  /** Removing by id twice removes nothing more. */
  lemma {:induction false} RemoveByIdIdempotent<T, K>(xs: seq<T>, id: T -> K, k: K)
    ensures RemoveById(RemoveById(xs, id, k), id, k) == RemoveById(xs, id, k)
  {
    if xs != [] {
      RemoveByIdIdempotent(xs[1..], id, k);
      if id(xs[0]) != k {
        var tail := RemoveById(xs[1..], id, k);
        assert ([xs[0]] + tail)[1..] == tail;
      }
    }
  }

  /** After replacing the entries with id `k` by `v` (which keeps id `k`),
      removing by `k` gives the same list as removing from the original. */
  lemma {:induction false} RemoveAfterReplace<T, K>(xs: seq<T>, id: T -> K, k: K, v: T)
    requires id(v) == k
    ensures RemoveById(ReplaceById(xs, id, k, v), id, k) == RemoveById(xs, id, k)
  {
    if xs != [] {
      RemoveAfterReplace(xs[1..], id, k, v);
      var ys := ReplaceById(xs, id, k, v);
      assert ys[1..] == ReplaceById(xs[1..], id, k, v);
    }
  }

  /** Filtering a concatenation filters each part. */
  lemma {:induction false} RemoveByIdAppend<T, K>(xs: seq<T>, ys: seq<T>, id: T -> K, k: K)
    ensures RemoveById(xs + ys, id, k) == RemoveById(xs, id, k) + RemoveById(ys, id, k)
  {
    if xs == [] {
      assert xs + ys == ys;
    } else {
      assert (xs + ys)[0] == xs[0];
      assert (xs + ys)[1..] == xs[1..] + ys;
      RemoveByIdAppend(xs[1..], ys, id, k);
      if id(xs[0]) != k {
        assert [xs[0]] + (RemoveById(xs[1..], id, k) + RemoveById(ys, id, k))
            == ([xs[0]] + RemoveById(xs[1..], id, k)) + RemoveById(ys, id, k);
      }
    }
  }

  /** Filtering out an id that no entry has changes nothing. */
  lemma {:induction false} RemoveAbsentId<T, K>(xs: seq<T>, id: T -> K, k: K)
    requires forall i :: 0 <= i < |xs| ==> id(xs[i]) != k
    ensures RemoveById(xs, id, k) == xs
  {
    if xs != [] {
      RemoveAbsentId(xs[1..], id, k);
      assert [xs[0]] + xs[1..] == xs;
    }
  }
}
