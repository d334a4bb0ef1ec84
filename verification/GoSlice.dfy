/**
 Go slices: a backing array shared between slices, a length, and `append`.

 Every slice in the modelled code starts at the front of its backing array, so a slice is an array and
 a length and its capacity is the array's length. How much `append` over-allocates is arbitrary.
 */
module GoSlices {

  datatype Slice<T> = NilSlice | Slice(arr: array<T>, len: nat)

  ghost function Backing<T>(s: Slice<T>): set<array<T>> {
    if s.NilSlice? then {} else {s.arr}
  }

  ghost predicate Valid<T>(s: Slice<T>) {
    s.Slice? ==> s.len <= s.arr.Length
  }

  ghost function Contents<T>(s: Slice<T>): seq<T>
    requires Valid(s)
    reads Backing(s)
  {
    if s.NilSlice? then [] else s.arr[..s.len]
  }

  /** `append(s, xs...)`: in place, over whatever lies behind `s`, when the capacity allows it. */
  method Append<T(0)>(s: Slice<T>, xs: seq<T>) returns (r: Slice<T>)
    requires Valid(s)
    modifies Backing(s)
    ensures Valid(r) && Contents(r) == old(Contents(s)) + xs
    ensures Contents(s) == old(Contents(s))
    ensures if s.NilSlice? && xs == [] then r.NilSlice?
            else if s.Slice? && s.len + |xs| <= s.arr.Length then r == Slice(s.arr, s.len + |xs|)
            else r.Slice? && fresh(r.arr)
    ensures r.Slice? && fresh(r.arr) && s.Slice? ==> s.arr[..] == old(s.arr[..])
  {
    if s.NilSlice? && xs == [] {
      return NilSlice;
    }
    var len := if s.NilSlice? then 0 else s.len;
    var need := len + |xs|;
    if s.Slice? && need <= s.arr.Length {
      r := Slice(s.arr, need);
    } else {
      var capacity: nat := *;
      var arr := new T[if capacity < need then need else capacity];
      forall k | 0 <= k < len {
        arr[k] := s.arr[k];
      }
      r := Slice(arr, need);
    }
    assert r.arr[..len] == old(Contents(s));
    for k := 0 to |xs|
      invariant r.arr[..len] == old(Contents(s))
      invariant forall j :: 0 <= j < k ==> r.arr[len + j] == xs[j]
      invariant fresh(r.arr) && s.Slice? ==> s.arr[..] == old(s.arr[..])
    {
      r.arr[len + k] := xs[k];
    }
  }

  /** `append(append([]T(nil), s...), xs...)`: a copy nobody else can reach. */
  method CopyAppend<T(0)>(s: seq<T>, xs: seq<T>) returns (r: Slice<T>)
    ensures Valid(r) && Contents(r) == s + xs
    ensures r.Slice? ==> fresh(r.arr)
    ensures r.NilSlice? <==> s + xs == []
  {
    var copy := Append(NilSlice, s);
    r := Append(copy, xs);
  }
}
