/**
 request_path_unsafe.go: the values of the named wildcards of the matched ServeMux pattern.
 */
module PathValues {
  import opened Wire

  /** A pattern segment; a wildcard without a name comes from a trailing slash and has no match. */
  datatype Segment = Segment(s: string, wild: bool, multi: bool)

  predicate IsNamed(segment: Segment) {
    segment.wild && segment.s != ""
  }

  /** How many named wildcards stand before position `n`. */
  function Rank(segments: seq<Segment>, n: nat): nat
    requires n <= |segments|
  {
    if n == 0 then 0 else Rank(segments, n - 1) + if IsNamed(segments[n - 1]) then 1 else 0
  }

  lemma {:induction false} RankGrows(segments: seq<Segment>, m: nat, n: nat)
    requires m <= n <= |segments|
    ensures Rank(segments, m) <= Rank(segments, n)
    ensures m < n && IsNamed(segments[m]) ==> Rank(segments, m) < Rank(segments, n)
  {
    if m < n {
      RankGrows(segments, m, n - 1);
    }
  }

  /** `Request.PathValue`: the first wildcard of that name, looked up on its own; "" when there is none. */
  function PathValue(segments: seq<Segment>, matches: seq<string>, name: string, from: nat, index: nat): string
    requires from <= |segments|
    decreases |segments| - from
  {
    if from == |segments| then ""
    else if !segments[from].wild || segments[from].s == "" then PathValue(segments, matches, name, from + 1, index)
    else if segments[from].s != name then PathValue(segments, matches, name, from + 1, index + 1)
    else if index < |matches| then matches[index] else ""
  }

  predicate DistinctNames(segments: seq<Segment>) {
    forall i, j :: 0 <= i < j < |segments| && IsNamed(segments[i]) && IsNamed(segments[j])
      ==> segments[i].s != segments[j].s
  }

  /** With distinct names, looking a wildcard up on its own finds the match at its rank. */
  lemma {:induction false} RankIsPathValue(segments: seq<Segment>, matches: seq<string>, i: nat, from: nat)
    requires DistinctNames(segments) && |matches| == Rank(segments, |segments|)
    requires from <= i < |segments| && IsNamed(segments[i])
    ensures Rank(segments, i) < |matches|
    ensures PathValue(segments, matches, segments[i].s, from, Rank(segments, from)) == matches[Rank(segments, i)]
    decreases i - from
  {
    RankGrows(segments, i, |segments|);
    if from < i {
      RankIsPathValue(segments, matches, i, from + 1);
    }
  }

  /** The map after the first `n` segments, each named wildcard taking the next match. */
  function Collected(segments: seq<Segment>, matches: seq<string>, n: nat): map<string, string>
    requires n <= |segments| && Rank(segments, n) <= |matches|
  {
    if n == 0 then map[]
    else
      var before, segment := Collected(segments, matches, n - 1), segments[n - 1];
      if IsNamed(segment) then before[segment.s := matches[Rank(segments, n - 1)]] else before
  }

  /** One match for each named wildcard, as ServeMux leaves a request. */
  predicate WellMatched(pattern: Option<seq<Segment>>, matches: seq<string>) {
    pattern.Some? ==> |matches| == Rank(pattern.value, |pattern.value|)
  }

  function Values(pattern: Option<seq<Segment>>, matches: seq<string>): Option<map<string, string>>
    requires WellMatched(pattern, matches)
  {
    if pattern.None? then None else Some(Collected(pattern.value, matches, |pattern.value|))
  }

  /** The two-cursor loop; no index into `matches` is out of range. */
  method GetPathValues(pattern: Option<seq<Segment>>, matches: seq<string>) returns (r: Option<map<string, string>>)
    requires WellMatched(pattern, matches)
    ensures r == Values(pattern, matches)
  {
    if pattern.None? {
      return None;
    }
    var segments := pattern.value;
    var keyValue: map<string, string> := map[];
    var matchIndex := 0;
    for n := 0 to |segments|
      invariant matchIndex == Rank(segments, n) <= |matches|
      invariant keyValue == Collected(segments, matches, n)
    {
      var segment := segments[n];
      RankGrows(segments, n + 1, |segments|);
      if IsNamed(segment) {
        keyValue := keyValue[segment.s := matches[matchIndex]];
        matchIndex := matchIndex + 1;
      }
    }
    return Some(keyValue);
  }

  /** Among the first `n` segments the last wildcard called `name` stands at `i`. */
  ghost predicate LastNamed(segments: seq<Segment>, n: nat, name: string, i: nat)
    requires n <= |segments|
  {
    && i < n && IsNamed(segments[i]) && segments[i].s == name
    && forall j :: i < j < n && IsNamed(segments[j]) ==> segments[j].s != name
  }

  /**
   The keys are exactly the named wildcards; a name's value is the match at the rank of its last wildcard,
   and anonymous wildcards consume none.
   */
  lemma {:induction false} KeysAreTheNames(segments: seq<Segment>, matches: seq<string>, n: nat, name: string)
    requires n <= |segments| && Rank(segments, n) <= |matches|
    ensures name in Collected(segments, matches, n) <==> exists i :: LastNamed(segments, n, name, i)
    ensures forall i :: LastNamed(segments, n, name, i) ==>
              Rank(segments, i) < |matches| && Collected(segments, matches, n)[name] == matches[Rank(segments, i)]
  {
    if n > 0 {
      var m, segment := n - 1, segments[n - 1];
      KeysAreTheNames(segments, matches, m, name);
      if IsNamed(segment) && segment.s == name {
        assert LastNamed(segments, n, name, m);
      } else {
        forall i: nat | LastNamed(segments, n, name, i)
          ensures LastNamed(segments, m, name, i)
        {
        }
        if i: nat :| LastNamed(segments, m, name, i) {
          assert LastNamed(segments, n, name, i);
        }
      }
    }
  }

  /**
   With distinct names, as ServeMux demands, the map is the by-name lookup: `PathValue` finds the same value
   for every key.
   */
  lemma ValuesAgreeWithLookup(segments: seq<Segment>, matches: seq<string>, name: string)
    requires DistinctNames(segments) && |matches| == Rank(segments, |segments|)
    requires name in Collected(segments, matches, |segments|)
    ensures Collected(segments, matches, |segments|)[name] == PathValue(segments, matches, name, 0, 0)
  {
    KeysAreTheNames(segments, matches, |segments|, name);
    var i :| LastNamed(segments, |segments|, name, i);
    RankIsPathValue(segments, matches, i, 0);
  }
}
