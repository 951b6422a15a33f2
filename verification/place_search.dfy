/** The place search of the edge function (`queryGooglePlaces`): one nearby
    search per keyword, merged into a single list in which every place id
    occurs once, the first occurrence winning and discovery order kept. */
module PlaceSearch {
  import opened Wrappers
  import opened Domain

  /** What one keyword request produced: the fetch (or its JSON decoding)
      threw, the decoded body had no `results`, or it listed places. */
  datatype KeywordResponse = FetchThrew(message: string) | NoResults | Found(places: seq<Place>)

  /** The places a response adds to the scan; a body without `results` adds none. */
  function Contributed(resp: KeywordResponse): seq<Place> {
    if resp.Found? then resp.places else []
  }

  /** The per-keyword result lists, in query order. */
  function Lists(responses: seq<KeywordResponse>): seq<seq<Place>> {
    seq(|responses|, i requires 0 <= i < |responses| => Contributed(responses[i]))
  }

  /** The set of place ids occurring in `s`. */
  function Ids(s: seq<Place>): set<string> {
    set i | 0 <= i < |s| :: s[i].placeId
  }

  /** No place id occurs twice in `s`. */
  ghost predicate DistinctIds(s: seq<Place>) {
    forall i, j :: 0 <= i < j < |s| ==> s[i].placeId != s[j].placeId
  }

  /** Position `i` holds the first occurrence of its place id in `s`. */
  predicate IsFirst(s: seq<Place>, i: nat)
    requires i < |s|
  {
    forall j :: 0 <= j < i ==> s[j].placeId != s[i].placeId
  }

  /** The concatenation of the lists, in order. */
  function Flatten(ls: seq<seq<Place>>): seq<Place> {
    if |ls| == 0 then [] else Flatten(ls[..|ls| - 1]) + ls[|ls| - 1]
  }

  /** What the merge loop keeps: each place is appended unless its id is
      already among the places kept so far. */
  function Dedup(s: seq<Place>): seq<Place> {
    if |s| == 0 then []
    else
      var kept := Dedup(s[..|s| - 1]);
      if s[|s| - 1].placeId in Ids(kept) then kept else kept + [s[|s| - 1]]
  }

  /** Reference definition: the subsequence of `s` made of the positions
      that hold the first occurrence of their id in `s` itself. */
  function FirstOccurrences(s: seq<Place>): seq<Place> {
    if |s| == 0 then []
    else
      var earlier := FirstOccurrences(s[..|s| - 1]);
      if IsFirst(s, |s| - 1) then earlier + [s[|s| - 1]] else earlier
  }

  /** No keyword request threw. */
  predicate NoneThrew(responses: seq<KeywordResponse>) {
    forall i :: 0 <= i < |responses| ==> !responses[i].FetchThrew?
  }

  /** The request at `i` threw, and none before it did. */
  predicate EarliestThrow(responses: seq<KeywordResponse>, i: int) {
    0 <= i < |responses| && responses[i].FetchThrew? && NoneThrew(responses[..i])
  }

  /** The first response that threw, if any, and its message. */
  function FirstThrow(responses: seq<KeywordResponse>): Option<string> {
    if |responses| == 0 then None
    else
      var earlier := FirstThrow(responses[..|responses| - 1]);
      if earlier.Some? then earlier
      else if responses[|responses| - 1].FetchThrew? then Some(responses[|responses| - 1].message)
      else None
  }

  /** `FirstThrow` finds nothing exactly when no request threw, and
      otherwise the message of the earliest request that threw. */
  lemma {:induction false} FirstThrowSpec(responses: seq<KeywordResponse>)
    ensures var r := FirstThrow(responses);
            && (r.None? <==> NoneThrew(responses))
            && (r.Some? ==> exists i :: EarliestThrow(responses, i) && responses[i].message == r.value)
    decreases |responses|
  {
    if |responses| > 0 {
      var prefix := responses[..|responses| - 1];
      FirstThrowSpec(prefix);
      assert forall j :: 0 <= j < |prefix| ==> responses[j] == prefix[j];
      if FirstThrow(prefix).Some? {
        var i :| EarliestThrow(prefix, i) && prefix[i].message == FirstThrow(prefix).value;
        assert responses[i] == prefix[i] && responses[..i] == prefix[..i];
      }
    }
  }

  /** The outcome of the whole search: the first thrown error aborts it;
      otherwise the merged, de-duplicated places. */
  function SearchPlaces(responses: seq<KeywordResponse>): (r: Attempt<seq<Place>>)
    ensures r.Threw? <==> !NoneThrew(responses)
    ensures r.Threw? ==> FirstThrow(responses) == Some(r.message)
    ensures r.Done? ==> DistinctIds(r.value) && Ids(r.value) == Ids(Flatten(Lists(responses)))
    ensures r.Done? ==> r.value == FirstOccurrences(Flatten(Lists(responses)))
  {
    FirstThrowSpec(responses);
    match FirstThrow(responses)
    case Some(m) => Threw(m)
    case None =>
      var all := Flatten(Lists(responses));
      DedupDistinct(all);
      DedupIds(all);
      DedupIsFirstOccurrences(all);
      Done(Dedup(all))
  }

  /** The loop of `queryGooglePlaces`, over the responses the four keyword
      requests produced, with the `seen` set of ids beside the list. */
  method QueryPlaces(responses: seq<KeywordResponse>) returns (r: Attempt<seq<Place>>)
    ensures r == SearchPlaces(responses)
  {
    var allPlaces: seq<Place> := [];
    var seen: set<string> := {};
    var q := 0;
    while q < |responses|
      invariant 0 <= q <= |responses|
      invariant FirstThrow(responses[..q]).None?
      invariant allPlaces == Dedup(Flatten(Lists(responses[..q])))
      invariant seen == Ids(allPlaces)
    {
      ghost var before := Flatten(Lists(responses[..q]));
      assert responses[..q + 1][..q] == responses[..q];
      assert Lists(responses[..q + 1]) == Lists(responses[..q]) + [Contributed(responses[q])];
      FlattenSnoc(Lists(responses[..q]), Contributed(responses[q]));
      match responses[q] {
        case FetchThrew(m) =>
          FirstThrowExtends(responses, q + 1);
          return Threw(m);
        case NoResults =>
          assert before + [] == before;
        case Found(ps) =>
          allPlaces, seen := MergeResults(allPlaces, seen, ps, before);
      }
      q := q + 1;
    }
    assert responses[..q] == responses;
    return Done(allPlaces);
  }

  /** The inner loop of `queryGooglePlaces`: scan one keyword's results and
      append each place whose id has not been seen, recording the id. */
  method MergeResults(allPlaces: seq<Place>, seen: set<string>, results: seq<Place>,
                      ghost before: seq<Place>)
    returns (allPlaces': seq<Place>, seen': set<string>)
    requires allPlaces == Dedup(before) && seen == Ids(allPlaces)
    ensures allPlaces' == Dedup(before + results)
    ensures seen' == Ids(allPlaces')
  {
    allPlaces', seen' := allPlaces, seen;
    var i := 0;
    assert before + results[..0] == before;
    while i < |results|
      invariant 0 <= i <= |results|
      invariant allPlaces' == Dedup(before + results[..i])
      invariant seen' == Ids(allPlaces')
    {
      assert (before + results[..i + 1])[..|before| + i] == before + results[..i];
      if results[i].placeId !in seen' {
        IdsSnoc(allPlaces', results[i]);
        seen' := seen' + {results[i].placeId};
        allPlaces' := allPlaces' + [results[i]];
      }
      i := i + 1;
    }
    assert results[..|results|] == results;
  }

  // ---------------------------------------------------------------- lemmas

  lemma FlattenSnoc(ls: seq<seq<Place>>, l: seq<Place>)
    ensures Flatten(ls + [l]) == Flatten(ls) + l
  {
    assert (ls + [l])[..|ls|] == ls;
  }

  /** Flattening distributes over concatenation of the list of lists. */
  lemma {:induction false} FlattenAppend(xs: seq<seq<Place>>, ys: seq<seq<Place>>)
    ensures Flatten(xs + ys) == Flatten(xs) + Flatten(ys)
    decreases |ys|
  {
    if |ys| == 0 {
      assert xs + ys == xs;
    } else {
      var init := ys[..|ys| - 1];
      assert xs + ys == (xs + init) + [ys[|ys| - 1]];
      FlattenSnoc(xs + init, ys[|ys| - 1]);
      FlattenAppend(xs, init);
      FlattenSnoc(init, ys[|ys| - 1]);
      assert ys == init + [ys[|ys| - 1]];
    }
  }

  /** The flattened list is empty exactly when every list is. */
  lemma {:induction false} FlattenEmpty(ls: seq<seq<Place>>)
    ensures Flatten(ls) == [] <==> forall i :: 0 <= i < |ls| ==> ls[i] == []
    decreases |ls|
  {
    if |ls| > 0 {
      var init := ls[..|ls| - 1];
      FlattenEmpty(init);
      assert forall i :: 0 <= i < |ls| - 1 ==> ls[i] == init[i];
    }
  }

  /** Once a throw has happened within a prefix, it stays the first throw. */
  lemma {:induction false} FirstThrowExtends(responses: seq<KeywordResponse>, n: nat)
    requires n <= |responses|
    requires FirstThrow(responses[..n]).Some?
    ensures FirstThrow(responses) == FirstThrow(responses[..n])
    decreases |responses| - n
  {
    if n < |responses| {
      assert responses[..n + 1][..n] == responses[..n];
      FirstThrowExtends(responses, n + 1);
    } else {
      assert responses[..n] == responses;
    }
  }

  lemma IdsSnoc(s: seq<Place>, p: Place)
    ensures Ids(s + [p]) == Ids(s) + {p.placeId}
  {
    assert forall i :: 0 <= i < |s| ==> (s + [p])[i] == s[i];
    assert (s + [p])[|s|] == p;
  }

  /** An id occurs in the prefix of length `n` exactly when some earlier position carries it. */
  lemma IdsPrefix(s: seq<Place>, n: nat, id: string)
    requires n <= |s|
    ensures id in Ids(s[..n]) <==> exists j :: 0 <= j < n && s[j].placeId == id
  {
    if id in Ids(s[..n]) {
      var j :| 0 <= j < n && s[..n][j].placeId == id;
      assert s[j].placeId == id;
    }
    if exists j :: 0 <= j < n && s[j].placeId == id {
      var j :| 0 <= j < n && s[j].placeId == id;
      assert s[..n][j].placeId == id;
    }
  }

  /** Every id of the input is kept, and no other. */
  lemma {:induction false} DedupIds(s: seq<Place>)
    ensures Ids(Dedup(s)) == Ids(s)
    decreases |s|
  {
    if |s| > 0 {
      var init := s[..|s| - 1];
      var last := s[|s| - 1];
      DedupIds(init);
      IdsSnoc(Dedup(init), last);
      assert s == init + [last];
      IdsSnoc(init, last);
    }
  }

  /** The kept places have pairwise distinct ids. */
  lemma {:induction false} DedupDistinct(s: seq<Place>)
    ensures DistinctIds(Dedup(s))
    decreases |s|
  {
    if |s| > 0 {
      var init := s[..|s| - 1];
      var kept := Dedup(init);
      DedupDistinct(init);
      if s[|s| - 1].placeId !in Ids(kept) {
        var r := kept + [s[|s| - 1]];
        forall i, j | 0 <= i < j < |r| ensures r[i].placeId != r[j].placeId {
          if j == |kept| {
            assert r[i] == kept[i];
          } else {
            assert r[i] == kept[i] && r[j] == kept[j];
          }
        }
      }
    }
  }

  /** The merge loop keeps exactly the first occurrences, in input order. */
  lemma {:induction false} DedupIsFirstOccurrences(s: seq<Place>)
    ensures Dedup(s) == FirstOccurrences(s)
    decreases |s|
  {
    if |s| > 0 {
      var n := |s| - 1;
      var init := s[..n];
      DedupIsFirstOccurrences(init);
      DedupIds(init);
      IdsPrefix(s, n, s[n].placeId);
      assert IsFirst(s, n) <==> s[n].placeId !in Ids(init);
    }
  }

  /** Every first occurrence of an id in the input survives the merge. */
  lemma {:induction false} FirstOccurrenceKept(s: seq<Place>, i: nat)
    requires i < |s| && IsFirst(s, i)
    ensures s[i] in Dedup(s)
    decreases |s|
  {
    DedupIsFirstOccurrences(s);
    FirstOccurrenceInFilter(s, i);
  }

  lemma {:induction false} FirstOccurrenceInFilter(s: seq<Place>, i: nat)
    requires i < |s| && IsFirst(s, i)
    ensures s[i] in FirstOccurrences(s)
    decreases |s|
  {
    var n := |s| - 1;
    if i < n {
      var init := s[..n];
      assert init[i] == s[i];
      assert IsFirst(init, i);
      FirstOccurrenceInFilter(init, i);
    }
  }

  /** A keyword whose body had no `results` changes nothing: neither the
      outcome nor the list of places. */
  lemma {:induction false} NoResultsContributesNothing(a: seq<KeywordResponse>, b: seq<KeywordResponse>)
    ensures SearchPlaces(a + [NoResults] + b) == SearchPlaces(a + b)
  {
    FirstThrowSkipsNoResults(a, b);
    FlattenSkipsNoResults(a, b);
  }

  lemma FlattenSkipsNoResults(a: seq<KeywordResponse>, b: seq<KeywordResponse>)
    ensures Flatten(Lists(a + [NoResults] + b)) == Flatten(Lists(a + b))
  {
    assert Lists(a + [NoResults] + b) == (Lists(a) + [[]]) + Lists(b);
    assert Lists(a + b) == Lists(a) + Lists(b);
    FlattenAppend(Lists(a) + [[]], Lists(b));
    FlattenSnoc(Lists(a), []);
    FlattenAppend(Lists(a), Lists(b));
  }

  lemma {:induction false} FirstThrowSkipsNoResults(a: seq<KeywordResponse>, b: seq<KeywordResponse>)
    ensures FirstThrow(a + [NoResults] + b) == FirstThrow(a + b)
    decreases |b|
  {
    var with := a + [NoResults] + b;
    if |b| == 0 {
      assert with[..|a|] == a;
      assert a + b == a;
    } else {
      var init := b[..|b| - 1];
      var without := a + b;
      FirstThrowSkipsNoResults(a, init);
      assert with[..|with| - 1] == a + [NoResults] + init;
      assert without[..|without| - 1] == a + init;
      assert with[|with| - 1] == without[|without| - 1];
    }
  }

  /** The search finds no venue exactly when no request threw and every
      keyword contributed nothing. */
  lemma NoVenuesIffNothingFound(responses: seq<KeywordResponse>)
    ensures SearchPlaces(responses) == Done([]) <==>
            NoneThrew(responses) && forall i :: 0 <= i < |responses| ==> Contributed(responses[i]) == []
  {
    var all := Flatten(Lists(responses));
    FlattenEmpty(Lists(responses));
    DedupIds(all);
    assert forall i :: 0 <= i < |responses| ==> Lists(responses)[i] == Contributed(responses[i]);
    assert Dedup([]) == [];
  }
}
