/** The home page's "Suggested Creators" grid: at most nine creator cards, each with a
    button that dismisses it and pulls in a replacement from the creator list. */
module Creators {
  import opened JsText

  datatype Creator = Creator(id: string, name: string, username: string, avatar: string)

  const GridSize: nat := 9

  function Ids(s: seq<Creator>): (r: seq<string>)
    ensures |r| == |s| && forall i :: 0 <= i < |s| ==> r[i] == s[i].id
  {
    seq(|s|, i requires 0 <= i < |s| => s[i].id)
  }

  predicate DistinctIds(s: seq<Creator>) {
    forall i, j :: 0 <= i < j < |s| ==> s[i].id != s[j].id
  }

  /** The creators, in list order, whose id is neither shown nor dismissed. */
  function Candidates(creators: seq<Creator>, shown: seq<string>, dismissed: seq<string>): seq<Creator> {
    if |creators| == 0 then []
    else
      var rest := Candidates(creators[1..], shown, dismissed);
      if creators[0].id !in shown && creators[0].id !in dismissed then [creators[0]] + rest else rest
  }

  /** Creators drawn from behind the head of a list with distinct ids do not share its id. */
  lemma HeadIdFresh(s: seq<Creator>, rest: seq<Creator>)
    requires |s| > 0 && DistinctIds(s)
    requires forall c :: c in rest ==> c in s[1..]
    ensures forall c :: c in rest ==> c.id != s[0].id
  {
    forall c | c in rest ensures c.id != s[0].id {
      var k :| 0 <= k < |s[1..]| && s[1..][k] == c;
      assert s[k + 1] == c;
    }
  }

  /** Putting a creator with a new id in front keeps the ids distinct. */
  lemma ConsDistinct(x: Creator, rest: seq<Creator>)
    requires DistinctIds(rest) && forall c :: c in rest ==> c.id != x.id
    ensures DistinctIds([x] + rest)
  {
    forall i, j | 0 <= i < j < |[x] + rest| ensures ([x] + rest)[i].id != ([x] + rest)[j].id {
      if i == 0 {
        assert ([x] + rest)[j] == rest[j - 1];
        assert rest[j - 1] in rest;
      }
    }
  }

  lemma {:induction false} CandidatesSpec(creators: seq<Creator>, shown: seq<string>, dismissed: seq<string>)
    ensures var r := Candidates(creators, shown, dismissed);
      && (forall c :: c in r <==> c in creators && c.id !in shown && c.id !in dismissed)
      && |r| <= |creators|
      && (DistinctIds(creators) ==> DistinctIds(r))
  {
    if |creators| > 0 {
      CandidatesSpec(creators[1..], shown, dismissed);
      assert creators == [creators[0]] + creators[1..];
      var rest := Candidates(creators[1..], shown, dismissed);
      if DistinctIds(creators) {
        HeadIdFresh(creators, rest);
        ConsDistinct(creators[0], rest);
      }
    }
  }

  /** The end index `slice(0, end)` uses: a negative end counts back from the length. */
  function SliceEnd(len: nat, end: int): (r: nat)
    ensures r <= len
    ensures 0 <= end ==> r == if end < len then end else len
    ensures end < 0 && len + end >= 0 ==> r == len + end
    ensures end < 0 && len + end < 0 ==> r == 0
  {
    if end >= 0 then (if end < len then end else len)
    else if len + end > 0 then len + end else 0
  }

  function Take<T>(s: seq<T>, n: int): seq<T> {
    s[..SliceEnd(|s|, n)]
  }

  /** The gap-filling effect: the shown creators, followed by as many new creators as fit,
      the whole capped at nine. */
  function GapFilled(prev: seq<Creator>, creators: seq<Creator>, dismissed: seq<string>): seq<Creator> {
    var candidates := Candidates(creators, Ids(prev), dismissed);
    Take(prev + Take(candidates, GridSize - |prev|), GridSize)
  }

  /** Gap filling keeps the shown creators in front (the first nine of them, when there are
      more), appends creators that are in the list and neither shown nor dismissed, never
      shows more than nine, fills every free slot it has a candidate for, and introduces no
      repeated id. */
  lemma GapFilledSpec(prev: seq<Creator>, creators: seq<Creator>, dismissed: seq<string>)
    ensures var r := GapFilled(prev, creators, dismissed);
      && |r| <= GridSize
      && (|prev| <= GridSize ==> r[..|prev|] == prev)
      && (|prev| >= GridSize ==> r == prev[..GridSize])
      && (forall i :: |prev| <= i < |r| ==> r[i] in creators && r[i].id !in Ids(prev) && r[i].id !in dismissed)
      && (|prev| <= GridSize ==> |r| == |prev| + Min(GridSize - |prev|, |Candidates(creators, Ids(prev), dismissed)|))
      && (DistinctIds(prev) && DistinctIds(creators) ==> DistinctIds(r))
  {
    var candidates := Candidates(creators, Ids(prev), dismissed);
    CandidatesSpec(creators, Ids(prev), dismissed);
    var added := Take(candidates, GridSize - |prev|);
    var r := GapFilled(prev, creators, dismissed);
    if |prev| <= GridSize {
      assert r == prev + added;
      forall i | |prev| <= i < |r| ensures r[i] in creators && r[i].id !in Ids(prev) && r[i].id !in dismissed {
        assert r[i] == added[i - |prev|] && added[i - |prev|] in candidates;
      }
      if DistinctIds(prev) && DistinctIds(creators) {
        forall i, j | 0 <= i < j < |r| ensures r[i].id != r[j].id {
          if j >= |prev| {
            assert r[j] == added[j - |prev|] && added[j - |prev|] in candidates;
            if i >= |prev| {
              assert r[i] == candidates[i - |prev|] && r[j] == candidates[j - |prev|];
            } else {
              assert r[i].id == Ids(prev)[i];
            }
          }
        }
      }
    } else {
      assert r == (prev + added)[..GridSize];
      assert forall i :: 0 <= i < GridSize ==> r[i] == prev[i];
    }
  }

  function Min(a: int, b: int): int {
    if a < b then a else b
  }

  /** `prev.filter(creator => creator.id !== id)`. */
  function WithoutId(s: seq<Creator>, id: string): seq<Creator> {
    if |s| == 0 then []
    else
      var rest := WithoutId(s[1..], id);
      if s[0].id != id then [s[0]] + rest else rest
  }

  lemma {:induction false} WithoutIdSpec(s: seq<Creator>, id: string)
    ensures var r := WithoutId(s, id);
      && (forall c :: c in r <==> c in s && c.id != id)
      && |r| <= |s|
      && ((exists k :: 0 <= k < |s| && s[k].id == id) ==> |r| < |s|)
      && (DistinctIds(s) ==> DistinctIds(r))
  {
    if |s| > 0 {
      WithoutIdSpec(s[1..], id);
      assert s == [s[0]] + s[1..];
      if exists k :: 0 <= k < |s| && s[k].id == id {
        var k :| 0 <= k < |s| && s[k].id == id;
        if k > 0 {
          assert s[1..][k - 1].id == id;
        }
      }
      var rest := WithoutId(s[1..], id);
      if DistinctIds(s) {
        HeadIdFresh(s, rest);
        ConsDistinct(s[0], rest);
      }
    }
  }

  /** `creators.find(c => !visibleIds.has(c.id) && !dismissedIds.includes(c.id))`. */
  function FirstCandidate(creators: seq<Creator>, shown: seq<string>, dismissed: seq<string>): Option<Creator> {
    if |creators| == 0 then None
    else if creators[0].id !in shown && creators[0].id !in dismissed then Some(creators[0])
    else FirstCandidate(creators[1..], shown, dismissed)
  }

  lemma {:induction false} FirstCandidateSpec(creators: seq<Creator>, shown: seq<string>, dismissed: seq<string>)
    ensures var r := FirstCandidate(creators, shown, dismissed);
      && (r.Some? ==> r.value in creators && r.value.id !in shown && r.value.id !in dismissed)
      && (r.None? <==> forall c :: c in creators ==> c.id in shown || c.id in dismissed)
  {
    if |creators| > 0 {
      FirstCandidateSpec(creators[1..], shown, dismissed);
      assert creators == [creators[0]] + creators[1..];
    }
  }

  /** The dismissal's new grid, given the ids dismissed so far: the creator's card goes and
      the first creator neither shown nor among those ids is appended. */
  function AfterDismiss(prev: seq<Creator>, id: string, creators: seq<Creator>, dismissed: seq<string>): seq<Creator> {
    var filtered := WithoutId(prev, id);
    match FirstCandidate(creators, Ids(filtered), dismissed)
    case None => filtered
    case Some(c) => filtered + [c]
  }

  /** A dismissal keeps the other cards in order, adds at most one card, which is in the
      list, not already shown and not among the given ids, and so never grows a grid that
      showed the dismissed creator. */
  lemma AfterDismissSpec(prev: seq<Creator>, id: string, creators: seq<Creator>, dismissed: seq<string>)
    ensures var r := AfterDismiss(prev, id, creators, dismissed);
      var filtered := WithoutId(prev, id);
      && r[..|filtered|] == filtered
      && |filtered| <= |r| <= |filtered| + 1
      && (|r| > |filtered| ==> r[|filtered|] in creators && r[|filtered|].id !in Ids(filtered)
                                && r[|filtered|].id !in dismissed)
      && (|r| == |filtered| <==> forall c :: c in creators ==> c.id in Ids(filtered) || c.id in dismissed)
      && ((exists k :: 0 <= k < |prev| && prev[k].id == id) ==> |r| <= |prev|)
  {
    WithoutIdSpec(prev, id);
    FirstCandidateSpec(creators, Ids(WithoutId(prev, id)), dismissed);
  }

  /** With the ids dismissed before the click, the creator just dismissed is itself a
      candidate: when no other creator is free, its card is removed and immediately put
      back. */
  lemma DismissedCreatorComesBack(c: Creator)
    ensures AfterDismiss([c], c.id, [c], []) == [c]
  {
    assert WithoutId([c], c.id) == [];
    assert Ids([]) == [];
  }

  /** Counting the creator being dismissed among the dismissed ids keeps it off the grid. */
  lemma DismissWithNewIdsExcludes(prev: seq<Creator>, id: string, creators: seq<Creator>, dismissed: seq<string>)
    ensures forall c :: c in AfterDismiss(prev, id, creators, dismissed + [id]) ==> c.id != id
  {
    WithoutIdSpec(prev, id);
    FirstCandidateSpec(creators, Ids(WithoutId(prev, id)), dismissed + [id]);
    assert id in dismissed + [id];
  }

  class Grid {
    var visibleCreators: seq<Creator>
    var dismissedIds: seq<string>

    constructor()
      ensures visibleCreators == [] && dismissedIds == []
    {
      visibleCreators, dismissedIds := [], [];
    }

    /** The effect on a change of the list or of the loading flag: an empty grid takes a
        copy of the whole list once the list has loaded. */
    method FillInitial(creators: seq<Creator>, loading: bool)
      modifies this
      ensures dismissedIds == old(dismissedIds)
      ensures |creators| > 0 && !loading && old(visibleCreators) == [] ==> visibleCreators == creators
      ensures !(|creators| > 0 && !loading && old(visibleCreators) == []) ==> visibleCreators == old(visibleCreators)
    {
      if |creators| > 0 && !loading && |visibleCreators| == 0 {
        visibleCreators := creators;
      }
    }

    /** The effect on a change of the list or of the dismissed ids. */
    method FillGaps(creators: seq<Creator>)
      modifies this
      ensures dismissedIds == old(dismissedIds)
      ensures |creators| > 0 ==> visibleCreators == GapFilled(old(visibleCreators), creators, dismissedIds)
      ensures |creators| == 0 ==> visibleCreators == old(visibleCreators)
    {
      if |creators| > 0 {
        visibleCreators := GapFilled(visibleCreators, creators, dismissedIds);
      }
    }

    /** Records the id as dismissed and replaces its card. The replacement is the first
        listed creator neither on the remaining cards nor among the ids dismissed before
        this click, so the creator just dismissed can be its own replacement
        (`DismissedCreatorComesBack`). */
    method HandleDismiss(id: string, creators: seq<Creator>)
      modifies this
      ensures dismissedIds == old(dismissedIds) + [id]
      ensures visibleCreators == AfterDismiss(old(visibleCreators), id, creators, old(dismissedIds))
      ensures var kept := WithoutId(old(visibleCreators), id);
        && visibleCreators[..|kept|] == kept
        && |kept| <= |visibleCreators| <= |kept| + 1
        && (|visibleCreators| > |kept| ==>
              && visibleCreators[|kept|] in creators
              && visibleCreators[|kept|].id !in Ids(kept)
              && visibleCreators[|kept|].id !in old(dismissedIds))
    {
      var before := dismissedIds;
      dismissedIds := dismissedIds + [id];
      visibleCreators := AfterDismiss(visibleCreators, id, creators, before);
      AfterDismissSpec(old(visibleCreators), id, creators, before);
    }
  }
}
