/** Season ranges and the pre-check for overlaps. */
module Seasons {
  import opened Wrappers

  /** Two inclusive dates, as day numbers. */
  datatype DateRange = DateRange(first: int, last: int)

  datatype Rates = Rates(weekday: int, weekend: int)

  datatype Season = Season(range: DateRange, rates: Rates, nameTh: string)

  /** Inclusive bounds: ranges that touch at an endpoint conflict. */
  predicate RangesOverlap(a: DateRange, b: DateRange) {
    a.first <= b.last && b.first <= a.last
  }

  predicate Contains(r: DateRange, date: int) {
    r.first <= date <= r.last
  }

  /** The first and the last night of a range are in it, the nights around it are not. */
  lemma BothEndsIncluded(r: DateRange)
    requires r.first <= r.last
    ensures Contains(r, r.first) && Contains(r, r.last) && !Contains(r, r.first - 1) && !Contains(r, r.last + 1)
    ensures RangesOverlap(r, DateRange(r.last, r.last + 1)) && !RangesOverlap(r, DateRange(r.last + 1, r.last + 2))
  {
  }

  predicate WellFormed(seasons: seq<Season>) {
    forall i :: 0 <= i < |seasons| ==> seasons[i].range.first <= seasons[i].range.last
  }

  predicate Clash(seasons: seq<Season>, i: nat, j: nat)
    requires i < |seasons| && j < |seasons|
  {
    RangesOverlap(seasons[i].range, seasons[j].range)
  }

  /** No two seasons overlap. */
  predicate Disjoint(seasons: seq<Season>) {
    forall i, j :: 0 <= i < j < |seasons| ==> !Clash(seasons, i, j)
  }

  /** The pair at `i`, `j` clashes and no pair the search meets earlier does. */
  predicate FirstClash(seasons: seq<Season>, i: nat, j: nat) {
    && i < j < |seasons| && Clash(seasons, i, j)
    && (forall k, l :: 0 <= k < i && k < l < |seasons| ==> !Clash(seasons, k, l))
    && (forall l :: i < l < j ==> !Clash(seasons, i, l))
  }

  /** The first conflicting pair, or none if no pair conflicts. */
  method FindSeasonOverlap(seasons: seq<Season>) returns (pair: Option<(Season, Season)>)
    ensures pair.None? <==> Disjoint(seasons)
    ensures pair.Some? ==> exists i: nat, j: nat :: FirstClash(seasons, i, j) && pair.value == (seasons[i], seasons[j])
  {
    for i := 0 to |seasons|
      invariant forall k, l :: 0 <= k < i && k < l < |seasons| ==> !Clash(seasons, k, l)
    {
      for j := i + 1 to |seasons|
        invariant forall l :: i < l < j ==> !Clash(seasons, i, l)
      {
        if RangesOverlap(seasons[i].range, seasons[j].range) {
          assert Clash(seasons, i, j);
          assert FirstClash(seasons, i, j);
          return Some((seasons[i], seasons[j]));
        }
      }
    }
    return None;
  }

  /** A night shared by two ranges makes them overlap; for ranges that start before they
      end the converse holds too. */
  lemma OverlapIsASharedNight(a: DateRange, b: DateRange)
    ensures (exists date :: Contains(a, date) && Contains(b, date)) ==> RangesOverlap(a, b)
    ensures a.first <= a.last && b.first <= b.last ==>
              (RangesOverlap(a, b) <==> exists date :: Contains(a, date) && Contains(b, date))
  {
    if RangesOverlap(a, b) && a.first <= a.last && b.first <= b.last {
      var date := if a.first <= b.first then b.first else a.first;
      assert Contains(a, date) && Contains(b, date);
    }
  }

  ghost predicate OneSeasonPerNight(seasons: seq<Season>) {
    forall i, j, date :: 0 <= i < j < |seasons| && Contains(seasons[i].range, date)
        ==> !Contains(seasons[j].range, date)
  }

  /** When the search finds nothing, no night is in two seasons; and for well-formed
      seasons the search finds nothing exactly then. */
  lemma DisjointMeansOneSeason(seasons: seq<Season>)
    ensures Disjoint(seasons) ==> OneSeasonPerNight(seasons)
    ensures WellFormed(seasons) ==> (Disjoint(seasons) <==> OneSeasonPerNight(seasons))
  {
    forall i, j | 0 <= i < j < |seasons|
      ensures (exists date :: Contains(seasons[i].range, date) && Contains(seasons[j].range, date))
              ==> Clash(seasons, i, j)
      ensures WellFormed(seasons) && Clash(seasons, i, j) ==>
                exists date :: Contains(seasons[i].range, date) && Contains(seasons[j].range, date)
    {
      OverlapIsASharedNight(seasons[i].range, seasons[j].range);
    }
  }

  /** The comment on the search promises to report a season that starts after it ends;
      the search never compares a season with itself, so a single such season passes. */
  lemma ReversedSeasonIsNotReported(s: Season)
    requires s.range.first > s.range.last
    ensures Disjoint([s]) && !WellFormed([s])
  {
    assert [s][0] == s;
  }
}
