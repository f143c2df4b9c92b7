/**
 * Season grouping of a series' episodes and the hook state around the
 * fetch (src/features/episodes/hooks/useEpisodes.ts).
 *
 * The `reduce` that pushes each episode into its season's group, and the
 * two in-place sorts (seasons by number, then each season's episodes by
 * episode number), are methods with loops over sequences. The library
 * sort is modelled by a stable insertion sort.
 */
module Episodes {

  import opened Types

  // ------------------------------------------------------------ vocabulary

  /** The episodes of season `s`, in the order of `xs`. */
  function OfSeason(xs: seq<Episode>, s: int): seq<Episode>
  {
    if xs == [] then []
    else OfSeason(xs[..|xs| - 1], s) + (if xs[|xs| - 1].season == s then [xs[|xs| - 1]] else [])
  }

  /** Exactly the episodes of `xs` whose season is `s`. */
  lemma {:induction false} OfSeasonMembers(xs: seq<Episode>, s: int)
    ensures forall x :: x in OfSeason(xs, s) <==> x in xs && x.season == s
  {
    if xs != [] {
      var init := xs[..|xs| - 1];
      OfSeasonMembers(init, s);
      assert xs == init + [xs[|xs| - 1]];
    }
  }

  lemma {:induction false} OfSeasonSnoc(xs: seq<Episode>, e: Episode, s: int)
    ensures OfSeason(xs + [e], s) == OfSeason(xs, s) + (if e.season == s then [e] else [])
  {
    assert (xs + [e])[..|xs|] == xs;
  }

  lemma {:induction false} OfSeasonNone(xs: seq<Episode>, s: int)
    requires forall k :: 0 <= k < |xs| ==> xs[k].season != s
    ensures OfSeason(xs, s) == []
  {
    if xs != [] {
      OfSeasonNone(xs[..|xs| - 1], s);
    }
  }

  /** All episodes of all groups, group by group. */
  function Flatten(groups: seq<SeasonEpisodes>): seq<Episode>
  {
    if groups == [] then [] else groups[0].episodes + Flatten(groups[1..])
  }

  predicate Listed(groups: seq<SeasonEpisodes>, s: int) {
    exists m :: 0 <= m < |groups| && groups[m].season == s
  }

  predicate DistinctSeasons(groups: seq<SeasonEpisodes>) {
    forall i, j :: 0 <= i < j < |groups| ==> groups[i].season != groups[j].season
  }

  predicate SeasonsAscending(groups: seq<SeasonEpisodes>) {
    forall i, j :: 0 <= i < j < |groups| ==> groups[i].season < groups[j].season
  }

  predicate ByNumber(es: seq<Episode>) {
    forall i, j :: 0 <= i < j < |es| ==> es[i].number <= es[j].number
  }

  // ------------------------------------------------------ lemmas on Flatten

  lemma {:induction false} FlattenAppend(groups: seq<SeasonEpisodes>, g: SeasonEpisodes)
    ensures Flatten(groups + [g]) == Flatten(groups) + g.episodes
  {
    if groups == [] {
      assert [g][1..] == [];
    } else {
      assert (groups + [g])[1..] == groups[1..] + [g];
      FlattenAppend(groups[1..], g);
    }
  }

  /** Adding one episode to one group adds exactly that episode to the whole. */
  lemma {:induction false} FlattenGrow(groups: seq<SeasonEpisodes>, k: nat, e: Episode)
    requires k < |groups|
    ensures multiset(Flatten(groups[k := SeasonEpisodes(groups[k].season, groups[k].episodes + [e])]))
         == multiset(Flatten(groups)) + multiset{e}
  {
    var g := SeasonEpisodes(groups[k].season, groups[k].episodes + [e]);
    var grown := groups[k := g];
    if k > 0 {
      assert grown[1..] == groups[1..][k - 1 := g];
      FlattenGrow(groups[1..], k - 1, e);
      assert Flatten(grown) == groups[0].episodes + Flatten(grown[1..]);
    } else {
      assert grown[1..] == groups[1..];
      assert Flatten(grown) == groups[0].episodes + [e] + Flatten(groups[1..]);
    }
  }

  /** Replacing every group's episodes by a permutation of them permutes the whole. */
  lemma {:induction false} FlattenPermuted(a: seq<SeasonEpisodes>, b: seq<SeasonEpisodes>)
    requires |a| == |b|
    requires forall m :: 0 <= m < |a| ==> multiset(a[m].episodes) == multiset(b[m].episodes)
    ensures multiset(Flatten(a)) == multiset(Flatten(b))
  {
    if a != [] {
      FlattenPermuted(a[1..], b[1..]);
    }
  }

  // -------------------------------------------------------------- grouping

  /** `findIndex(s => s.season === season)`. */
  function FindSeason(groups: seq<SeasonEpisodes>, season: int): (i: int)
    ensures -1 <= i < |groups|
    ensures i >= 0 ==> groups[i].season == season
    ensures i < 0 <==> !Listed(groups, season)
  {
    if groups == [] then -1
    else if groups[0].season == season then 0
    else
      var j := FindSeason(groups[1..], season);
      if j < 0 then -1 else j + 1
  }

  /**
   * `groups` partitions `xs` by season: every group is non-empty and holds
   * the episodes of its season (up to order), every season of `xs` has a
   * group, and together the groups hold exactly the episodes of `xs`.
   */
  predicate IsSeasonGrouping(xs: seq<Episode>, groups: seq<SeasonEpisodes>) {
    && (forall m :: 0 <= m < |groups| ==>
          groups[m].episodes != [] && multiset(groups[m].episodes) == multiset(OfSeason(xs, groups[m].season)))
    && (forall k :: 0 <= k < |xs| ==> Listed(groups, xs[k].season))
    && multiset(Flatten(groups)) == multiset(xs)
  }

  /** What the `reduce` keeps true: the grouping, with each group in fetched order. */
  predicate Grouped(xs: seq<Episode>, acc: seq<SeasonEpisodes>) {
    && DistinctSeasons(acc)
    && (forall m :: 0 <= m < |acc| ==> acc[m].episodes != [] && acc[m].episodes == OfSeason(xs, acc[m].season))
    && multiset(Flatten(acc)) == multiset(xs)
  }

  /** Every episode of the whole sits in one of the groups. */
  lemma {:induction false} FlattenMember(groups: seq<SeasonEpisodes>, x: Episode)
    requires x in Flatten(groups)
    ensures exists m :: 0 <= m < |groups| && x in groups[m].episodes
  {
    if x !in groups[0].episodes {
      FlattenMember(groups[1..], x);
      var m :| 0 <= m < |groups[1..]| && x in groups[1..][m].episodes;
      assert groups[m + 1] == groups[1..][m];
    }
  }

  /** While grouping, the season of every episode seen so far has a group. */
  lemma {:induction false} GroupedListsSeason(xs: seq<Episode>, acc: seq<SeasonEpisodes>, k: nat)
    requires Grouped(xs, acc) && k < |xs|
    ensures Listed(acc, xs[k].season)
  {
    var x := xs[k];
    assert x in multiset(Flatten(acc));
    FlattenMember(acc, x);
    var m :| 0 <= m < |acc| && x in acc[m].episodes;
    OfSeasonMembers(xs, acc[m].season);
  }

  lemma {:induction false} GroupedIsGrouping(xs: seq<Episode>, acc: seq<SeasonEpisodes>)
    requires Grouped(xs, acc)
    ensures IsSeasonGrouping(xs, acc)
  {
    forall k | 0 <= k < |xs| ensures Listed(acc, xs[k].season) {
      GroupedListsSeason(xs, acc, k);
    }
  }


  /** Giving one group one more episode keeps the seasons distinct. */
  lemma {:induction false} PushKeepsDistinct(acc: seq<SeasonEpisodes>, idx: nat, e: Episode)
    requires DistinctSeasons(acc) && idx < |acc|
    ensures DistinctSeasons(acc[idx := SeasonEpisodes(acc[idx].season, acc[idx].episodes + [e])])
  {
    var acc' := acc[idx := SeasonEpisodes(acc[idx].season, acc[idx].episodes + [e])];
    forall i, j | 0 <= i < j < |acc'| ensures acc'[i].season != acc'[j].season {
      assert acc'[i].season == acc[i].season && acc'[j].season == acc[j].season;
    }
  }

  /** Pushing `e` onto its season's group keeps every group equal to its season's episodes. */
  lemma {:induction false} PushFollows(xs: seq<Episode>, acc: seq<SeasonEpisodes>, e: Episode, idx: nat)
    requires DistinctSeasons(acc) && idx < |acc| && acc[idx].season == e.season
    requires forall m :: 0 <= m < |acc| ==> acc[m].episodes != [] && acc[m].episodes == OfSeason(xs, acc[m].season)
    ensures var acc' := acc[idx := SeasonEpisodes(acc[idx].season, acc[idx].episodes + [e])];
      forall m :: 0 <= m < |acc'| ==> acc'[m].episodes != [] && acc'[m].episodes == OfSeason(xs + [e], acc'[m].season)
  {
    var acc' := acc[idx := SeasonEpisodes(acc[idx].season, acc[idx].episodes + [e])];
    forall m | 0 <= m < |acc'|
      ensures acc'[m].episodes != [] && acc'[m].episodes == OfSeason(xs + [e], acc'[m].season)
    {
      OfSeasonSnoc(xs, e, acc'[m].season);
      if m != idx {
        assert acc'[m] == acc[m];
        assert acc[m].season != e.season by {
          if m < idx { assert acc[m].season != acc[idx].season; } else { assert acc[idx].season != acc[m].season; }
        }
      }
    }
  }

  /** One reduce step when the episode's season already has a group. */
  lemma {:induction false} GroupedPush(xs: seq<Episode>, acc: seq<SeasonEpisodes>, e: Episode, idx: nat)
    requires Grouped(xs, acc) && idx < |acc| && acc[idx].season == e.season
    ensures Grouped(xs + [e], acc[idx := SeasonEpisodes(acc[idx].season, acc[idx].episodes + [e])])
  {
    var acc' := acc[idx := SeasonEpisodes(acc[idx].season, acc[idx].episodes + [e])];
    PushKeepsDistinct(acc, idx, e);
    PushFollows(xs, acc, e, idx);
    FlattenGrow(acc, idx, e);
  }

  /** A new last group for an unseen season keeps the seasons distinct. */
  lemma {:induction false} NewKeepsDistinct(acc: seq<SeasonEpisodes>, e: Episode)
    requires DistinctSeasons(acc) && !Listed(acc, e.season)
    ensures DistinctSeasons(acc + [SeasonEpisodes(e.season, [e])])
  {
    var acc' := acc + [SeasonEpisodes(e.season, [e])];
    forall i, j | 0 <= i < j < |acc'| ensures acc'[i].season != acc'[j].season {
      assert acc'[i] == acc[i];
      if j < |acc| { assert acc'[j] == acc[j]; }
    }
  }

  /** Opening a group for an unseen season keeps every group equal to its season's episodes. */
  lemma {:induction false} NewFollows(xs: seq<Episode>, acc: seq<SeasonEpisodes>, e: Episode)
    requires Grouped(xs, acc) && !Listed(acc, e.season)
    ensures var acc' := acc + [SeasonEpisodes(e.season, [e])];
      forall m :: 0 <= m < |acc'| ==> acc'[m].episodes != [] && acc'[m].episodes == OfSeason(xs + [e], acc'[m].season)
  {
    var acc' := acc + [SeasonEpisodes(e.season, [e])];
    forall m | 0 <= m < |acc| ensures acc[m].episodes == OfSeason(xs + [e], acc[m].season) {
      OfSeasonSnoc(xs, e, acc[m].season);
    }
    forall k | 0 <= k < |xs| ensures xs[k].season != e.season {
      GroupedListsSeason(xs, acc, k);
    }
    OfSeasonNone(xs, e.season);
    OfSeasonSnoc(xs, e, e.season);
    assert acc'[|acc|].episodes == OfSeason(xs + [e], e.season);
  }

  /** One reduce step that opens a group for a season not seen before. */
  lemma {:induction false} GroupedNew(xs: seq<Episode>, acc: seq<SeasonEpisodes>, e: Episode)
    requires Grouped(xs, acc) && !Listed(acc, e.season)
    ensures Grouped(xs + [e], acc + [SeasonEpisodes(e.season, [e])])
  {
    var g := SeasonEpisodes(e.season, [e]);
    var acc' := acc + [g];
    NewKeepsDistinct(acc, e);
    NewFollows(xs, acc, e);
    FlattenAppend(acc, g);
  }

  /** The `reduce` callback: push onto the season's group, or open a new last group. */
  function PlaceEpisode(acc: seq<SeasonEpisodes>, e: Episode): seq<SeasonEpisodes> {
    var idx := FindSeason(acc, e.season);
    if idx >= 0 then acc[idx := SeasonEpisodes(acc[idx].season, acc[idx].episodes + [e])]
    else acc + [SeasonEpisodes(e.season, [e])]
  }

  /** One reduce step keeps the grouping of the episodes seen so far. */
  lemma {:induction false} PlaceKeepsGrouped(xs: seq<Episode>, acc: seq<SeasonEpisodes>, e: Episode)
    requires Grouped(xs, acc)
    ensures Grouped(xs + [e], PlaceEpisode(acc, e))
  {
    var idx := FindSeason(acc, e.season);
    if idx >= 0 {
      GroupedPush(xs, acc, e, idx);
    } else {
      GroupedNew(xs, acc, e);
    }
  }

  /** `eps.reduce(place, [])`, the callback applied to each episode in fetched order. */
  function PlaceAll(eps: seq<Episode>): seq<SeasonEpisodes> {
    if eps == [] then [] else PlaceEpisode(PlaceAll(eps[..|eps| - 1]), eps[|eps| - 1])
  }

  /** The reduce groups every prefix of the episodes it has gone through. */
  lemma {:induction false} PlaceAllGrouped(eps: seq<Episode>)
    ensures Grouped(eps, PlaceAll(eps))
  {
    if eps != [] {
      var init := eps[..|eps| - 1];
      var last := eps[|eps| - 1];
      PlaceAllGrouped(init);
      PlaceKeepsGrouped(init, PlaceAll(init), last);
      assert init + [last] == eps;
      assert PlaceAll(eps) == PlaceEpisode(PlaceAll(init), last);
    }
  }

  /**
   * The `reduce`: one group per season in order of first appearance, each
   * holding that season's episodes in fetched order.
   */
  method GroupBySeason(eps: seq<Episode>) returns (acc: seq<SeasonEpisodes>)
    ensures DistinctSeasons(acc)
    ensures forall m :: 0 <= m < |acc| ==> acc[m].episodes == OfSeason(eps, acc[m].season)
    ensures IsSeasonGrouping(eps, acc)
  {
    acc := [];
    var i := 0;
    while i < |eps|
      invariant 0 <= i <= |eps|
      invariant acc == PlaceAll(eps[..i])
    {
      assert eps[..i + 1][..i] == eps[..i];
      acc := PlaceEpisode(acc, eps[i]);
      i := i + 1;
    }
    assert eps[..i] == eps;
    PlaceAllGrouped(eps);
    GroupedIsGrouping(eps, acc);
  }

  // ------------------------------------------------------- season ordering

  /** Puts `g` before the first group with a later season. */
  function InsertBySeason(xs: seq<SeasonEpisodes>, g: SeasonEpisodes): (r: seq<SeasonEpisodes>)
    ensures |r| == |xs| + 1
    ensures r[0] == g || (xs != [] && r[0] == xs[0])
  {
    if xs == [] then [g]
    else if g.season < xs[0].season then [g] + xs
    else [xs[0]] + InsertBySeason(xs[1..], g)
  }

  /** A suffix of an ascending list is ascending. */
  lemma {:induction false} SeasonsAscendingTail(xs: seq<SeasonEpisodes>)
    requires xs != [] && SeasonsAscending(xs)
    ensures SeasonsAscending(xs[1..])
    ensures forall m :: 0 <= m < |xs| - 1 ==> xs[0].season < xs[1..][m].season
  {
    var tail := xs[1..];
    forall i, j | 0 <= i < j < |tail| ensures tail[i].season < tail[j].season {
      assert tail[i] == xs[i + 1] && tail[j] == xs[j + 1];
    }
  }

  /** Putting a group in front of an ascending list whose seasons all come later keeps it ascending. */
  lemma {:induction false} ConsAscending(h: SeasonEpisodes, xs: seq<SeasonEpisodes>)
    requires SeasonsAscending(xs) && forall m :: 0 <= m < |xs| ==> h.season < xs[m].season
    ensures SeasonsAscending([h] + xs)
  {
    var r := [h] + xs;
    forall i, j | 0 <= i < j < |r| ensures r[i].season < r[j].season {
      assert r[j] == xs[j - 1];
      if i > 0 { assert r[i] == xs[i - 1]; }
    }
  }

  /** Inserting a group of a new season into an ascending list keeps it ascending. */
  lemma {:induction false} InsertBySeasonAscending(xs: seq<SeasonEpisodes>, g: SeasonEpisodes)
    requires SeasonsAscending(xs) && !Listed(xs, g.season)
    ensures SeasonsAscending(InsertBySeason(xs, g))
  {
    if xs == [] {
    } else if g.season < xs[0].season {
      ConsAscending(g, xs);
    } else {
      var tail := xs[1..];
      SeasonsAscendingTail(xs);
      forall m | 0 <= m < |tail| ensures tail[m].season != g.season {
        assert tail[m] == xs[m + 1];
      }
      InsertBySeasonAscending(tail, g);
      var rest := InsertBySeason(tail, g);
      assert g.season != xs[0].season;
      forall m | 0 <= m < |rest| ensures xs[0].season < rest[m].season {
        if m > 0 {
          assert rest[0].season < rest[m].season;
        }
      }
      ConsAscending(xs[0], rest);
    }
  }

  /** Inserting adds exactly the group. */
  lemma {:induction false} InsertBySeasonPermutes(xs: seq<SeasonEpisodes>, g: SeasonEpisodes)
    ensures multiset(InsertBySeason(xs, g)) == multiset(xs) + multiset{g}
  {
    if xs != [] && g.season >= xs[0].season {
      InsertBySeasonPermutes(xs[1..], g);
      assert xs == [xs[0]] + xs[1..];
    }
  }

  /** Inserting a group adds exactly its episodes to the whole. */
  lemma {:induction false} InsertBySeasonKeepsEpisodes(xs: seq<SeasonEpisodes>, g: SeasonEpisodes)
    ensures multiset(Flatten(InsertBySeason(xs, g))) == multiset(Flatten(xs)) + multiset(g.episodes)
  {
    var r := InsertBySeason(xs, g);
    if xs == [] {
      assert r == [g] && r[1..] == [];
    } else if g.season < xs[0].season {
      assert r == [g] + xs && r[1..] == xs;
      assert Flatten(r) == g.episodes + Flatten(xs);
    } else {
      var rest := InsertBySeason(xs[1..], g);
      InsertBySeasonKeepsEpisodes(xs[1..], g);
      assert r == [xs[0]] + rest && r[1..] == rest;
      assert Flatten(r) == xs[0].episodes + Flatten(rest);
      assert Flatten(xs) == xs[0].episodes + Flatten(xs[1..]);
    }
  }

  /** The in-place `sort((a, b) => a.season - b.season)` of groups with distinct seasons. */
  method SortBySeason(groups: seq<SeasonEpisodes>) returns (sorted: seq<SeasonEpisodes>)
    requires DistinctSeasons(groups)
    ensures SeasonsAscending(sorted)
    ensures multiset(sorted) == multiset(groups)
    ensures multiset(Flatten(sorted)) == multiset(Flatten(groups))
  {
    sorted := [];
    var i := 0;
    while i < |groups|
      invariant 0 <= i <= |groups|
      invariant SeasonsAscending(sorted)
      invariant multiset(sorted) == multiset(groups[..i])
      invariant multiset(Flatten(sorted)) == multiset(Flatten(groups[..i]))
    {
      SortBySeasonStep(groups, i, sorted);
      sorted := InsertBySeason(sorted, groups[i]);
      i := i + 1;
    }
    assert groups[..i] == groups;
  }

  /** One step of the season sort: inserting the next group keeps the loop's invariants. */
  lemma {:induction false} SortBySeasonStep(groups: seq<SeasonEpisodes>, i: nat, sorted: seq<SeasonEpisodes>)
    requires DistinctSeasons(groups) && i < |groups|
    requires SeasonsAscending(sorted)
    requires multiset(sorted) == multiset(groups[..i])
    requires multiset(Flatten(sorted)) == multiset(Flatten(groups[..i]))
    ensures SeasonsAscending(InsertBySeason(sorted, groups[i]))
    ensures multiset(InsertBySeason(sorted, groups[i])) == multiset(groups[..i + 1])
    ensures multiset(Flatten(InsertBySeason(sorted, groups[i]))) == multiset(Flatten(groups[..i + 1]))
  {
    var g := groups[i];
    NotYetSorted(groups, i, sorted);
    assert groups[..i + 1] == groups[..i] + [g];
    FlattenAppend(groups[..i], g);
    InsertBySeasonAscending(sorted, g);
    InsertBySeasonPermutes(sorted, g);
    InsertBySeasonKeepsEpisodes(sorted, g);
  }

  /** With distinct seasons, a later group's season is not among the groups before it. */
  lemma {:induction false} NotYetSorted(groups: seq<SeasonEpisodes>, i: nat, sorted: seq<SeasonEpisodes>)
    requires DistinctSeasons(groups) && i < |groups| && multiset(sorted) == multiset(groups[..i])
    ensures !Listed(sorted, groups[i].season)
  {
    forall m | 0 <= m < |sorted| ensures sorted[m].season != groups[i].season {
      assert sorted[m] in multiset(groups[..i]);
      var k :| 0 <= k < i && groups[k] == sorted[m];
    }
  }

  // ------------------------------------------------------ episode ordering

  /** Puts `e` after every episode numbered no later than it (a stable insertion). */
  function InsertByNumber(xs: seq<Episode>, e: Episode): (r: seq<Episode>)
    ensures |r| == |xs| + 1
    ensures r[0] == e || (xs != [] && r[0] == xs[0])
  {
    if xs == [] then [e]
    else if e.number < xs[0].number then [e] + xs
    else [xs[0]] + InsertByNumber(xs[1..], e)
  }

  /** Putting an episode in front of a list numbered no earlier keeps it ordered. */
  lemma {:induction false} ConsByNumber(h: Episode, xs: seq<Episode>)
    requires ByNumber(xs) && forall m :: 0 <= m < |xs| ==> h.number <= xs[m].number
    ensures ByNumber([h] + xs)
  {
    var r := [h] + xs;
    forall i, j | 0 <= i < j < |r| ensures r[i].number <= r[j].number {
      assert r[j] == xs[j - 1];
      if i > 0 { assert r[i] == xs[i - 1]; }
    }
  }

  /** Inserting into a list ordered by number keeps it ordered. */
  lemma {:induction false} InsertByNumberOrdered(xs: seq<Episode>, e: Episode)
    requires ByNumber(xs)
    ensures ByNumber(InsertByNumber(xs, e))
  {
    if xs == [] {
    } else if e.number < xs[0].number {
      ConsByNumber(e, xs);
    } else {
      var tail := xs[1..];
      assert ByNumber(tail) by {
        forall i, j | 0 <= i < j < |tail| ensures tail[i].number <= tail[j].number {
          assert tail[i] == xs[i + 1] && tail[j] == xs[j + 1];
        }
      }
      InsertByNumberOrdered(tail, e);
      var rest := InsertByNumber(tail, e);
      forall m | 0 <= m < |rest| ensures xs[0].number <= rest[m].number {
        if m > 0 {
          assert rest[0].number <= rest[m].number;
          assert tail[0] == xs[1];
        }
      }
      ConsByNumber(xs[0], rest);
    }
  }

  /** Inserting adds exactly the episode. */
  lemma {:induction false} InsertByNumberPermutes(xs: seq<Episode>, e: Episode)
    ensures multiset(InsertByNumber(xs, e)) == multiset(xs) + multiset{e}
  {
    if xs != [] && e.number >= xs[0].number {
      InsertByNumberPermutes(xs[1..], e);
      assert xs == [xs[0]] + xs[1..];
    }
  }

  /** The episodes of `es` numbered `n`, in the order of `es`. */
  function NumberedAs(es: seq<Episode>, n: int): seq<Episode>
  {
    if es == [] then [] else (if es[0].number == n then [es[0]] else []) + NumberedAs(es[1..], n)
  }

  /**
   * `sorted` keeps the relative order `es` gives to episodes with equal
   * numbers, as the stable `Array.prototype.sort` does.
   */
  ghost predicate KeepsTieOrder(sorted: seq<Episode>, es: seq<Episode>) {
    forall n :: NumberedAs(sorted, n) == NumberedAs(es, n)
  }

  lemma {:induction false} NumberedAsAppend(xs: seq<Episode>, ys: seq<Episode>, n: int)
    ensures NumberedAs(xs + ys, n) == NumberedAs(xs, n) + NumberedAs(ys, n)
  {
    if xs == [] {
      assert xs + ys == ys;
    } else {
      var h := if xs[0].number == n then [xs[0]] else [];
      assert (xs + ys)[0] == xs[0];
      assert (xs + ys)[1..] == xs[1..] + ys;
      assert NumberedAs(xs + ys, n) == h + NumberedAs(xs[1..] + ys, n);
      NumberedAsAppend(xs[1..], ys, n);
      assert h + (NumberedAs(xs[1..], n) + NumberedAs(ys, n)) == (h + NumberedAs(xs[1..], n)) + NumberedAs(ys, n);
    }
  }

  lemma {:induction false} NumberedAsNone(xs: seq<Episode>, n: int)
    requires forall k :: 0 <= k < |xs| ==> xs[k].number != n
    ensures NumberedAs(xs, n) == []
  {
    if xs != [] {
      assert forall k :: 0 <= k < |xs[1..]| ==> xs[1..][k] == xs[k + 1];
      NumberedAsNone(xs[1..], n);
    }
  }

  /** An episode numbered `n` is found in `xs` when `NumberedAs` has any. */
  lemma {:induction false} NumberedAsWitness(xs: seq<Episode>, n: int)
    requires NumberedAs(xs, n) != []
    ensures exists k :: 0 <= k < |xs| && xs[k].number == n
  {
    if xs[0].number != n {
      NumberedAsWitness(xs[1..], n);
      var k :| 0 <= k < |xs[1..]| && xs[1..][k].number == n;
      assert xs[k + 1].number == n;
    }
  }

  lemma ByNumberTail(xs: seq<Episode>)
    requires xs != [] && ByNumber(xs)
    ensures ByNumber(xs[1..])
  {
    forall i, j | 0 <= i < j < |xs[1..]| ensures xs[1..][i].number <= xs[1..][j].number {
      assert xs[1..][i] == xs[i + 1] && xs[1..][j] == xs[j + 1];
    }
  }

  /** Insertion goes after every episode with the same number: it is stable. */
  lemma {:induction false} InsertByNumberStable(xs: seq<Episode>, e: Episode, n: int)
    requires ByNumber(xs)
    ensures NumberedAs(InsertByNumber(xs, e), n) == NumberedAs(xs, n) + (if e.number == n then [e] else [])
  {
    if xs == [] {
      assert [e][1..] == [];
    } else if e.number < xs[0].number {
      InsertInFrontStable(xs, e, n);
    } else {
      ByNumberTail(xs);
      InsertByNumberStable(xs[1..], e, n);
      InsertLaterStable(xs, e, n);
    }
  }

  lemma InsertInFrontStable(xs: seq<Episode>, e: Episode, n: int)
    requires ByNumber(xs) && xs != [] && e.number < xs[0].number
    ensures NumberedAs(InsertByNumber(xs, e), n) == NumberedAs(xs, n) + (if e.number == n then [e] else [])
  {
    assert InsertByNumber(xs, e) == [e] + xs;
    assert ([e] + xs)[1..] == xs;
    if e.number == n {
      forall k | 0 <= k < |xs| ensures xs[k].number != n {
        if k > 0 { assert xs[0].number <= xs[k].number; }
      }
      NumberedAsNone(xs, n);
    }
  }

  lemma InsertLaterStable(xs: seq<Episode>, e: Episode, n: int)
    requires xs != [] && e.number >= xs[0].number
    requires NumberedAs(InsertByNumber(xs[1..], e), n) == NumberedAs(xs[1..], n) + (if e.number == n then [e] else [])
    ensures NumberedAs(InsertByNumber(xs, e), n) == NumberedAs(xs, n) + (if e.number == n then [e] else [])
  {
    var rest := InsertByNumber(xs[1..], e);
    var h := if xs[0].number == n then [xs[0]] else [];
    var last := if e.number == n then [e] else [];
    assert InsertByNumber(xs, e) == [xs[0]] + rest;
    assert ([xs[0]] + rest)[1..] == rest;
    assert NumberedAs(InsertByNumber(xs, e), n) == h + NumberedAs(rest, n);
    assert NumberedAs(xs, n) == h + NumberedAs(xs[1..], n);
    assert h + (NumberedAs(xs[1..], n) + last) == (h + NumberedAs(xs[1..], n)) + last;
  }

  /** Two number-ordered lists with the same tie order start with the same episode. */
  lemma HeadsAgree(a: seq<Episode>, b: seq<Episode>)
    requires ByNumber(a) && ByNumber(b) && KeepsTieOrder(a, b) && a != []
    ensures b != [] && a[0] == b[0]
  {
    var m := a[0].number;
    assert NumberedAs(a, m) == [a[0]] + NumberedAs(a[1..], m);
    assert NumberedAs(b, m) != [];
    NumberedAsWitness(b, m);
    var kb :| 0 <= kb < |b| && b[kb].number == m;
    assert b[0].number <= m by { if kb > 0 { assert b[0].number <= b[kb].number; } }
    var mb := b[0].number;
    assert NumberedAs(b, mb) == [b[0]] + NumberedAs(b[1..], mb);
    assert NumberedAs(a, mb) != [];
    NumberedAsWitness(a, mb);
    var ka :| 0 <= ka < |a| && a[ka].number == mb;
    assert m <= mb by { if ka > 0 { assert a[0].number <= a[ka].number; } }
    assert NumberedAs(a, m)[0] == NumberedAs(b, m)[0];
  }

  /** Dropping a common first episode keeps the tie order. */
  lemma TailsKeepTieOrder(a: seq<Episode>, b: seq<Episode>)
    requires a != [] && b != [] && a[0] == b[0] && KeepsTieOrder(a, b)
    ensures KeepsTieOrder(a[1..], b[1..])
  {
    forall n ensures NumberedAs(a[1..], n) == NumberedAs(b[1..], n) {
      var head := if a[0].number == n then [a[0]] else [];
      assert NumberedAs(a, n) == head + NumberedAs(a[1..], n);
      assert NumberedAs(b, n) == head + NumberedAs(b[1..], n);
      assert NumberedAs(a[1..], n) == NumberedAs(a, n)[|head|..];
      assert NumberedAs(b[1..], n) == NumberedAs(b, n)[|head|..];
    }
  }

  /**
   * Number order together with the order among equal numbers fixes the
   * list: any two stable sorts of the same episodes agree.
   */
  lemma {:induction false} TieOrderDetermines(a: seq<Episode>, b: seq<Episode>)
    requires ByNumber(a) && ByNumber(b) && KeepsTieOrder(a, b)
    ensures a == b
  {
    if a != [] {
      HeadsAgree(a, b);
    } else if b != [] {
      HeadsAgree(b, a);
    }
    if a != [] {
      TailsKeepTieOrder(a, b);
      ByNumberTail(a);
      ByNumberTail(b);
      TieOrderDetermines(a[1..], b[1..]);
      assert a == [a[0]] + a[1..] && b == [b[0]] + b[1..];
    }
  }

  /** One step of the number sort: inserting the next episode keeps the loop's invariants. */
  lemma {:induction false} SortByNumberStep(es: seq<Episode>, i: nat, sorted: seq<Episode>)
    requires i < |es| && ByNumber(sorted)
    requires multiset(sorted) == multiset(es[..i]) && KeepsTieOrder(sorted, es[..i])
    ensures ByNumber(InsertByNumber(sorted, es[i]))
    ensures multiset(InsertByNumber(sorted, es[i])) == multiset(es[..i + 1])
    ensures KeepsTieOrder(InsertByNumber(sorted, es[i]), es[..i + 1])
  {
    assert es[..i + 1] == es[..i] + [es[i]];
    InsertByNumberOrdered(sorted, es[i]);
    InsertByNumberPermutes(sorted, es[i]);
    forall n ensures NumberedAs(InsertByNumber(sorted, es[i]), n) == NumberedAs(es[..i + 1], n) {
      InsertByNumberStable(sorted, es[i], n);
      NumberedAsAppend(es[..i], [es[i]], n);
      assert [es[i]][1..] == [];
    }
  }

  /** The in-place `sort((a, b) => a.number - b.number)` of one season's episodes. */
  method SortByNumber(es: seq<Episode>) returns (sorted: seq<Episode>)
    ensures ByNumber(sorted)
    ensures multiset(sorted) == multiset(es)
    ensures KeepsTieOrder(sorted, es)
  {
    sorted := [];
    for i := 0 to |es|
      invariant ByNumber(sorted)
      invariant multiset(sorted) == multiset(es[..i])
      invariant KeepsTieOrder(sorted, es[..i])
    {
      SortByNumberStep(es, i, sorted);
      sorted := InsertByNumber(sorted, es[i]);
    }
    assert es[..|es|] == es;
  }

  // ------------------------------------------------------------ the result

  /** Reordering the groups keeps a season grouping. */
  lemma {:induction false} GroupingPermuted(xs: seq<Episode>, a: seq<SeasonEpisodes>, b: seq<SeasonEpisodes>)
    requires IsSeasonGrouping(xs, a)
    requires multiset(b) == multiset(a) && multiset(Flatten(b)) == multiset(Flatten(a))
    ensures IsSeasonGrouping(xs, b)
  {
    forall m | 0 <= m < |b|
      ensures b[m].episodes != [] && multiset(b[m].episodes) == multiset(OfSeason(xs, b[m].season))
    {
      assert b[m] in multiset(a);
    }
    forall k | 0 <= k < |xs| ensures Listed(b, xs[k].season) {
      var m :| 0 <= m < |a| && a[m].season == xs[k].season;
      assert a[m] in multiset(b);
    }
  }

  /** Reordering inside each group keeps a season grouping. */
  lemma {:induction false} GroupingReorderedWithin(xs: seq<Episode>, a: seq<SeasonEpisodes>, b: seq<SeasonEpisodes>)
    requires IsSeasonGrouping(xs, a)
    requires |b| == |a|
    requires forall m :: 0 <= m < |a| ==> b[m].season == a[m].season
    requires forall m :: 0 <= m < |a| ==> multiset(b[m].episodes) == multiset(a[m].episodes)
    ensures IsSeasonGrouping(xs, b)
  {
    FlattenPermuted(b, a);
    forall m | 0 <= m < |b| ensures b[m].episodes != [] {
      assert |b[m].episodes| == |multiset(b[m].episodes)| == |multiset(a[m].episodes)| == |a[m].episodes|;
    }
    forall k | 0 <= k < |xs| ensures Listed(b, xs[k].season) {
      var m :| 0 <= m < |a| && a[m].season == xs[k].season;
      assert b[m].season == xs[k].season;
    }
  }

  /** `s` is group `g` with its episodes stably sorted by number. */
  ghost predicate SortedGroup(s: SeasonEpisodes, g: SeasonEpisodes) {
    && s.season == g.season
    && multiset(s.episodes) == multiset(g.episodes)
    && ByNumber(s.episodes)
    && KeepsTieOrder(s.episodes, g.episodes)
  }

  /** Sorts the episodes of every group by number, leaving the groups in place. */
  method SortEachSeason(groups: seq<SeasonEpisodes>) returns (sorted: seq<SeasonEpisodes>)
    ensures |sorted| == |groups|
    ensures forall m :: 0 <= m < |groups| ==> sorted[m].season == groups[m].season
    ensures forall m :: 0 <= m < |groups| ==> multiset(sorted[m].episodes) == multiset(groups[m].episodes)
    ensures forall m :: 0 <= m < |groups| ==> ByNumber(sorted[m].episodes)
    ensures forall m :: 0 <= m < |groups| ==> KeepsTieOrder(sorted[m].episodes, groups[m].episodes)
  {
    sorted := [];
    for i := 0 to |groups|
      invariant |sorted| == i
      invariant forall m :: 0 <= m < i ==> SortedGroup(sorted[m], groups[m])
    {
      var es := SortByNumber(groups[i].episodes);
      assert SortedGroup(SeasonEpisodes(groups[i].season, es), groups[i]);
      sorted := sorted + [SeasonEpisodes(groups[i].season, es)];
    }
  }

  /**
   * What `loadEpisodes` stores for a fetched list: a season grouping of it
   * whose groups are in strictly ascending season order and whose episodes
   * are ordered by episode number, episodes with equal numbers in fetched
   * order; as many episodes as were fetched.
   */
  method GroupEpisodes(eps: seq<Episode>) returns (groups: seq<SeasonEpisodes>)
    ensures SeasonsAscending(groups)
    ensures forall m :: 0 <= m < |groups| ==> ByNumber(groups[m].episodes)
    ensures forall m :: 0 <= m < |groups| ==> KeepsTieOrder(groups[m].episodes, OfSeason(eps, groups[m].season))
    ensures IsSeasonGrouping(eps, groups)
    ensures |Flatten(groups)| == |eps|
  {
    var acc := GroupBySeason(eps);
    var bySeason := SortBySeason(acc);
    GroupingPermuted(eps, acc, bySeason);
    forall m | 0 <= m < |bySeason| ensures bySeason[m].episodes == OfSeason(eps, bySeason[m].season) {
      assert bySeason[m] in multiset(acc);
      var k :| 0 <= k < |acc| && acc[k] == bySeason[m];
    }
    groups := SortEachSeason(bySeason);
    GroupingReorderedWithin(eps, bySeason, groups);
    assert |Flatten(groups)| == |multiset(Flatten(groups))| == |multiset(eps)|;
  }

  /**
   * In a season grouping with ascending seasons each fetched episode sits
   * in exactly one group, the one of its own season.
   */
  lemma {:induction false} EachEpisodeInOneGroup(eps: seq<Episode>, groups: seq<SeasonEpisodes>, k: nat)
    requires k < |eps|
    requires SeasonsAscending(groups) && IsSeasonGrouping(eps, groups)
    ensures exists m :: 0 <= m < |groups| && groups[m].season == eps[k].season && eps[k] in groups[m].episodes
    ensures forall m :: 0 <= m < |groups| && eps[k] in groups[m].episodes ==> groups[m].season == eps[k].season
    ensures forall m1, m2 :: 0 <= m1 < m2 < |groups| ==> !(eps[k] in groups[m1].episodes && eps[k] in groups[m2].episodes)
  {
    var x := eps[k];
    var m :| 0 <= m < |groups| && groups[m].season == x.season;
    OfSeasonMembers(eps, x.season);
    assert x in OfSeason(eps, x.season);
    assert x in multiset(groups[m].episodes);
    forall n | 0 <= n < |groups| && x in groups[n].episodes ensures groups[n].season == x.season {
      assert x in multiset(OfSeason(eps, groups[n].season));
      OfSeasonMembers(eps, groups[n].season);
    }
  }

  // ----------------------------------------------------------- hook state

  /** The state of `useEpisodes` for one series. */
  class EpisodesState {
    var episodes: seq<SeasonEpisodes>
    var loading: bool
    var error: Option<APIError>

    constructor ()
      ensures episodes == [] && !loading && error == None
    {
      episodes := [];
      loading := false;
      error := None;
    }

    /**
     * `loadEpisodes` (also `refreshEpisodes`): no fetch for a falsy id;
     * otherwise the grouped result, or the mapped error with the previous
     * groups kept. `loading` is false afterwards.
     */
    method LoadEpisodes(seriesId: int, fetchEpisodes: int -> Fetch<seq<Episode>>)
      modifies this
      ensures seriesId == 0 ==> episodes == old(episodes) && loading == old(loading) && error == old(error)
      ensures seriesId != 0 ==> !loading
      ensures seriesId != 0 && fetchEpisodes(seriesId).Ok? ==>
        error == None
        && SeasonsAscending(episodes)
        && (forall m :: 0 <= m < |episodes| ==> ByNumber(episodes[m].episodes))
        && (forall m :: 0 <= m < |episodes| ==>
              KeepsTieOrder(episodes[m].episodes, OfSeason(fetchEpisodes(seriesId).value, episodes[m].season)))
        && IsSeasonGrouping(fetchEpisodes(seriesId).value, episodes)
      ensures seriesId != 0 && !fetchEpisodes(seriesId).Ok? ==>
        episodes == old(episodes)
        && error == Some(ToAPIError(fetchEpisodes(seriesId), "Failed to load episodes"))
    {
      if seriesId == 0 {
        return;
      }
      loading := true;
      error := None;
      var result := fetchEpisodes(seriesId);
      match result {
        case Ok(eps) =>
          var grouped := GroupEpisodes(eps);
          episodes := grouped;
        case _ =>
          error := Some(ToAPIError(result, "Failed to load episodes"));
      }
      loading := false;
    }
  }
}
