/**
 * Display helpers for a series card (src/features/series/utils/seriesFormatting.ts):
 * the genre line and the colour class of the running status.
 */
module SeriesFormatting {

  import opened Types

  /**
   * The separator the genre line is joined with. In the source file its
   * bytes are a mis-encoded bullet; the model keeps it as those five
   * characters and relies on nothing about them.
   */
  const GenreSeparator: string := " \U{00E2}\U{20AC}\U{00A2} "

  /** `Array.prototype.join`. */
  function Join(xs: seq<string>, sep: string): (r: string)
    ensures xs == [] ==> r == []
    ensures |xs| == 1 ==> r == xs[0]
  {
    if xs == [] then []
    else if |xs| == 1 then xs[0]
    else xs[0] + sep + Join(xs[1..], sep)
  }

  /** Joining one more element appends the separator and that element. */
  lemma {:induction false} JoinSnoc(xs: seq<string>, y: string, sep: string)
    requires xs != []
    ensures Join(xs + [y], sep) == Join(xs, sep) + sep + y
  {
    if |xs| > 1 {
      assert (xs + [y])[1..] == xs[1..] + [y];
      JoinSnoc(xs[1..], y, sep);
    }
  }

  /** Number of elements `slice(0, end)` keeps from a list of length `n`. */
  function SliceEnd(n: nat, end: int): (k: nat)
    ensures k <= n
    ensures end >= 0 ==> k == if end < n then end else n
    ensures end < 0 ==> k == if n + end > 0 then n + end else 0
  {
    if end >= 0 then (if end < n then end else n)
    else if n + end > 0 then n + end else 0
  }

  /**
   * `formatGenres`: nothing for a missing or empty list, otherwise the
   * first `maxCount` genres (three by default) in their order, joined by
   * the separator. A single genre comes back unchanged.
   */
  function FormatGenres(genres: Option<seq<string>>, maxCount: int := 3): (r: string)
    ensures genres == None || genres == Some([]) ==> r == []
    ensures genres.Some? ==> r == Join(genres.value[..SliceEnd(|genres.value|, maxCount)], GenreSeparator)
    ensures genres.Some? && |genres.value| == 1 && maxCount >= 1 ==> r == genres.value[0]
    ensures genres.Some? && 0 <= maxCount <= |genres.value| && maxCount >= 2 ==>
      r == Join(genres.value[..maxCount - 1], GenreSeparator) + GenreSeparator + genres.value[maxCount - 1]
  {
    match genres
    case None => []
    case Some(g) =>
      if g == [] then []
      else
        var shown := g[..SliceEnd(|g|, maxCount)];
        if 2 <= maxCount <= |g| then
          assert shown == g[..maxCount - 1] + [g[maxCount - 1]];
          JoinSnoc(g[..maxCount - 1], g[maxCount - 1], GenreSeparator);
          Join(shown, GenreSeparator)
        else Join(shown, GenreSeparator)
  }

  datatype StatusColor = Error | Success | Default

  /** `getStatusColor`: exactly "Ended" is an error, exactly "Running" a success. */
  function GetStatusColor(status: Option<string>): (c: StatusColor)
    ensures c == Error <==> status == Some("Ended")
    ensures c == Success <==> status == Some("Running")
    ensures c == Default <==> status != Some("Ended") && status != Some("Running")
  {
    match status
    case None => Default
    case Some(s) =>
      if s == [] then Default
      else if s == "Ended" then Error
      else if s == "Running" then Success
      else Default
  }
}
