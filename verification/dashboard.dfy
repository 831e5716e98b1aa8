/** The pieces of the dashboard with behaviour of their own: the summary
    counts over all LCs, the status badge, and the one-slot expand/collapse
    state of the organisation view. */
module Dashboard {
  import opened Types
  import opened Status
  import opened Seqs

  /** An LC counts as active when its attendance is exactly "Present" or
      exactly "Active" (case-sensitive). */
  predicate IsActive(lc: LC)
  {
    lc.metrics.attendance == "Present" || lc.metrics.attendance == "Active"
  }

  /** The dashboard's defaulter test, written against the threshold
      directly rather than through the classifier. */
  predicate IsDefaulter(lc: LC)
  {
    lc.metrics.overall < PoorLimit
  }

  /** The dashboard's top-performer test, written against the threshold
      directly rather than through the classifier. */
  predicate IsGoodPerformer(lc: LC)
  {
    lc.metrics.overall > GoodStart
  }

  /** Number of LCs the classifier puts in band `s`. */
  function CountStatus(lcs: seq<LC>, s: PerformanceStatus): nat
  {
    if |lcs| == 0 then 0
    else (if GetStatus(lcs[0].metrics.overall) == s then 1 else 0) + CountStatus(lcs[1..], s)
  }

  /** Number of active LCs, counted one by one. */
  function CountActive(lcs: seq<LC>): nat
  {
    if |lcs| == 0 then 0 else (if IsActive(lcs[0]) then 1 else 0) + CountActive(lcs[1..])
  }

  /** Filtering by attendance keeps exactly the active LCs. */
  lemma {:induction false} LemmaActiveCount(lcs: seq<LC>)
    ensures |Filter(lcs, IsActive)| == CountActive(lcs)
  {
    if |lcs| > 0 {
      LemmaActiveCount(lcs[1..]);
    }
  }

  /** The headline figures shown on the dashboard. */
  datatype Summary = Summary(totalLCs: nat, activeLCs: nat, defaulters: nat, goodPerformers: nat)

  /** The value of the "Acceptable (80-100%)" tile: what is left of the
      total once defaulters and top performers are taken away. */
  function AcceptableTile(s: Summary): int
  {
    s.totalLCs - s.defaulters - s.goodPerformers
  }

  /** Counting defaulters by threshold agrees with counting Poor LCs. */
  lemma {:induction false} LemmaDefaultersArePoor(lcs: seq<LC>)
    ensures |Filter(lcs, IsDefaulter)| == CountStatus(lcs, Poor)
  {
    if |lcs| > 0 {
      LemmaDefaultersArePoor(lcs[1..]);
    }
  }

  /** Counting top performers by threshold agrees with counting Good LCs. */
  lemma {:induction false} LemmaGoodPerformersAreGood(lcs: seq<LC>)
    ensures |Filter(lcs, IsGoodPerformer)| == CountStatus(lcs, Good)
  {
    if |lcs| > 0 {
      LemmaGoodPerformersAreGood(lcs[1..]);
    }
  }

  /** Every LC is in exactly one band. */
  lemma {:induction false} LemmaStatusPartition(lcs: seq<LC>)
    ensures CountStatus(lcs, Poor) + CountStatus(lcs, Acceptable) + CountStatus(lcs, Good) == |lcs|
  {
    if |lcs| > 0 {
      LemmaStatusPartition(lcs[1..]);
    }
  }

  /** The summary computed from the flattened LC list. The three status
      counts partition the total, so the Acceptable tile is never negative
      and is exactly the number of Acceptable LCs. */
  function Summarize(allLCs: seq<LC>): (r: Summary)
    ensures r.totalLCs == |allLCs|
    ensures r.activeLCs == CountActive(allLCs)
    ensures r.activeLCs <= r.totalLCs
    ensures r.activeLCs == r.totalLCs <==> forall i :: 0 <= i < |allLCs| ==> IsActive(allLCs[i])
    ensures forall lc :: lc in allLCs && IsActive(lc) ==> r.activeLCs > 0
    ensures r.defaulters == CountStatus(allLCs, Poor)
    ensures r.goodPerformers == CountStatus(allLCs, Good)
    ensures 0 <= AcceptableTile(r) == CountStatus(allLCs, Acceptable)
  {
    LemmaDefaultersArePoor(allLCs);
    LemmaGoodPerformersAreGood(allLCs);
    LemmaStatusPartition(allLCs);
    LemmaActiveCount(allLCs);
    var active := Filter(allLCs, IsActive);
    assert forall lc :: lc in allLCs && IsActive(lc) ==> lc in active;
    Summary(
      totalLCs := |allLCs|,
      activeLCs := |active|,
      defaulters := |Filter(allLCs, IsDefaulter)|,
      goodPerformers := |Filter(allLCs, IsGoodPerformer)|)
  }

  /** The colour family of a badge's style classes. */
  datatype Colour = Green | Yellow | Red

  /** The colour of a badge for each band. */
  function BadgeColour(s: PerformanceStatus): Colour
  {
    match s
    case Good => Green
    case Acceptable => Yellow
    case Poor => Red
  }

  /** A status badge: the band it names and the colour it is drawn in. */
  datatype Badge = Badge(status: PerformanceStatus, colour: Colour)

  /** The badge for a score: its label is the classifier's band and its
      colours are those of that band. */
  function StatusBadge(overall: real): (r: Badge)
    ensures r.status == GetStatus(overall)
    ensures r.colour == BadgeColour(GetStatus(overall))
  {
    var status := GetStatus(overall);
    Badge(status, BadgeColour(status))
  }

  /** Two badges look alike exactly when their scores are in the same band. */
  lemma LemmaBadgeColourMatchesBand(x: real, y: real)
    ensures StatusBadge(x).colour == StatusBadge(y).colour <==> GetStatus(x) == GetStatus(y)
  {
  }

  /** True when `name` is the expanded manager name; every manager with
      that name shows its panel. */
  predicate IsExpanded(expanded: Option<string>, name: string)
  {
    expanded == Some(name)
  }

  /** Clicking manager `name`: collapses it if it is the expanded name,
      otherwise expands it (collapsing whichever other name was expanded). */
  function ToggleMgr(expanded: Option<string>, name: string): (r: Option<string>)
    ensures forall m :: IsExpanded(r, m) <==> m == name && !IsExpanded(expanded, name)
  {
    if expanded == Some(name) then None else Some(name)
  }

  /** At most one manager name is expanded in any state. Managers sharing
      a name share their panel state. */
  lemma LemmaAtMostOneExpanded(expanded: Option<string>, a: string, b: string)
    requires IsExpanded(expanded, a) && IsExpanded(expanded, b)
    ensures a == b
  {
  }

  /** Clicking the same manager twice restores the state when no panel or
      that manager's panel was open. */
  lemma LemmaToggleTwice(expanded: Option<string>, name: string)
    requires expanded == None || expanded == Some(name)
    ensures ToggleMgr(ToggleMgr(expanded, name), name) == expanded
  {
  }

  /** When another manager's panel was open, clicking a manager twice leaves
      every panel closed: the other panel is not reopened. */
  lemma LemmaToggleTwiceFromOther(expanded: Option<string>, name: string)
    requires expanded.Some? && expanded.value != name
    ensures ToggleMgr(ToggleMgr(expanded, name), name) == None
  {
  }
}
