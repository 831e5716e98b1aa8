/** Classification of an `overall` score into a status band. */
module Status {
  import opened Types

  /** Scores strictly below this are Poor. */
  const PoorLimit: real := 80.0
  /** Scores strictly above this are Good. */
  const GoodStart: real := 100.0

  /** The score interval each band stands for: Poor below 80, Acceptable on
      the closed interval [80, 100], Good above 100. */
  ghost predicate InBand(s: PerformanceStatus, overall: real)
  {
    match s
    case Poor => overall < PoorLimit
    case Acceptable => PoorLimit <= overall <= GoodStart
    case Good => GoodStart < overall
  }

  /** Position of a band in the order Poor < Acceptable < Good. */
  function Rank(s: PerformanceStatus): nat
  {
    match s
    case Poor => 0
    case Acceptable => 1
    case Good => 2
  }

  /** The classifier: both comparisons are strict, so both thresholds
      themselves fall in the Acceptable band. */
  function GetStatus(overall: real): (r: PerformanceStatus)
    ensures InBand(r, overall)
    ensures r == Acceptable <==> PoorLimit <= overall <= GoodStart
  {
    if overall < PoorLimit then Poor
    else if overall > GoodStart then Good
    else Acceptable
  }

  /** The bands partition the reals: a score lies in exactly one band, and
      that band is the one the classifier returns. */
  lemma LemmaStatusIsBand(s: PerformanceStatus, overall: real)
    ensures GetStatus(overall) == s <==> InBand(s, overall)
  {
    match s
    case Poor =>
    case Acceptable =>
    case Good =>
  }

  /** A higher score never gets a lower band. */
  lemma LemmaStatusMonotone(x: real, y: real)
    requires x <= y
    ensures Rank(GetStatus(x)) <= Rank(GetStatus(y))
  {
  }

  /** Boundary and sample values of the classifier. */
  lemma LemmaStatusBoundaries()
    ensures GetStatus(80.0) == Acceptable
    ensures GetStatus(100.0) == Acceptable
    ensures GetStatus(79.40) == Poor
    ensures GetStatus(76.76) == Poor
    ensures GetStatus(41.17) == Poor
    ensures GetStatus(102.37) == Good
    ensures GetStatus(0.0) == Poor
    ensures GetStatus(-5.0) == Poor
  {
  }
}
