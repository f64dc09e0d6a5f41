/** src/components/performance/PerformanceMonitor.tsx: the three-band rating of
    a sampled metric. */
module PerformanceMonitor {
  /** The metric types the call sites pass. */
  datatype MetricType = Memory | Render | Network

  /** The rating; Unknown is the switch's default branch. */
  datatype Status = Excellent | Medium | Poor | Unknown

  function TypeName(t: MetricType): string {
    match t
    case Memory => "memory"
    case Render => "render"
    case Network => "network"
  }

  /** The (medium, poor) thresholds of each type: memory in percent of the heap
      limit, render and network latency in milliseconds. */
  function Bands(t: MetricType): (b: (real, real))
    ensures 0.0 < b.0 < b.1
  {
    match t
    case Memory => (60.0, 80.0)
    case Render => (16.0, 33.0)
    case Network => (50.0, 100.0)
  }

  /** getPerformanceStatus, on the type's name as the switch sees it. */
  function GetPerformanceStatus(value: real, kind: string): (s: Status)
    ensures kind == "memory" ==> (s == Excellent <==> value < 60.0) && (s == Medium <==> 60.0 <= value < 80.0) && (s == Poor <==> value >= 80.0)
    ensures kind == "render" ==> (s == Excellent <==> value < 16.0) && (s == Medium <==> 16.0 <= value < 33.0) && (s == Poor <==> value >= 33.0)
    ensures kind == "network" ==> (s == Excellent <==> value < 50.0) && (s == Medium <==> 50.0 <= value < 100.0) && (s == Poor <==> value >= 100.0)
    ensures kind !in {"memory", "render", "network"} <==> s == Unknown
  {
    if kind == "memory" then
      if value < 60.0 then Excellent else if value < 80.0 then Medium else Poor
    else if kind == "render" then
      if value < 16.0 then Excellent else if value < 33.0 then Medium else Poor
    else if kind == "network" then
      if value < 50.0 then Excellent else if value < 100.0 then Medium else Poor
    else Unknown
  }

  /** Excellent is best; Unknown ranks with nothing. */
  function Rank(s: Status): nat {
    match s
    case Excellent => 0
    case Medium => 1
    case Poor => 2
    case Unknown => 3
  }

  /** For a declared type the default branch is never taken, and the rating is
      the type's two thresholds applied in order. */
  lemma DeclaredTypesRated(value: real, t: MetricType)
    ensures GetPerformanceStatus(value, TypeName(t)) != Unknown
    ensures GetPerformanceStatus(value, TypeName(t))
      == if value < Bands(t).0 then Excellent else if value < Bands(t).1 then Medium else Poor
  {
  }

  /** A larger value never gets a better rating. */
  lemma StatusMonotone(v1: real, v2: real, t: MetricType)
    requires v1 <= v2
    ensures Rank(GetPerformanceStatus(v1, TypeName(t))) <= Rank(GetPerformanceStatus(v2, TypeName(t)))
  {
    DeclaredTypesRated(v1, t);
    DeclaredTypesRated(v2, t);
  }
}
