/**
 * `PerformanceSaveDecorator`: times each operation on the wrapped save and keeps, per
 * operation name, the total, count, minimum and maximum of the measured durations. The
 * clock is a parameter: each operation is given the duration it took.
 */
module PerformanceSaveDecorator {
  import opened JavaInts
  import opened JavaStrings

  const LONG_MAX: int := 0x7FFF_FFFF_FFFF_FFFF

  /** The four counters of one operation's statistics. */
  datatype Stats = Stats(totalTime: int, count: int, minTime: int, maxTime: int)

  /** A new `OperationStats`: nothing recorded, the minimum at `Long.MAX_VALUE`. */
  const FRESH: Stats := Stats(0, 0, LONG_MAX, 0)

  function Min(a: int, b: int): int { if a <= b then a else b }
  function Max(a: int, b: int): int { if a >= b then a else b }

  /** `record`: the statistics once one more duration is counted. */
  function Recorded(s: Stats, time: int): (r: Stats)
    ensures r.totalTime - s.totalTime == time && r.count == s.count + 1
    ensures r.minTime <= s.minTime && r.minTime <= time && (r.minTime == s.minTime || r.minTime == time)
    ensures r.maxTime >= s.maxTime && r.maxTime >= time && (r.maxTime == s.maxTime || r.maxTime == time)
  {
    Stats(s.totalTime + time, s.count + 1, Min(s.minTime, time), Max(s.maxTime, time))
  }

  /** What holds of statistics built by `record` from fresh: nothing recorded means the fresh
      values; otherwise the minimum is at most the maximum and the total lies between the
      count times each of them. */
  ghost predicate Consistent(s: Stats) {
    s.count >= 0
    && (s.count == 0 ==> s == FRESH)
    && (s.count > 0 ==> s.minTime <= s.maxTime && s.count * s.minTime <= s.totalTime <= s.count * s.maxTime)
  }

  lemma MulMono(c: int, a: int, b: int)
    requires c >= 0 && a <= b
    ensures c * a <= c * b
  {
    assert c * b - c * a == c * (b - a);
    MulNonneg(b - a, c + 1);
    assert c * (b - a) >= 0 by {
      if c > 0 {
        MulNonneg(b - a, c);
      }
    }
  }

  /** One more duration keeps `count * min <= total` once the minimum is lowered to it. */
  lemma LowerStep(c: int, m: int, total: int, t: int, m': int)
    requires c >= 0 && m' <= m && m' <= t && c * m <= total
    ensures (c + 1) * m' <= total + t
  {
    MulMono(c, m', m);
    assert (c + 1) * m' == c * m' + m';
  }

  /** One more duration keeps `total <= count * max` once the maximum is raised to it. */
  lemma UpperStep(c: int, m: int, total: int, t: int, m': int)
    requires c >= 0 && m <= m' && t <= m' && total <= c * m
    ensures total + t <= (c + 1) * m'
  {
    MulMono(c, m, m');
    assert (c + 1) * m' == c * m' + m';
  }

  /** Recording a duration that fits in a `long` keeps the statistics consistent. */
  lemma RecordedConsistent(s: Stats, time: int)
    requires Consistent(s) && IsLong(time)
    ensures Consistent(Recorded(s, time))
  {
    var r := Recorded(s, time);
    if s.count > 0 {
      LowerStep(s.count, s.minTime, s.totalTime, time, r.minTime);
      UpperStep(s.count, s.maxTime, s.totalTime, time, r.maxTime);
    } else {
      assert r.minTime == time && r.count == 1 && r.totalTime == time;
    }
  }

  /** The statistics after recording each of `times` in turn. */
  function RecordAll(s: Stats, times: seq<int>): Stats
    decreases |times|
  {
    if |times| == 0 then s else RecordAll(Recorded(s, times[0]), times[1..])
  }

  function Sum(times: seq<int>): int {
    if |times| == 0 then 0 else times[0] + Sum(times[1..])
  }

  /** Recording durations from fresh counts each once, totals them, and stays consistent. */
  lemma {:induction false} RecordAllFromFresh(s: Stats, times: seq<int>)
    requires Consistent(s)
    decreases |times|
    requires forall i :: 0 <= i < |times| ==> IsLong(times[i])
    ensures var r := RecordAll(s, times);
      Consistent(r) && r.count == s.count + |times| && r.totalTime == s.totalTime + Sum(times)
  {
    if |times| > 0 {
      RecordedConsistent(s, times[0]);
      RecordAllFromFresh(Recorded(s, times[0]), times[1..]);
    }
  }

  /** `getAverageTime`: the total over the count, or zero when nothing was recorded. */
  function AverageTime(s: Stats): real {
    if s.count > 0 then s.totalTime as real / s.count as real else 0.0
  }

  /** The average of consistent statistics lies between the minimum and the maximum. */
  lemma AverageBetween(s: Stats)
    requires Consistent(s) && s.count > 0
    ensures s.minTime as real <= AverageTime(s) <= s.maxTime as real
  {
    var c := s.count as real;
    assert c * (s.minTime as real) <= s.totalTime as real;
    assert s.totalTime as real <= c * (s.maxTime as real);
    assert AverageTime(s) * c == s.totalTime as real;
  }

  /** Recording on top of the entry a lookup stored is recording on the looked-up entry. */
  lemma UpdateTwice(m: map<string, Stats>, k: string, looked: Stats, time: int)
    ensures m[k := looked][k := Recorded(m[k := looked][k], time)] == m[k := Recorded(looked, time)]
  {
  }

  /** Whether `recordOperation` logs a slow-operation warning. */
  predicate IsSlow(logSlowOperations: bool, durationMs: int, thresholdMs: int) {
    logSlowOperations && durationMs > thresholdMs
  }

  function SlowWarning(operationName: string, durationMs: int): string {
    "Slow operation detected: " + operationName + " took " + IntToString(durationMs) + " ms"
  }

  /** One operation's statistics, updated in place by `record`. */
  class OperationStats {
    var totalTime: int
    var count: int
    var minTime: int
    var maxTime: int

    function Value(): Stats
      reads this
    {
      Stats(totalTime, count, minTime, maxTime)
    }

    constructor ()
      ensures Value() == FRESH
    {
      totalTime := 0;
      count := 0;
      minTime := LONG_MAX;
      maxTime := 0;
    }

    method Record(time: int)
      modifies this
      ensures Value() == Recorded(old(Value()), time)
    {
      totalTime := totalTime + time;
      count := count + 1;
      minTime := Min(minTime, time);
      maxTime := Max(maxTime, time);
    }
  }

  /** The operations the decorator times, each under the name it records. */
  datatype Operation =
    | WriteArea(areaX: int, areaZ: int)
    | WriteAreas(size: int)
    | ReadArea(x: int, z: int)
    | WritePlayer(username: string)
    | WritePlayers
    | ReadPlayer(uuid: string)
    | WriteCave(caveX: int, caveZ: int)
    | ReadCave(caveAreaX: int, caveAreaZ: int)
    | WriteSaveOptions

  function Pair(x: int, z: int): string {
    IntToString(x) + "," + IntToString(z)
  }

  function OperationName(op: Operation): string {
    match op
    case WriteArea(x, z) => "writeArea(" + Pair(x, z) + ")"
    case WriteAreas(n) => "writeAreas(" + IntToString(n) + " areas)"
    case ReadArea(x, z) => "readArea(" + Pair(x, z) + ")"
    case WritePlayer(name) => "writePlayer(" + name + ")"
    case WritePlayers => "writePlayers"
    case ReadPlayer(u) => "readPlayer(" + u + ")"
    case WriteCave(x, z) => "writeCave(" + Pair(x, z) + ")"
    case ReadCave(x, z) => "readCave(" + Pair(x, z) + ")"
    case WriteSaveOptions => "writeSaveOptions"
  }

  class PerformanceSave {
    var operationStats: map<string, OperationStats>
    const logSlowOperations: bool
    const slowOperationThresholdMs: int
    /** The warnings logged so far. */
    var warnings: seq<string>
    /** The statistics per operation name, as values. */
    ghost var stats: map<string, Stats>

    /** Each name has its own statistics object, holding the name's statistics, and each
        name's counters are consistent. */
    ghost predicate Valid()
      reads this, operationStats.Values
    {
      operationStats.Keys == stats.Keys
      && (forall n1, n2 :: n1 in operationStats && n2 in operationStats && n1 != n2 ==>
            operationStats[n1] != operationStats[n2])
      && (forall n :: n in operationStats ==> operationStats[n].Value() == stats[n])
      && (forall n :: n in stats ==> Consistent(stats[n]))
    }

    constructor (logSlowOperations: bool, slowOperationThresholdMs: int)
      ensures Valid() && stats == map[] && warnings == []
      ensures this.logSlowOperations == logSlowOperations
      ensures this.slowOperationThresholdMs == slowOperationThresholdMs
    {
      operationStats := map[];
      stats := map[];
      this.logSlowOperations := logSlowOperations;
      this.slowOperationThresholdMs := slowOperationThresholdMs;
      warnings := [];
    }

    /** The constructor without settings logs operations slower than 100 ms. */
    constructor Default()
      ensures Valid() && stats == map[] && warnings == []
      ensures logSlowOperations && slowOperationThresholdMs == 100
    {
      operationStats := map[];
      stats := map[];
      logSlowOperations := true;
      slowOperationThresholdMs := 100;
      warnings := [];
    }

    /** `recordOperation`: the first recording of a name starts from fresh statistics; the
        duration is recorded, and a warning is logged when it is slow. */
    method RecordOperation(operationName: string, durationMs: int)
      requires Valid() && IsLong(durationMs)
      modifies this, operationStats.Values
      ensures Valid()
      ensures stats == old(stats)[operationName :=
        Recorded(if operationName in old(stats) then old(stats)[operationName] else FRESH, durationMs)]
      ensures warnings == old(warnings) +
        (if IsSlow(logSlowOperations, durationMs, slowOperationThresholdMs) then [SlowWarning(operationName, durationMs)] else [])
    {
      ghost var start := stats;
      ghost var looked := if operationName in start then start[operationName] else FRESH;
      var entry := StatsFor(operationName);
      RecordInto(entry, operationName, durationMs);
      UpdateTwice(start, operationName, looked, durationMs);
      LogIfSlow(operationName, durationMs);
    }

    /** The logging step of `recordOperation`: a warning when the duration is slow. */
    method LogIfSlow(operationName: string, durationMs: int)
      requires Valid()
      modifies this
      ensures Valid() && stats == old(stats) && operationStats == old(operationStats)
      ensures warnings == old(warnings) +
        (if IsSlow(logSlowOperations, durationMs, slowOperationThresholdMs) then [SlowWarning(operationName, durationMs)] else [])
    {
      if IsSlow(logSlowOperations, durationMs, slowOperationThresholdMs) {
        warnings := warnings + [SlowWarning(operationName, durationMs)];
      }
    }

    /** The recording step of `recordOperation`, on the name's statistics object. */
    method RecordInto(entry: OperationStats, operationName: string, durationMs: int)
      requires Valid() && IsLong(durationMs)
      requires operationName in operationStats && operationStats[operationName] == entry
      modifies this, entry
      ensures Valid() && warnings == old(warnings) && operationStats == old(operationStats)
      ensures stats == old(stats)[operationName := Recorded(old(stats)[operationName], durationMs)]
    {
      RecordedConsistent(stats[operationName], durationMs);
      entry.Record(durationMs);
      stats := stats[operationName := Recorded(stats[operationName], durationMs)];
    }

    /** The lookup of `recordOperation`: the name's statistics object, created fresh and
        stored on first use. */
    method StatsFor(operationName: string) returns (entry: OperationStats)
      requires Valid()
      modifies this
      ensures Valid() && warnings == old(warnings)
      ensures operationName in operationStats && operationStats[operationName] == entry
      ensures entry in old(operationStats.Values) || fresh(entry)
      ensures forall n :: n in operationStats && n != operationName ==> operationStats[n] != entry
      ensures stats == old(stats)[operationName := if operationName in old(stats) then old(stats)[operationName] else FRESH]
    {
      if operationName in operationStats {
        entry := operationStats[operationName];
      } else {
        entry := new OperationStats();
        operationStats := operationStats[operationName := entry];
        stats := stats[operationName := FRESH];
      }
    }

    /** A timed operation: the wrapped save's result is returned unchanged, and the time it
        took is recorded under the operation's name. */
    method Timed<T>(op: Operation, wrappedResult: T, durationMs: int) returns (r: T)
      requires Valid() && IsLong(durationMs)
      modifies this, operationStats.Values
      ensures Valid() && r == wrappedResult
      ensures stats == old(stats)[OperationName(op) :=
        Recorded(if OperationName(op) in old(stats) then old(stats)[OperationName(op)] else FRESH, durationMs)]
      ensures warnings == old(warnings) +
        (if IsSlow(logSlowOperations, durationMs, slowOperationThresholdMs) then [SlowWarning(OperationName(op), durationMs)] else [])
    {
      r := wrappedResult;
      RecordOperation(OperationName(op), durationMs);
    }

    /** `getPerformanceStats`: for each operation name recorded, that name's counters, from
        which the count, average, minimum and maximum are formatted. */
    method GetPerformanceStats() returns (r: map<string, Stats>)
      requires Valid()
      ensures r == stats
      ensures forall n :: n in r ==> Consistent(r[n])
    {
      r := map[];
      var names := operationStats.Keys;
      while names != {}
        invariant names <= operationStats.Keys
        invariant r.Keys == operationStats.Keys - names
        invariant forall n :: n in r ==> r[n] == stats[n]
        decreases names
      {
        var n :| n in names;
        r := r[n := operationStats[n].Value()];
        names := names - {n};
      }
      assert r.Keys == stats.Keys;
    }

    /** `resetStats`: forgets every operation's statistics. */
    method ResetStats()
      requires Valid()
      modifies this
      ensures Valid() && stats == map[] && warnings == old(warnings)
    {
      operationStats := map[];
      stats := map[];
    }
  }
}
