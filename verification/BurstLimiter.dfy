/**
 * The per-instance burst cap of the web app's middleware (apps/webapp/middleware.ts): a fixed-window
 * counter per client key, in a map of bounded size that is cleared whole when it is full.
 *
 * `Next` and `Refused` say what one call does; the theorems compare whole runs of calls with the log
 * of the calls themselves.
 */
module BurstLimiter {
  import opened Prelude

  const BURST_WINDOW_MS := 10_000
  const BURST_MAX := 30
  const BURST_MAX_KEYS := 4_096

  datatype Entry = Entry(count: nat, resetAt: int)

  datatype Call = Call(key: string, now: int)

  type Table = map<string, Entry>

  /** The call opens a window of its own: its key is not kept, or its window is over. */
  predicate Opens(m: Table, c: Call) {
    c.key !in m || c.now >= m[c.key].resetAt
  }

  /** The call clears the whole table. */
  predicate Evicts(m: Table, c: Call) {
    Opens(m, c) && |m| >= BURST_MAX_KEYS
  }

  function Next(m: Table, c: Call): Table {
    if Opens(m, c) then (if Evicts(m, c) then map[] else m)[c.key := Entry(1, c.now + BURST_WINDOW_MS)]
    else m[c.key := Entry(m[c.key].count + 1, m[c.key].resetAt)]
  }

  predicate Refused(m: Table, c: Call) {
    !Opens(m, c) && m[c.key].count + 1 > BURST_MAX
  }

  function Run(m: Table, calls: seq<Call>): Table
    decreases calls
  {
    if calls == [] then m else Run(Next(m, calls[0]), calls[1..])
  }

  /** The clock the calls read never runs backwards. */
  predicate Ordered(from: int, calls: seq<Call>)
    decreases calls
  {
    calls == [] || (from <= calls[0].now && Ordered(calls[0].now, calls[1..]))
  }

  /** How many calls `key` made at or after `since`. */
  function Since(log: seq<Call>, key: string, since: int): nat {
    if log == [] then 0
    else
      var c := log[|log| - 1];
      Since(log[..|log| - 1], key, since) + (if c.key == key && c.now >= since then 1 else 0)
  }

  // ---- Soundness ----

  ghost predicate Counted(log: seq<Call>, m: Table) {
    forall k :: k in m ==> m[k].count <= Since(log, k, m[k].resetAt - BURST_WINDOW_MS)
  }

  lemma CountedStep(log: seq<Call>, m: Table, c: Call)
    requires Counted(log, m)
    requires !Opens(m, c) ==> c.now >= m[c.key].resetAt - BURST_WINDOW_MS
    ensures Counted(log + [c], Next(m, c))
  {
    assert (log + [c])[..|log|] == log;
  }

  /** The counter's windows lie in the past of the clock. */
  ghost predicate OpenedBy(m: Table, now: int) {
    forall k :: k in m ==> m[k].resetAt <= now + BURST_WINDOW_MS
  }

  lemma {:induction false} CountedRun(log: seq<Call>, m: Table, from: int, calls: seq<Call>)
    requires Counted(log, m) && OpenedBy(m, from) && Ordered(from, calls)
    ensures Counted(log + calls, Run(m, calls))
    ensures calls != [] ==> OpenedBy(Run(m, calls), calls[|calls| - 1].now)
    decreases calls
  {
    if calls == [] {
      assert log + calls == log;
    } else {
      var c := calls[0];
      CountedStep(log, m, c);
      CountedRun(log + [c], Next(m, c), c.now, calls[1..]);
      assert log + calls == log + [c] + calls[1..];
    }
  }

  lemma {:induction false} OrderedSplit(from: int, calls: seq<Call>, c: Call)
    requires Ordered(from, calls + [c])
    ensures Ordered(from, calls) && from <= c.now
    ensures forall i :: 0 <= i < |calls| ==> calls[i].now <= c.now
    decreases calls
  {
    if calls != [] {
      assert (calls + [c])[0] == calls[0] && (calls + [c])[1..] == calls[1..] + [c];
      OrderedSplit(calls[0].now, calls[1..], c);
    } else {
      assert (calls + [c])[0] == c;
    }
  }

  /**
   * A refusal is earned. Whatever was evicted on the way, a call is answered true only if its own
   * key has made more than BURST_MAX calls, this one included, within less than BURST_WINDOW_MS.
   */
  lemma RefusalIsEarned(calls: seq<Call>, c: Call, from: int)
    requires Ordered(from, calls + [c])
    requires Refused(Run(map[], calls), c)
    ensures Since(calls + [c], c.key, c.now - BURST_WINDOW_MS + 1) > BURST_MAX
    ensures forall i :: 0 <= i < |calls| ==> calls[i].now <= c.now
  {
    var m := Run(map[], calls);
    OrderedSplit(from, calls, c);
    CountedRun([], map[], from, calls);
    assert [] + calls == calls;
    assert calls != [];
    assert (calls + [c])[..|calls|] == calls;
    SinceMonotone(calls, c.key, m[c.key].resetAt - BURST_WINDOW_MS, c.now - BURST_WINDOW_MS + 1);
  }

  lemma {:induction false} SinceMonotone(log: seq<Call>, key: string, later: int, earlier: int)
    requires earlier <= later
    ensures Since(log, key, later) <= Since(log, key, earlier)
  {
    if log != [] { SinceMonotone(log[..|log| - 1], key, later, earlier); }
  }

  /** How many calls `key` made. */
  function CallsOf(log: seq<Call>, key: string): nat {
    if log == [] then 0 else CallsOf(log[..|log| - 1], key) + (if log[|log| - 1].key == key then 1 else 0)
  }

  /** The call at `j` opened the window `e`, which counts every call of its key since; none of them came at its end. */
  ghost predicate OpenedAt(log: seq<Call>, j: nat, key: string, e: Entry) {
    && j < |log| && log[j].key == key && e.resetAt == log[j].now + BURST_WINDOW_MS
    && e.count == CallsOf(log[j..], key)
    && forall i :: j <= i < |log| && log[i].key == key ==> log[i].now < e.resetAt
  }

  ghost predicate AllOpened(log: seq<Call>, m: Table) {
    forall k :: k in m ==> exists j: nat :: OpenedAt(log, j, k, m[k])
  }

  lemma OpenedThen(log: seq<Call>, c: Call, j: nat, key: string, e: Entry)
    requires OpenedAt(log, j, key, e) && (c.key == key ==> c.now < e.resetAt)
    ensures OpenedAt(log + [c], j, key, if c.key == key then e.(count := e.count + 1) else e)
  {
    assert (log + [c])[j..] == log[j..] + [c] && (log[j..] + [c])[..|log[j..]|] == log[j..];
  }

  lemma OpensOne(log: seq<Call>, c: Call)
    ensures OpenedAt(log + [c], |log|, c.key, Entry(1, c.now + BURST_WINDOW_MS))
  {
    assert (log + [c])[|log|..] == [c] && [c][..0] == [];
  }

  lemma AllOpenedStep(log: seq<Call>, m: Table, c: Call)
    requires AllOpened(log, m)
    ensures AllOpened(log + [c], Next(m, c))
  {
    var n := Next(m, c);
    OpensOne(log, c);
    forall k | k in n ensures exists j: nat :: OpenedAt(log + [c], j, k, n[k]) {
      if k != c.key || !Opens(m, c) {
        var j: nat :| OpenedAt(log, j, k, m[k]);
        OpenedThen(log, c, j, k, m[k]);
      }
    }
  }

  lemma {:induction false} AllOpenedRun(log: seq<Call>, m: Table, calls: seq<Call>)
    requires AllOpened(log, m)
    ensures AllOpened(log + calls, Run(m, calls))
    decreases calls
  {
    hide AllOpened, Next;
    if calls == [] {
      assert log + calls == log;
    } else {
      AllOpenedStep(log, m, calls[0]);
      AllOpenedRun(log + [calls[0]], Next(m, calls[0]), calls[1..]);
      assert log + calls == log + [calls[0]] + calls[1..];
    }
  }

  /**
   * A refusal is earned whatever the clock does, and whatever was evicted: from one of its own calls on, the
   * refused key has made more than BURST_MAX, and read the clock at none of them as late as the end
   * of the window the first of them opened.
   */
  lemma RefusalIsOneWindow(calls: seq<Call>, c: Call)
    requires Refused(Run(map[], calls), c)
    ensures exists j: nat ::
              && j < |calls| && calls[j].key == c.key && CallsOf((calls + [c])[j..], c.key) > BURST_MAX
              && forall i :: j <= i < |calls + [c]| && (calls + [c])[i].key == c.key ==>
                   (calls + [c])[i].now < calls[j].now + BURST_WINDOW_MS
  {
    AllOpenedRun([], map[], calls);
    assert [] + calls == calls;
    var m := Run(map[], calls);
    var j: nat :| OpenedAt(calls, j, c.key, m[c.key]);
    OpenedThen(calls, c, j, c.key, m[c.key]);
    assert (calls + [c])[j] == calls[j];
  }

  function Times(c: Call, n: nat): seq<Call> {
    if n == 0 then [] else Times(c, n - 1) + [c]
  }

  lemma {:induction false} RunThen(m: Table, calls: seq<Call>, c: Call)
    ensures Run(m, calls + [c]) == Next(Run(m, calls), c)
    decreases calls
  {
    if calls == [] {
      assert calls + [c] == [c] && [c][1..] == [];
    } else {
      assert (calls + [c])[0] == calls[0] && (calls + [c])[1..] == calls[1..] + [c];
      RunThen(Next(m, calls[0]), calls[1..], c);
    }
  }

  lemma {:induction false} TimesCounts(c: Call, n: nat)
    ensures Run(map[], Times(c, n)) == if n == 0 then map[] else map[c.key := Entry(n, c.now + 10_000)]
  {
    if n > 0 {
      TimesCounts(c, n - 1);
      RunThen(map[], Times(c, n - 1), c);
    }
  }

  /** Thirty calls in ten seconds: of calls made in one instant the thirty-first is the first refused, and none ten seconds on. */
  lemma ThirtyInTenSeconds(c: Call, n: nat, later: Call)
    requires later.key == c.key && later.now == c.now + 10_000
    ensures Refused(Run(map[], Times(c, n)), c) <==> n >= 30
    ensures !Refused(Run(map[], Times(c, n)), later)
  {
    TimesCounts(c, n);
  }

  // ---- Space ----

  lemma {:induction false} TableIsBounded(m: Table, calls: seq<Call>)
    requires |m| <= BURST_MAX_KEYS
    ensures |Run(m, calls)| <= BURST_MAX_KEYS
    decreases calls
  {
    if calls != [] {
      GrowsByOne(m, calls[0]);
      TableIsBounded(Next(m, calls[0]), calls[1..]);
    }
  }

  lemma GrowsByOne(m: Table, c: Call)
    ensures !Evicts(m, c) ==> |Next(m, c)| <= |m| + (if Opens(m, c) then 1 else 0)
    ensures Evicts(m, c) ==> |Next(m, c)| == 1
    ensures !Opens(m, c) || |m| < BURST_MAX_KEYS ==> |Next(m, c)| <= if c.key in m then |m| else |m| + 1
  {
    if Opens(m, c) && !Evicts(m, c) {
      assert Next(m, c).Keys == m.Keys + {c.key};
    } else if !Opens(m, c) {
      assert Next(m, c).Keys == m.Keys;
    } else {
      assert Next(m, c).Keys == {c.key};
    }
  }

  function Openings(m: Table, calls: seq<Call>): nat
    decreases calls
  {
    if calls == [] then 0 else (if Opens(m, calls[0]) then 1 else 0) + Openings(Next(m, calls[0]), calls[1..])
  }

  predicate EvictsNothing(m: Table, calls: seq<Call>)
    decreases calls
  {
    calls == [] || (!Evicts(m, calls[0]) && EvictsNothing(Next(m, calls[0]), calls[1..]))
  }

  lemma {:induction false} OpeningsPayForKeys(m: Table, calls: seq<Call>)
    requires EvictsNothing(m, calls)
    ensures |Run(m, calls)| <= |m| + Openings(m, calls)
    decreases calls
  {
    if calls != [] {
      GrowsByOne(m, calls[0]);
      OpeningsPayForKeys(Next(m, calls[0]), calls[1..]);
    }
  }

  /** Evictions are rare: between one and the next, at least BURST_MAX_KEYS - 1 windows are opened. */
  lemma EvictionsAreApart(m: Table, first: Call, between: seq<Call>, next: Call)
    requires Evicts(m, first) && EvictsNothing(Next(m, first), between)
    requires Evicts(Run(Next(m, first), between), next)
    ensures Openings(Next(m, first), between) >= BURST_MAX_KEYS - 1
  {
    GrowsByOne(m, first);
    OpeningsPayForKeys(Next(m, first), between);
  }

  // ---- The admission bound ----

  predicate Within(c: Call, start: int) {
    start <= c.now < start + BURST_WINDOW_MS
  }

  /** The calls of `key` let through in the span that starts at `start`. */
  function Admitted(m: Table, calls: seq<Call>, key: string, start: int): nat
    decreases calls
  {
    if calls == [] then 0
    else
      (if calls[0].key == key && Within(calls[0], start) && !Refused(m, calls[0]) then 1 else 0)
      + Admitted(Next(m, calls[0]), calls[1..], key, start)
  }

  function Evictions(m: Table, calls: seq<Call>, start: int): nat
    decreases calls
  {
    if calls == [] then 0
    else
      (if Evicts(m, calls[0]) && Within(calls[0], start) then 1 else 0)
      + Evictions(Next(m, calls[0]), calls[1..], start)
  }

  /** What the table still owes `key` in the span: the rest of its window, and one more if that can end. */
  function Allowance(m: Table, key: string, start: int, now: int): nat {
    if now < start then 2 * BURST_MAX - 1
    else if key !in m then BURST_MAX
    else
      Max(0, BURST_MAX - m[key].count)
      + (if m[key].resetAt >= start + BURST_WINDOW_MS then 0 else BURST_MAX)
  }

  ghost predicate Positive(m: Table) {
    forall k :: k in m ==> m[k].count >= 1
  }

  lemma AllowanceStep(m: Table, c: Call, key: string, start: int, from: int)
    requires Positive(m) && from <= c.now < start + BURST_WINDOW_MS
    ensures Positive(Next(m, c))
    ensures (if c.key == key && Within(c, start) && !Refused(m, c) then 1 else 0)
              + Allowance(Next(m, c), key, start, c.now)
              <= Allowance(m, key, start, from) + BURST_MAX * (if Evicts(m, c) && Within(c, start) then 1 else 0)
  {
  }

  lemma {:induction false} AdmittedRun(m: Table, calls: seq<Call>, key: string, start: int, from: int)
    requires Positive(m) && Ordered(from, calls)
    ensures from >= start + BURST_WINDOW_MS ==> Admitted(m, calls, key, start) == 0
    ensures from < start + BURST_WINDOW_MS ==>
              Admitted(m, calls, key, start) <= Allowance(m, key, start, from) + BURST_MAX * Evictions(m, calls, start)
    decreases calls
  {
    if calls != [] {
      var c := calls[0];
      AdmittedRun(Next(m, c), calls[1..], key, start, c.now);
      if c.now < start + BURST_WINDOW_MS { AllowanceStep(m, c, key, start, from); }
    }
  }

  /**
   * The admission bound. On a clock that never runs backwards, of one key's calls in any span of
   * BURST_WINDOW_MS at most BURST_MAX are let through for each of: the window already open, the one
   * that follows it, and one more for every time the table was cleared in the span; and the call
   * that opened the first of these lies outside, so the bound is strict.
   */
  lemma AdmissionBound(calls: seq<Call>, key: string, start: int, from: int)
    requires Ordered(from, calls)
    ensures Admitted(map[], calls, key, start) < BURST_MAX * (2 + Evictions(map[], calls, start))
  {
    AdmittedRun(map[], calls, key, start, from);
  }

  // ---- The table is the simple limiter while its clients fit in it ----

  /** The simple form, one key at a time with no table: the window its calls stand in. */
  function Window(log: seq<Call>, key: string): Option<Entry> {
    if log == [] then None
    else
      var c, before := log[|log| - 1], Window(log[..|log| - 1], key);
      if c.key != key then before
      else if before.None? || c.now >= before.value.resetAt then Some(Entry(1, c.now + BURST_WINDOW_MS))
      else Some(Entry(before.value.count + 1, before.value.resetAt))
  }

  ghost predicate Agrees(log: seq<Call>, m: Table) {
    forall k :: Window(log, k) == if k in m then Some(m[k]) else None
  }

  lemma {:induction false} FewClientsExactRun(log: seq<Call>, m: Table, calls: seq<Call>, clients: set<string>)
    requires Agrees(log, m) && m.Keys <= clients && |clients| < BURST_MAX_KEYS
    requires forall i :: 0 <= i < |calls| ==> calls[i].key in clients
    ensures Agrees(log + calls, Run(m, calls))
    decreases calls
  {
    if calls == [] {
      assert log + calls == log;
    } else {
      var c := calls[0];
      Subset(m.Keys, clients);
      assert (log + [c])[..|log|] == log;
      assert Agrees(log + [c], Next(m, c));
      FewClientsExactRun(log + [c], Next(m, c), calls[1..], clients);
      assert log + calls == log + [c] + calls[1..];
    }
  }

  lemma {:induction false} Subset(a: set<string>, b: set<string>)
    requires a <= b
    ensures |a| <= |b|
    decreases a
  {
    if a != {} {
      var x :| x in a;
      Subset(a - {x}, b - {x});
    }
  }

  /**
   * While fewer than BURST_MAX_KEYS clients call at all, the table is exact: a call is refused if and
   * only if it is past the BURST_MAX calls of its key's own fixed window.
   */
  lemma FewClientsExact(calls: seq<Call>, c: Call, clients: set<string>)
    requires |clients| < BURST_MAX_KEYS && forall i :: 0 <= i < |calls| ==> calls[i].key in clients
    ensures Refused(Run(map[], calls), c) <==>
            var w := Window(calls + [c], c.key); w.Some? && w.value.count > BURST_MAX
  {
    FewClientsExactRun([], map[], calls, clients);
    assert [] + calls == calls;
    var m := Run(map[], calls);
    assert Window(calls, c.key) == if c.key in m then Some(m[c.key]) else None;
    WindowThen(calls, c);
    hide Run, Window;
  }

  lemma WindowThen(log: seq<Call>, c: Call)
    ensures Window(log + [c], c.key)
            == var before := Window(log, c.key);
               if before.None? || c.now >= before.value.resetAt then Some(Entry(1, c.now + BURST_WINDOW_MS))
               else Some(Entry(before.value.count + 1, before.value.resetAt))
  {
    assert (log + [c])[..|log|] == log;
  }

  /** The module's map, and `overBurst` over it. */
  class Limiter {
    var burst: Table

    constructor ()
      ensures burst == map[]
    {
      burst := map[];
    }

    method OverBurst(key: string, now: int) returns (over: bool)
      modifies this
      ensures burst == Next(old(burst), Call(key, now))
      ensures over <==> Refused(old(burst), Call(key, now))
      ensures |old(burst)| <= BURST_MAX_KEYS ==> |burst| <= BURST_MAX_KEYS
    {
      GrowsByOne(burst, Call(key, now));
      if key !in burst || now >= burst[key].resetAt {
        if |burst| >= BURST_MAX_KEYS { burst := map[]; }
        burst := burst[key := Entry(1, now + BURST_WINDOW_MS)];
        return false;
      }
      var seen := burst[key];
      burst := burst[key := seen.(count := seen.count + 1)];
      return seen.count + 1 > BURST_MAX;
    }
  }
}
