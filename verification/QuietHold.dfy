/**
 * The quiet hold of the hosted API (apps/api-vercel/src/quiet-hold.ts): how long an instance stays
 * awake after its last answer, and which invocation pays for it.
 *
 * Every invocation hands the platform one hold. A hold that has ended lingers on a timer, and the
 * next one to end takes the single `lingering` slot and releases its predecessor. The model is a
 * state machine over every interleaving of beginnings, ends, late timers, connection uses and time;
 * the class `Instance` is the module's own code, proved against it.
 */
module QuietHold {
  import opened Prelude

  const POOLED_IDLE_TIMEOUT_S := 1
  const API_MAX_DURATION_MS := 60_000
  const EVENTS_MAX_DURATION_S := 300
  const QUIET_HOLD_MS := POOLED_IDLE_TIMEOUT_S * 1000 + 250
  const HOLD_MARGIN_MS := 5_000

  /** One promise handed to `waitUntil`: its ceiling, when it ended, its armed timer, its release. */
  datatype Hold = Hold(deadline: int, endedAt: Option<int>, timer: Option<int>, releasedAt: Option<int>) {

    /** The instant the hold's timer is set for, once it has ended. */
    function Due(): int
      requires endedAt.Some?
    {
      endedAt.value + Max(0, Min(QUIET_HOLD_MS, deadline - endedAt.value))
    }

    /** The end came with less than a whole quiet hold left before the invocation's ceiling. */
    predicate Cut()
      requires endedAt.Some?
    {
      deadline - endedAt.value < QUIET_HOLD_MS
    }
  }

  /** The last use of a pooled connection: by which hold's invocation, and when. */
  datatype LastUse = LastUse(user: nat, at: int)

  datatype State = State(now: int, holds: seq<Hold>, lingering: Option<nat>, pool: map<nat, LastUse>)

  datatype Event =
    | Begin(path: Option<string>)  // withQuietHold; None for a URL that does not parse
    | HandOff(from: Option<nat>)   // handOff, inside the invocation of hold `from` or outside any
    | Use(user: nat, connection: nat)
    | End(hold: nat)
    | Fire(hold: nat)
    | Tick(ms: nat)

  function DeadlineFor(path: Option<string>, now: int): int {
    now + (if path == Some("/events") then EVENTS_MAX_DURATION_S * 1000 else API_MAX_DURATION_MS) - HOLD_MARGIN_MS
  }

  function Released(h: Hold, now: int): Hold {
    h.(releasedAt := if h.releasedAt.Some? then h.releasedAt else Some(now))
  }

  /** The slot's releaser: clear the timer it names, then resolve the promise. */
  function LetGo(s: State): State {
    match s.lingering
    case None => s
    case Some(j) =>
      if j < |s.holds| then s.(holds := s.holds[j := Released(s.holds[j].(timer := None), s.now)]) else s
  }

  function Linger(s: State, i: nat): State
    requires i < |s.holds|
  {
    var s' := LetGo(s);
    var h := s'.holds[i].(endedAt := Some(s.now));
    s'.(holds := s'.holds[i := h.(timer := Some(h.Due()))], lingering := Some(i))
  }

  function Opened(s: State, deadline: int): State {
    s.(holds := s.holds + [Hold(deadline, None, None, None)])
  }

  function Step(s: State, e: Event): State {
    match e
    case Begin(path) => Opened(s, DeadlineFor(path, s.now))
    case HandOff(from) =>
      Opened(s, if from.Some? && from.value < |s.holds| then s.holds[from.value].deadline
                else s.now + API_MAX_DURATION_MS - HOLD_MARGIN_MS)
    case Use(i, c) =>
      if i < |s.holds| && s.holds[i].endedAt.None? then s.(pool := s.pool[c := LastUse(i, s.now)]) else s
    case End(i) => if i < |s.holds| && s.holds[i].endedAt.None? then Linger(s, i) else s
    case Fire(i) =>
      if i < |s.holds| && s.holds[i].timer.Some? && s.holds[i].timer.value <= s.now
      then s.(holds := s.holds[i := Released(s.holds[i].(timer := None), s.now)])
      else s
    case Tick(ms) => s.(now := s.now + ms)
  }

  function Start(now: int): State {
    State(now, [], None, map[])
  }

  function Run(s: State, es: seq<Event>): State
    decreases es
  {
    if es == [] then s else Run(Step(s, es[0]), es[1..])
  }

  predicate Ended(s: State, i: nat) {
    i < |s.holds| && s.holds[i].endedAt.Some?
  }

  /** The platform is still asked to keep the instance awake for hold `i`. */
  predicate Outstanding(s: State, i: nat) {
    i < |s.holds| && s.holds[i].releasedAt.None?
  }

  predicate Quiet(s: State) {
    forall i :: 0 <= i < |s.holds| ==> !Outstanding(s, i)
  }

  ghost predicate HoldInv(s: State, i: nat)
    requires i < |s.holds|
  {
    var h := s.holds[i];
    && (h.releasedAt.Some? ==> h.endedAt.Some? && h.endedAt.value <= h.releasedAt.value <= s.now)
    && (h.timer.Some? ==> h.endedAt.Some? && h.timer.value == h.Due() && h.releasedAt.None?)
    && (h.endedAt.Some? ==>
          && h.endedAt.value <= s.now
          && s.lingering.Some? && Ended(s, s.lingering.value)
          && h.endedAt.value <= s.holds[s.lingering.value].endedAt.value
          && (h.releasedAt.None? ==> s.lingering == Some(i) && h.timer.Some?)
          && (s.lingering == Some(i) && h.releasedAt.Some? ==> h.Due() <= h.releasedAt.value))
  }

  ghost predicate UseInv(s: State, u: LastUse) {
    && u.user < |s.holds| && u.at <= s.now
    && (Ended(s, u.user) ==> u.at <= s.holds[u.user].endedAt.value)
  }

  ghost predicate Inv(s: State) {
    && (s.lingering.Some? ==> Ended(s, s.lingering.value))
    && (forall i :: 0 <= i < |s.holds| ==> HoldInv(s, i))
    && (forall c :: c in s.pool ==> UseInv(s, s.pool[c]))
  }

  lemma LingerKeepsInv(s: State, i: nat)
    requires Inv(s) && i < |s.holds| && s.holds[i].endedAt.None?
    ensures Inv(Linger(s, i))
  {
    var m, t := LetGo(s), Linger(s, i);
    assert HoldInv(s, i) && m.holds[i] == s.holds[i];
    assert t.holds[i].endedAt == Some(s.now) && Ended(t, i);
    forall k: nat | k < |t.holds| ensures HoldInv(t, k) {
      assert HoldInv(s, k);
      if k != i { assert t.holds[k] == m.holds[k]; }
    }
    forall c | c in t.pool ensures UseInv(t, t.pool[c]) {
      var u := s.pool[c];
      assert UseInv(s, u);
      if u.user != i { assert t.holds[u.user].endedAt == s.holds[u.user].endedAt; }
    }
  }

  lemma FireKeepsInv(s: State, i: nat)
    requires Inv(s)
    ensures Inv(Step(s, Fire(i)))
  {
    var t := Step(s, Fire(i));
    forall k: nat | k < |t.holds| ensures HoldInv(t, k) {
      assert HoldInv(s, k);
    }
    forall c | c in t.pool ensures UseInv(t, t.pool[c]) {
      assert UseInv(s, s.pool[c]);
    }
  }

  lemma StepKeepsInv(s: State, e: Event)
    requires Inv(s)
    ensures Inv(Step(s, e))
  {
    var t := Step(s, e);
    match e
    case End(i) => if i < |s.holds| && s.holds[i].endedAt.None? { LingerKeepsInv(s, i); }
    case Fire(i) => FireKeepsInv(s, i);
    case _ =>
      forall k: nat | k < |t.holds| ensures HoldInv(t, k) {
        if k < |s.holds| { assert HoldInv(s, k); }
      }
      forall c | c in t.pool ensures UseInv(t, t.pool[c]) {
        if c in s.pool { assert UseInv(s, s.pool[c]); }
      }
  }

  lemma {:induction false} RunKeepsInv(s: State, es: seq<Event>)
    requires Inv(s)
    ensures Inv(Run(s, es))
    decreases es
  {
    if es != [] {
      StepKeepsInv(s, es[0]);
      RunKeepsInv(Step(s, es[0]), es[1..]);
    }
  }

  /** One lingerer: of the holds that have ended, only the one in the slot can still be outstanding. */
  lemma OneLingerer(now: int, es: seq<Event>, i: nat)
    requires var s := Run(Start(now), es); Ended(s, i) && Outstanding(s, i)
    ensures var s := Run(Start(now), es); s.lingering == Some(i) && s.holds[i].timer == Some(s.holds[i].Due())
  {
    RunKeepsInv(Start(now), es);
    assert HoldInv(Run(Start(now), es), i);
  }

  /** Once its timer has fired, running the slot's releaser again changes nothing. */
  lemma FiredReleaserIsInert(now: int, es: seq<Event>, i: nat)
    requires var s := Run(Start(now), es); s.lingering == Some(i) && !Outstanding(s, i)
    ensures var s := Run(Start(now), es); LetGo(s) == s
  {
    var s := Run(Start(now), es);
    RunKeepsInv(Start(now), es);
    assert HoldInv(s, i);
    assert s.holds[i := s.holds[i]] == s.holds;
  }

  /**
   * Coverage. In every run, whenever nothing holds the instance awake, the hold that ended last
   * ended after every use of every pooled connection, and either a whole quiet hold has passed since
   * that end (so the pool has closed every connection) or that hold was cut by its own ceiling.
   */
  lemma Coverage(now: int, es: seq<Event>)
    requires var s := Run(Start(now), es); Quiet(s) && s.holds != []
    ensures var s := Run(Start(now), es);
            && s.lingering.Some? && Ended(s, s.lingering.value)
            && var last := s.holds[s.lingering.value];
            && (forall i: nat :: Ended(s, i) ==> s.holds[i].endedAt.value <= last.endedAt.value)
            && (forall c :: c in s.pool ==> s.pool[c].at <= last.endedAt.value)
            && (!last.Cut() ==> forall c :: c in s.pool ==>
                  s.now - s.pool[c].at >= QUIET_HOLD_MS > POOLED_IDLE_TIMEOUT_S * 1000)
  {
    var s := Run(Start(now), es);
    RunKeepsInv(Start(now), es);
    assert !Outstanding(s, 0) && HoldInv(s, 0);
    var j := s.lingering.value;
    assert !Outstanding(s, j) && HoldInv(s, j);
    forall i: nat | Ended(s, i) ensures s.holds[i].endedAt.value <= s.holds[j].endedAt.value {
      assert HoldInv(s, i);
    }
    forall c | c in s.pool ensures s.pool[c].at <= s.holds[j].endedAt.value {
      var u := s.pool[c];
      assert UseInv(s, u) && !Outstanding(s, u.user) && HoldInv(s, u.user);
    }
  }

  /** No timer is overslept: time never passes an armed timer before it has fired. */
  predicate OnTimeStep(s: State, e: Event) {
    e.Tick? ==> forall i :: 0 <= i < |s.holds| && s.holds[i].timer.Some? ==> s.now + e.ms <= s.holds[i].timer.value
  }

  predicate Punctual(s: State, es: seq<Event>)
    decreases es
  {
    es == [] || (OnTimeStep(s, es[0]) && Punctual(Step(s, es[0]), es[1..]))
  }

  ghost predicate HoldOnTime(s: State, i: nat)
    requires Ended(s, i)
  {
    var h := s.holds[i];
    if h.releasedAt.Some? then h.releasedAt.value <= h.Due() else s.now <= h.Due()
  }

  ghost predicate OnTime(s: State) {
    forall i: nat :: Ended(s, i) ==> HoldOnTime(s, i)
  }

  lemma StepOnTime(s: State, e: Event)
    requires Inv(s) && OnTime(s) && OnTimeStep(s, e)
    ensures OnTime(Step(s, e))
  {
    var t := Step(s, e);
    forall i: nat | Ended(t, i) ensures HoldOnTime(t, i) {
      if i < |s.holds| { assert HoldInv(s, i); }
      if Ended(s, i) { assert HoldOnTime(s, i); }
    }
  }

  lemma {:induction false} PunctualIsOnTime(s: State, es: seq<Event>)
    requires Inv(s) && OnTime(s) && Punctual(s, es)
    ensures OnTime(Run(s, es))
    decreases es
  {
    if es != [] {
      StepKeepsInv(s, es[0]);
      StepOnTime(s, es[0]);
      PunctualIsOnTime(Step(s, es[0]), es[1..]);
    }
  }

  /**
   * Every ended hold is released by `min(end + QUIET_HOLD_MS, max(end, deadline))`: no invocation is
   * billed past its own ceiling for the sake of the hold.
   */
  lemma ReleasedInTime(now: int, es: seq<Event>, i: nat)
    requires Punctual(Start(now), es) && Ended(Run(Start(now), es), i)
    ensures var s := Run(Start(now), es);
            var h := s.holds[i];
            var latest := Min(h.endedAt.value + QUIET_HOLD_MS, Max(h.endedAt.value, h.deadline));
            if h.releasedAt.Some? then h.releasedAt.value <= latest else s.now <= latest
  {
    PunctualIsOnTime(Start(now), es);
    assert HoldOnTime(Run(Start(now), es), i);
  }

  /**
   * Exactly when the quiet is long enough. Released on time, the hold that ended last kept the
   * instance awake for a whole quiet hold after its end if and only if its ceiling was at least that
   * far away when it ended.
   */
  lemma WholeQuietIffCeilingFar(now: int, es: seq<Event>)
    requires Punctual(Start(now), es)
    requires var s := Run(Start(now), es); Quiet(s) && s.holds != []
    ensures var s := Run(Start(now), es);
            && s.lingering.Some? && Ended(s, s.lingering.value)
            && var last := s.holds[s.lingering.value];
            && last.releasedAt.Some?
            && (last.releasedAt.value - last.endedAt.value >= QUIET_HOLD_MS <==> !last.Cut())
  {
    var s := Run(Start(now), es);
    Coverage(now, es);
    RunKeepsInv(Start(now), es);
    PunctualIsOnTime(Start(now), es);
    var j := s.lingering.value;
    assert !Outstanding(s, j) && HoldInv(s, j) && HoldOnTime(s, j);
  }

  lemma {:induction false} RunAppend(s: State, es: seq<Event>, fs: seq<Event>)
    ensures Run(s, es + fs) == Run(Run(s, es), fs)
    ensures Punctual(s, es + fs) <==> Punctual(s, es) && Punctual(Run(s, es), fs)
    decreases es
  {
    if es == [] {
      assert es + fs == fs;
    } else {
      assert (es + fs)[0] == es[0] && (es + fs)[1..] == es[1..] + fs;
      RunAppend(Step(s, es[0]), es[1..], fs);
    }
  }

  lemma RunOne(s: State, e: Event)
    ensures Run(s, [e]) == Step(s, e)
    ensures Punctual(s, [e]) <==> OnTimeStep(s, e)
  {
    assert [e][1..] == [];
  }

  lemma RunTwo(s: State, e: Event, f: Event)
    ensures Run(s, [e, f]) == Step(Step(s, e), f)
    ensures Punctual(s, [e, f]) <==> OnTimeStep(s, e) && OnTimeStep(Step(s, e), f)
  {
    assert [e, f] == [e] + [f];
    RunAppend(s, [e], [f]);
    RunOne(s, e);
    RunOne(Step(s, e), f);
  }

  /**
   * The cut is not hypothetical, and it can shorten a hold whose own ceiling is minutes away: the
   * slot goes to the hold that ENDS last, not to the one that may stay longest. A stream's hold ends
   * with 240 seconds to spare; an older request ends 100 ms later with 100 ms left; the instance is
   * released 200 ms after the stream last used its connection, which is still open.
   */
  lemma LaterEndCutsALongerHold() returns (es: seq<Event>)
    ensures var s := Run(Start(0), es);
            && Punctual(Start(0), es) && Quiet(s) && |s.holds| == 2
            && Ended(s, 0) && !s.holds[0].Cut()
            && 7 in s.pool && s.now - s.pool[7].at < POOLED_IDLE_TIMEOUT_S * 1000
  {
    hide Run, Punctual;
    var a, b := Hold(295_000, None, None, None), Hold(55_000, None, None, None);
    var begin := [Begin(Some("/events")), Begin(Some("/sync"))];
    var stream := [Tick(54_800), Use(0, 7)];
    var ends := [End(0), Tick(100)];
    var cut := [End(1), Tick(100)];
    var pool := map[7 := LastUse(0, 54_800)];
    var s2 := State(0, [a, b], None, map[]);
    var s4 := State(54_800, [a, b], None, pool);
    var s6 := State(54_900, [a.(endedAt := Some(54_800), timer := Some(56_050)), b], Some(0), pool);
    var a' := a.(endedAt := Some(54_800), releasedAt := Some(54_900));
    var s8 := State(55_000, [a', b.(endedAt := Some(54_900), timer := Some(55_000))], Some(1), pool);
    var s9 := State(55_000, [a', b.(endedAt := Some(54_900), releasedAt := Some(55_000))], Some(1), pool);
    es := begin + (stream + (ends + (cut + [Fire(1)])));
    assert Run(Start(0), begin) == s2 && Punctual(Start(0), begin) by { RunTwo(Start(0), begin[0], begin[1]); }
    assert Run(s2, stream) == s4 && Punctual(s2, stream) by { RunTwo(s2, stream[0], stream[1]); }
    assert Run(s4, ends) == s6 && Punctual(s4, ends) by { RunTwo(s4, ends[0], ends[1]); }
    assert Run(s6, cut) == s8 && Punctual(s6, cut) by { RunTwo(s6, cut[0], cut[1]); }
    assert Run(s8, [Fire(1)]) == s9 && Punctual(s8, [Fire(1)]) by { RunOne(s8, Fire(1)); }
    assert Run(s6, cut + [Fire(1)]) == s9 && Punctual(s6, cut + [Fire(1)]) by { RunAppend(s6, cut, [Fire(1)]); }
    var rest := ends + (cut + [Fire(1)]);
    assert Run(s4, rest) == s9 && Punctual(s4, rest) by { RunAppend(s4, ends, cut + [Fire(1)]); }
    assert Run(s2, stream + rest) == s9 && Punctual(s2, stream + rest) by { RunAppend(s2, stream, rest); }
    assert Run(Start(0), es) == s9 && Punctual(Start(0), es) by { RunAppend(Start(0), begin, stream + rest); }
  }

  // ---- What the state says of the events ----

  /** The clock after the first `k` events. */
  function TimeAt(now: int, es: seq<Event>, k: nat): int
    requires k <= |es|
  {
    if k == 0 then now else TimeAt(now, es, k - 1) + (if es[k - 1].Tick? then es[k - 1].ms else 0)
  }

  /** How many holds the first `k` events opened. */
  function Openings(es: seq<Event>, k: nat): nat
    requires k <= |es|
  {
    if k == 0 then 0 else Openings(es, k - 1) + (if es[k - 1].Begin? || es[k - 1].HandOff? then 1 else 0)
  }

  /** Event `k` opened hold `i`. */
  predicate Opens(es: seq<Event>, k: nat, i: nat) {
    k < |es| && (es[k].Begin? || es[k].HandOff?) && Openings(es, k) == i
  }

  /** Hold `i` was opened at `k`, in the invocation that the event at `root` began. */
  ghost predicate BegunAt(es: seq<Event>, i: nat, k: nat, root: nat)
    decreases i
  {
    && Opens(es, k, i)
    && if es[k].HandOff? && es[k].from.Some? && es[k].from.value < i
       then exists j: nat :: BegunAt(es, es[k].from.value, j, root)
       else root == k
  }

  /** When an invocation that began with `e` at `at` has to be over, with five seconds to spare. */
  function CeilingOf(e: Event, at: int): int {
    at + (if e == Begin(Some("/events")) then 295_000 else 55_000)
  }

  /** The first `k` events of a longer run. */
  lemma {:induction false} Prefix(now: int, es: seq<Event>, e: Event, k: nat)
    requires k <= |es|
    ensures TimeAt(now, es + [e], k) == TimeAt(now, es, k) && Openings(es + [e], k) == Openings(es, k)
    decreases k
  {
    if k > 0 { Prefix(now, es, e, k - 1); }
  }

  lemma {:induction false} BegunStays(es: seq<Event>, e: Event, i: nat, k: nat, root: nat)
    requires BegunAt(es, i, k, root)
    ensures BegunAt(es + [e], i, k, root)
    decreases i
  {
    Prefix(0, es, e, k);
    if es[k].HandOff? && es[k].from.Some? && es[k].from.value < i {
      var j: nat :| BegunAt(es, es[k].from.value, j, root);
      BegunStays(es, e, es[k].from.value, j, root);
    }
  }

  lemma RunThen(s: State, es: seq<Event>, e: Event)
    ensures Run(s, es + [e]) == Step(Run(s, es), e)
  {
    RunAppend(s, es, [e]);
    RunOne(Run(s, es), e);
  }

  /** Hold `i` belongs to the invocation that the event at `root` began, and ends inside it. */
  ghost predicate Rooted(now: int, es: seq<Event>, s: State, i: nat, k: nat, root: nat)
    requires i < |s.holds|
  {
    BegunAt(es, i, k, root) && root < |es| && s.holds[i].deadline == CeilingOf(es[root], TimeAt(now, es, root))
  }

  ghost predicate HasRoot(now: int, es: seq<Event>, s: State, i: nat)
    requires i < |s.holds|
  {
    exists k: nat, root: nat :: Rooted(now, es, s, i, k, root)
  }

  ghost predicate Traced(now: int, es: seq<Event>, s: State) {
    && s.now == TimeAt(now, es, |es|) && |s.holds| == Openings(es, |es|)
    && forall i: nat :: i < |s.holds| ==> HasRoot(now, es, s, i)
  }

  lemma StepKeepsShape(s: State, e: Event)
    ensures var t := Step(s, e);
            && t.now == s.now + (if e.Tick? then e.ms else 0)
            && |t.holds| == |s.holds| + (if e.Begin? || e.HandOff? then 1 else 0)
            && forall i :: 0 <= i < |s.holds| ==> t.holds[i].deadline == s.holds[i].deadline
  {
  }

  lemma StepTraces(now: int, es: seq<Event>, s: State, e: Event)
    requires Traced(now, es, s)
    ensures Traced(now, es + [e], Step(s, e))
  {
    var fs, t, n := es + [e], Step(s, e), |es|;
    StepKeepsShape(s, e);
    Prefix(now, es, e, n);
    forall i: nat | i < |t.holds| ensures HasRoot(now, fs, t, i) {
      if i < |s.holds| {
        assert HasRoot(now, es, s, i);
        var k: nat, root: nat :| Rooted(now, es, s, i, k, root);
        hide Step;
        BegunStays(es, e, i, k, root);
        Prefix(now, es, e, root);
        assert Rooted(now, fs, t, i, k, root);
      } else if e.HandOff? && e.from.Some? && e.from.value < i {
        assert HasRoot(now, es, s, e.from.value);
        var k: nat, root: nat :| Rooted(now, es, s, e.from.value, k, root);
        BegunStays(es, e, e.from.value, k, root);
        Prefix(now, es, e, root);
        assert Rooted(now, fs, t, i, n, root);
      } else {
        assert Opens(fs, n, i) && BegunAt(fs, i, n, n);
        assert Rooted(now, fs, t, i, n, n);
      }
    }
  }

  lemma {:induction false} RunTraces(now: int, es: seq<Event>)
    ensures Traced(now, es, Run(Start(now), es))
    decreases |es|
  {
    if es != [] {
      var n := |es| - 1;
      assert es == es[..n] + [es[n]];
      RunTraces(now, es[..n]);
      RunThen(Start(now), es[..n], es[n]);
      hide Run, Step, Traced;
      StepTraces(now, es[..n], Run(Start(now), es[..n]), es[n]);
    }
  }

  lemma {:induction false} BegunOnce(es: seq<Event>, i: nat, k: nat, root: nat, k2: nat, root2: nat)
    requires BegunAt(es, i, k, root) && BegunAt(es, i, k2, root2)
    ensures k == k2 && root == root2
    decreases i
  {
    OpensOnce(es, i, k, k2);
    if es[k].HandOff? && es[k].from.Some? && es[k].from.value < i {
      var j: nat :| BegunAt(es, es[k].from.value, j, root);
      var j2: nat :| BegunAt(es, es[k].from.value, j2, root2);
      BegunOnce(es, es[k].from.value, j, root, j2, root2);
    }
  }

  lemma OpensOnce(es: seq<Event>, i: nat, k: nat, k2: nat)
    requires Opens(es, k, i) && Opens(es, k2, i)
    ensures k == k2
  {
    if k < k2 { OpeningsGrow(es, k + 1, k2); }
    if k2 < k { OpeningsGrow(es, k2 + 1, k); }
  }

  lemma {:induction false} OpeningsGrow(es: seq<Event>, k: nat, k2: nat)
    requires k <= k2 <= |es|
    ensures Openings(es, k) <= Openings(es, k2)
    decreases k2
  {
    if k < k2 { OpeningsGrow(es, k, k2 - 1); }
  }

  /**
   * Whose ceiling a hold has. Every hold goes back, through the hand-offs that led to it, to one event that
   * began its invocation, a request or work handed off outside any; and it is released by the later of
   * its end and that event's instant plus 295 seconds for `/events`, 55 for anything else.
   */
  lemma HeldWithinItsInvocation(now: int, es: seq<Event>, i: nat)
    requires Punctual(Start(now), es) && i < |Run(Start(now), es).holds|
    ensures exists k: nat, root: nat :: BegunAt(es, i, k, root)
    ensures forall k: nat, root: nat :: BegunAt(es, i, k, root) ==>
              && root < |es|
              && var s := Run(Start(now), es);
                 var h := s.holds[i];
                 h.endedAt.Some? ==>
                   var latest := Max(h.endedAt.value, CeilingOf(es[root], TimeAt(now, es, root)));
                   if h.releasedAt.Some? then h.releasedAt.value <= latest else s.now <= latest
  {
    RunTraces(now, es);
    var s := Run(Start(now), es);
    assert HasRoot(now, es, s, i);
    var k: nat, root: nat :| Rooted(now, es, s, i, k, root);
    forall k2: nat, root2: nat | BegunAt(es, i, k2, root2) ensures root2 == root {
      BegunOnce(es, i, k, root, k2, root2);
    }
    if Ended(s, i) { ReleasedInTime(now, es, i); }
  }

  /** When hold `i` ended, by the events: the first `End` of it after it was opened. */
  ghost predicate EndedBy(now: int, es: seq<Event>, i: nat, at: int) {
    exists k: nat ::
      && k < |es| && es[k] == End(i) && i < Openings(es, k) && at == TimeAt(now, es, k)
      && forall j: nat :: j < k && es[j] == End(i) ==> i >= Openings(es, j)
  }

  ghost predicate EndsTold(now: int, es: seq<Event>, s: State) {
    forall i: nat :: i < |s.holds| ==>
      if s.holds[i].endedAt.Some? then EndedBy(now, es, i, s.holds[i].endedAt.value)
      else forall k: nat :: k < |es| && es[k] == End(i) ==> i >= Openings(es, k)
  }

  lemma EndedByThen(now: int, es: seq<Event>, e: Event, i: nat, at: int)
    requires EndedBy(now, es, i, at)
    ensures EndedBy(now, es + [e], i, at)
  {
    var k: nat :| && k < |es| && es[k] == End(i) && i < Openings(es, k) && at == TimeAt(now, es, k)
                  && forall j: nat :: j < k && es[j] == End(i) ==> i >= Openings(es, j);
    Prefix(now, es, e, k);
    forall j: nat | j < k && (es + [e])[j] == End(i) ensures i >= Openings(es + [e], j) { Prefix(now, es, e, j); }
    assert (es + [e])[k] == End(i);
  }

  /** What a step does to the ends: `End` gives one that had none the instant it comes, and nothing else does. */
  lemma EndsThen(s: State, e: Event, i: nat)
    requires i < |Step(s, e).holds|
    ensures Step(s, e).holds[i].endedAt
            == if i >= |s.holds| then None
               else if e == End(i) && s.holds[i].endedAt.None? then Some(s.now)
               else s.holds[i].endedAt
  {
  }

  lemma StepTellsEnds(now: int, es: seq<Event>, s: State, e: Event)
    requires Traced(now, es, s) && EndsTold(now, es, s)
    ensures EndsTold(now, es + [e], Step(s, e))
  {
    var fs, t, n := es + [e], Step(s, e), |es|;
    StepKeepsShape(s, e);
    Prefix(now, es, e, n);
    forall j: nat | j < n ensures Openings(fs, j) == Openings(es, j) && fs[j] == es[j] { Prefix(now, es, e, j); }
    forall i: nat | i < |t.holds|
      ensures if t.holds[i].endedAt.Some? then EndedBy(now, fs, i, t.holds[i].endedAt.value)
              else forall k: nat :: k < |fs| && fs[k] == End(i) ==> i >= Openings(fs, k)
    {
      EndsThen(s, e, i);
      hide Step, Traced;
      if i < |s.holds| {
        if s.holds[i].endedAt.Some? {
          EndedByThen(now, es, e, i, s.holds[i].endedAt.value);
        } else if e == End(i) {
          assert fs[n] == End(i) && i < Openings(fs, n);
        }
      } else {
        forall k: nat | k < |fs| ensures i >= Openings(fs, k) { OpeningsGrow(fs, k, n); }
      }
    }
  }

  lemma {:induction false} RunTellsEnds(now: int, es: seq<Event>)
    ensures EndsTold(now, es, Run(Start(now), es))
    decreases |es|
  {
    if es != [] {
      var n := |es| - 1;
      assert es == es[..n] + [es[n]];
      RunTellsEnds(now, es[..n]);
      RunTraces(now, es[..n]);
      RunThen(Start(now), es[..n], es[n]);
      hide Run, Step, Traced, EndsTold;
      StepTellsEnds(now, es[..n], Run(Start(now), es[..n]), es[n]);
    }
  }

  /** A use of a pooled connection, by an invocation whose hold was open and had not ended. */
  ghost predicate UsedAt(es: seq<Event>, k: nat, user: nat, c: nat) {
    && k < |es| && es[k] == Use(user, c) && user < Openings(es, k)
    && forall j: nat :: j < k && es[j] == End(user) ==> user >= Openings(es, j)
  }

  ghost predicate UsesSeen(now: int, es: seq<Event>, s: State) {
    forall k: nat, user: nat, c: nat :: UsedAt(es, k, user, c) ==> c in s.pool && TimeAt(now, es, k) <= s.pool[c].at <= s.now
  }

  lemma PoolThen(s: State, e: Event, c: nat)
    ensures c in s.pool ==> c in Step(s, e).pool && (Step(s, e).pool[c] == s.pool[c] || Step(s, e).pool[c].at == s.now)
    ensures e.Use? && e.connection == c && e.user < |s.holds| && s.holds[e.user].endedAt.None? ==>
              c in Step(s, e).pool && Step(s, e).pool[c].at == s.now
  {
  }

  lemma NotEndedYet(now: int, es: seq<Event>, s: State, i: nat)
    requires EndsTold(now, es, s) && i < |s.holds|
    requires forall j: nat :: j < |es| && es[j] == End(i) ==> i >= Openings(es, j)
    ensures s.holds[i].endedAt.None?
  {
  }

  /** A use in the longer run was one before, or is the event itself, by a hold that has not ended. */
  lemma UsedThen(now: int, es: seq<Event>, s: State, e: Event, k: nat, user: nat, c: nat)
    requires Traced(now, es, s) && EndsTold(now, es, s) && UsedAt(es + [e], k, user, c)
    ensures TimeAt(now, es + [e], k) == if k < |es| then TimeAt(now, es, k) else s.now
    ensures if k < |es| then UsedAt(es, k, user, c)
            else e == Use(user, c) && user < |s.holds| && s.holds[user].endedAt.None?
  {
    var fs, n := es + [e], |es|;
    Prefix(now, es, e, n);
    Prefix(now, es, e, k);
    forall j: nat | j < n ensures Openings(fs, j) == Openings(es, j) && fs[j] == es[j] { Prefix(now, es, e, j); }
    if k == n { NotEndedYet(now, es, s, user); }
  }

  lemma StepSeesUses(now: int, es: seq<Event>, s: State, e: Event)
    requires Traced(now, es, s) && EndsTold(now, es, s) && UsesSeen(now, es, s)
    ensures UsesSeen(now, es + [e], Step(s, e))
  {
    var fs, t := es + [e], Step(s, e);
    StepKeepsShape(s, e);
    hide Step, Traced, EndsTold, TimeAt;
    forall k: nat, user: nat, c: nat | UsedAt(fs, k, user, c)
      ensures c in t.pool && TimeAt(now, fs, k) <= t.pool[c].at <= t.now
    {
      PoolThen(s, e, c);
      UsedThen(now, es, s, e, k, user, c);
    }
  }

  lemma {:induction false} RunSeesUses(now: int, es: seq<Event>)
    ensures UsesSeen(now, es, Run(Start(now), es))
    decreases |es|
  {
    if es != [] {
      var n := |es| - 1;
      assert es == es[..n] + [es[n]];
      RunSeesUses(now, es[..n]);
      RunTellsEnds(now, es[..n]);
      RunTraces(now, es[..n]);
      RunThen(Start(now), es[..n], es[n]);
      hide Run, Step, Traced, EndsTold, UsesSeen;
      StepSeesUses(now, es[..n], Run(Start(now), es[..n]), es[n]);
    }
  }

  /**
   * Coverage, over the events themselves. Whenever nothing holds the instance awake, every hold opened
   * has had its `End`; no use of a pooled connection came after the last of them; and, unless the
   * hold that ended last was cut by its ceiling, all of them lie a whole quiet hold back.
   */
  lemma QuietCoversEveryUse(now: int, es: seq<Event>, k: nat, user: nat, c: nat)
    requires Quiet(Run(Start(now), es)) && UsedAt(es, k, user, c)
    ensures var s := Run(Start(now), es);
            && (forall i: nat :: i < Openings(es, |es|) ==> Ended(s, i) && EndedBy(now, es, i, s.holds[i].endedAt.value))
            && s.lingering.Some? && Ended(s, s.lingering.value)
            && var last := s.holds[s.lingering.value];
            && TimeAt(now, es, k) <= last.endedAt.value
            && (!last.Cut() ==> TimeAt(now, es, |es|) - TimeAt(now, es, k) >= QUIET_HOLD_MS)
  {
    RunSeesUses(now, es);
    RunTellsEnds(now, es);
    RunTraces(now, es);
    RunKeepsInv(Start(now), es);
    var s := Run(Start(now), es);
    OpeningsGrow(es, k, |es|);
    forall i: nat | i < |s.holds| ensures Ended(s, i) { assert !Outstanding(s, i) && HoldInv(s, i); }
    Coverage(now, es);
  }

  /** Every hold before the `k`-th has ended. */
  predicate EndedBelow(s: State, k: nat) {
    forall i: nat :: i < k && i < |s.holds| ==> Ended(s, i)
  }

  /** Whatever is at work can come to its end. */
  lemma {:induction false} EndTheRest(s: State, k: nat) returns (es: seq<Event>)
    requires Inv(s) && k <= |s.holds| && EndedBelow(s, k)
    ensures var t := Run(s, es); Punctual(s, es) && Inv(t) && |t.holds| == |s.holds| && EndedBelow(t, |t.holds|)
    decreases |s.holds| - k
  {
    if k == |s.holds| { return []; }
    var t := Step(s, End(k));
    StepKeepsInv(s, End(k));
    StepKeepsShape(s, End(k));
    forall i: nat | i < k + 1 ensures Ended(t, i) {
      EndsThen(s, End(k), i);
      if i < k { assert Ended(s, i); }
    }
    hide Inv, Step;
    var rest := EndTheRest(t, k + 1);
    RunAppend(s, [End(k)], rest);
    RunOne(s, End(k));
    es := [End(k)] + rest;
  }

  /**
   * And the instance can always sleep: from wherever a run has come, once everything at work has ended and
   * the slot's timer has fired on time, nothing holds it awake.
   */
  lemma CanAlwaysSleep(now: int, before: seq<Event>) returns (es: seq<Event>)
    ensures var s := Run(Start(now), before); Punctual(s, es) && Quiet(Run(s, es))
  {
    var s := Run(Start(now), before);
    RunKeepsInv(Start(now), before);
    var ends := EndTheRest(s, 0);
    var t := Run(s, ends);
    if t.lingering.Some? && Outstanding(t, t.lingering.value) {
      var j := t.lingering.value;
      assert HoldInv(t, j);
      var due := t.holds[j].Due();
      var wait: nat := if due >= t.now then due - t.now else 0;
      forall i: nat | i < |t.holds| && t.holds[i].timer.Some? ensures i == j { assert HoldInv(t, i); }
      if due >= t.now {
        var u := Step(t, Tick(wait));
        RunTwo(t, Tick(wait), Fire(j));
        QuietAfter(t, j, Step(u, Fire(j)));
        RunAppend(s, ends, [Tick(wait), Fire(j)]);
        es := ends + [Tick(wait), Fire(j)];
      } else {
        RunOne(t, Fire(j));
        QuietAfter(t, j, Step(t, Fire(j)));
        RunAppend(s, ends, [Fire(j)]);
        es := ends + [Fire(j)];
      }
    } else {
      forall i: nat | i < |t.holds| ensures !Outstanding(t, i) { assert Ended(t, i) && HoldInv(t, i); }
      es := ends;
    }
  }

  lemma QuietAfter(t: State, j: nat, u: State)
    requires Inv(t) && EndedBelow(t, |t.holds|) && t.lingering == Some(j) && j < |t.holds|
    requires |u.holds| == |t.holds| && u.holds[j].releasedAt.Some?
    requires forall i :: 0 <= i < |t.holds| && i != j ==> u.holds[i] == t.holds[i]
    ensures Quiet(u)
  {
    forall i: nat | i < |u.holds| ensures !Outstanding(u, i) {
      if i != j { assert Ended(t, i) && HoldInv(t, i); }
    }
  }

  predicate Working(s: State) {
    exists i :: 0 <= i < |s.holds| && s.holds[i].endedAt.None?
  }

  function EndedCount(holds: seq<Hold>): nat {
    if holds == [] then 0
    else EndedCount(holds[..|holds| - 1]) + (if holds[|holds| - 1].endedAt.Some? then 1 else 0)
  }

  function Accrued(s: State, e: Event): nat {
    if e.Tick? && !Working(s) && !Quiet(s) then e.ms else 0
  }

  /** The time the platform bills for holds alone: awake, with nothing left to do. */
  function IdleAwake(s: State, es: seq<Event>): nat
    decreases es
  {
    if es == [] then 0
    else Accrued(s, es[0]) + IdleAwake(Step(s, es[0]), es[1..])
  }

  /** What the slot's hold may still cost. */
  function Remaining(s: State): int {
    if s.lingering.Some? && Outstanding(s, s.lingering.value) && Ended(s, s.lingering.value)
    then s.holds[s.lingering.value].Due() - s.now else 0
  }

  lemma {:induction false} EndedCountUpdate(holds: seq<Hold>, i: nat, h: Hold)
    requires i < |holds|
    ensures EndedCount(holds[i := h]) == EndedCount(holds)
              + (if h.endedAt.Some? then 1 else 0) - (if holds[i].endedAt.Some? then 1 else 0)
  {
    var n := |holds| - 1;
    if i == n {
      assert holds[i := h][..n] == holds[..n];
    } else {
      assert holds[i := h][..n] == holds[..n][i := h];
      EndedCountUpdate(holds[..n], i, h);
    }
  }

  lemma EndedCountStep(s: State, e: Event)
    requires Inv(s)
    ensures EndedCount(Step(s, e).holds)
              == EndedCount(s.holds) + (if e.End? && e.hold < |s.holds| && !Ended(s, e.hold) then 1 else 0)
  {
    var t := Step(s, e);
    match e
    case Begin(_) | HandOff(_) => assert t.holds[..|s.holds|] == s.holds;
    case End(i) =>
      if i < |s.holds| && !Ended(s, i) {
        var m := LetGo(s);
        if s.lingering.Some? {
          var j := s.lingering.value;
          EndedCountUpdate(s.holds, j, m.holds[j]);
        }
        EndedCountUpdate(m.holds, i, t.holds[i]);
      }
    case Fire(i) => if i < |s.holds| { EndedCountUpdate(s.holds, i, t.holds[i]); }
    case _ =>
  }

  /** What is left of the slot's hold pays for the time that accrues; a fresh end tops it up. */
  lemma RemainingPays(s: State, e: Event)
    requires Inv(s) && OnTime(s) && OnTimeStep(s, e)
    ensures Accrued(s, e) + Remaining(Step(s, e)) - Remaining(s)
              <= if e.End? && e.hold < |s.holds| && !Ended(s, e.hold) then QUIET_HOLD_MS else 0
  {
    if s.lingering.Some? { assert HoldInv(s, s.lingering.value) && HoldOnTime(s, s.lingering.value); }
    if Accrued(s, e) > 0 {
      var i: nat :| i < |s.holds| && Outstanding(s, i);
      assert s.holds[i].endedAt.Some? && HoldInv(s, i);
    }
  }

  lemma IdleAwakeStep(s: State, e: Event)
    requires Inv(s) && OnTime(s) && OnTimeStep(s, e)
    ensures Accrued(s, e) + Remaining(Step(s, e)) - Remaining(s)
              <= QUIET_HOLD_MS * (EndedCount(Step(s, e).holds) - EndedCount(s.holds))
  {
    hide Step, Inv, OnTime, OnTimeStep, Remaining, EndedCount, Accrued;
    EndedCountStep(s, e);
    RemainingPays(s, e);
  }

  lemma Telescope(a: int, b: int, c: int)
    ensures QUIET_HOLD_MS * (b - a) + QUIET_HOLD_MS * (c - b) == QUIET_HOLD_MS * (c - a)
  {
  }

  lemma {:induction false} IdleAwakeRun(s: State, es: seq<Event>)
    requires Inv(s) && OnTime(s) && Punctual(s, es)
    ensures IdleAwake(s, es) + Remaining(Run(s, es)) - Remaining(s)
              <= QUIET_HOLD_MS * (EndedCount(Run(s, es).holds) - EndedCount(s.holds))
    decreases es
  {
    hide Step, Inv, OnTime, OnTimeStep, Remaining, EndedCount, Accrued;
    if es != [] {
      StepKeepsInv(s, es[0]);
      StepOnTime(s, es[0]);
      IdleAwakeStep(s, es[0]);
      var t, u := Step(s, es[0]), Run(s, es);
      IdleAwakeRun(t, es[1..]);
      Telescope(EndedCount(s.holds), EndedCount(t.holds), EndedCount(u.holds));
    }
  }

  /**
   * The bill. In every run whose timers fire on time, the time an instance is kept awake with no
   * invocation at work is at most one quiet hold per answer, however the answers overlap.
   */
  lemma IdleAwakeBound(now: int, es: seq<Event>)
    requires Punctual(Start(now), es)
    ensures IdleAwake(Start(now), es) <= QUIET_HOLD_MS * EndedCount(Run(Start(now), es).holds)
  {
    var s := Run(Start(now), es);
    IdleAwakeRun(Start(now), es);
    PunctualIsOnTime(Start(now), es);
    if s.lingering.Some? && Ended(s, s.lingering.value) { assert HoldOnTime(s, s.lingering.value); }
  }

  /** The module as it runs: its slot, its promises and its timers, updated in place. */
  class Instance {
    var now: int
    var holds: seq<Hold>
    var lingering: Option<nat>
    var pool: map<nat, LastUse>

    function Abstract(): State
      reads this
    {
      State(now, holds, lingering, pool)
    }

    constructor (at: int)
      ensures Abstract() == Start(at)
    {
      now, holds, lingering, pool := at, [], None, map[];
    }

    method Resolve(i: nat)
      requires i < |holds|
      modifies this`holds
      ensures holds == old(holds)[i := Released(old(holds[i]), now)]
    {
      if holds[i].releasedAt.None? {
        holds := holds[i := holds[i].(releasedAt := Some(now))];
      }
    }

    method ClearTimeout(i: nat)
      requires i < |holds|
      modifies this`holds
      ensures holds == old(holds)[i := old(holds[i]).(timer := None)]
    {
      holds := holds[i := holds[i].(timer := None)];
    }

    method LingerOn(i: nat)
      requires i < |holds|
      modifies this`holds, this`lingering
      ensures Abstract() == Linger(old(Abstract()), i)
    {
      if lingering.Some? && lingering.value < |holds| {
        ClearTimeout(lingering.value);
        Resolve(lingering.value);
      }
      var delay := Max(0, Min(QUIET_HOLD_MS, holds[i].deadline - now));
      holds := holds[i := holds[i].(endedAt := Some(now), timer := Some(now + delay))];
      lingering := Some(i);
    }

    method WithQuietHold(path: Option<string>) returns (hold: nat)
      modifies this`holds
      ensures Abstract() == Step(old(Abstract()), Begin(path))
      ensures hold == |old(holds)| && Outstanding(Abstract(), hold) && !Ended(Abstract(), hold)
    {
      hold := |holds|;
      var ceiling := API_MAX_DURATION_MS;
      if path == Some("/events") { ceiling := EVENTS_MAX_DURATION_S * 1000; }
      holds := holds + [Hold(now + ceiling - HOLD_MARGIN_MS, None, None, None)];
    }

    /** The `end` handed to the answer: only its first call lingers. */
    method EndHold(i: nat)
      requires i < |holds|
      modifies this`holds, this`lingering
      ensures Abstract() == Step(old(Abstract()), End(i))
      ensures Ended(Abstract(), i)
    {
      if holds[i].endedAt.Some? { return; }
      LingerOn(i);
    }

    method HandOffWork(from: Option<nat>) returns (hold: nat)
      requires from.Some? ==> from.value < |holds|
      modifies this`holds
      ensures Abstract() == Step(old(Abstract()), HandOff(from))
      ensures hold == |old(holds)| && Outstanding(Abstract(), hold) && !Ended(Abstract(), hold)
      ensures holds[hold].deadline == if from.Some? then old(holds[from.value].deadline) else now + 55_000
    {
      hold := |holds|;
      var deadline := now + API_MAX_DURATION_MS - HOLD_MARGIN_MS;
      if from.Some? { deadline := holds[from.value].deadline; }
      holds := holds + [Hold(deadline, None, None, None)];
    }

    method TimerFires(i: nat)
      requires i < |holds| && holds[i].timer.Some? && holds[i].timer.value <= now
      modifies this`holds
      ensures Abstract() == Step(old(Abstract()), Fire(i))
      ensures !Outstanding(Abstract(), i)
    {
      ClearTimeout(i);
      Resolve(i);
    }
  }
}
