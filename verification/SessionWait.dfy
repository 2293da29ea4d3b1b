/**
 * The held question (apps/desktop/src/DesktopGate.tsx, over `waitForSessionMove`): the window keeps
 * one question open with the engine, reads the session again when it moved, and asks anew. An engine
 * that answers at once must not be asked in a tight loop.
 *
 * The engine's answers are the loop's input; the theorems hold for every sequence of them.
 */
module SessionWait {
  import opened Prelude

  const SESSION_WAIT_UNHELD_MS := 1_000
  const SESSION_WAIT_RETRY_MS := 5_000

  /** A session reading, as the question names it. */
  type Session = int

  /**
   * One answered question: whether the reading moved, the reading it carried, how long the answer
   * was held, and, when it moved, what the `/health` read behind it brought and how long that took. The
   * other probes write the same ref: `others` is what they last left in it during each of the waits.
   */
  datatype Reply = Reply(
    changed: bool, session: Session, held: nat, health: Option<Session>, reading: nat, others: Others)

  datatype Others = Others(whileHeld: Option<Session>, whileRead: Option<Session>, whilePaused: Option<Session>)

  datatype Ask = Ask(at: int, question: Session)

  /** The time one turn of the loop takes before any pause. */
  function Took(r: Reply): nat {
    if r.changed then r.held + r.reading else r.held
  }

  predicate Unheld(r: Reply) {
    Took(r) < SESSION_WAIT_UNHELD_MS
  }

  function Over(held: Session, written: Option<Session>): Session {
    if written.Some? then written.value else held
  }

  /** The reading the window holds after a reply: the last one written, by the loop or by another probe. */
  function After(held: Session, r: Reply): Session {
    if r.changed then Over(Over(r.session, r.others.whileRead), r.health) else Over(held, r.others.whileHeld)
  }

  /** How many replies in a row, up to the `i`-th ask, were not held. */
  function Fast(replies: seq<Reply>, i: nat): nat
    requires i <= |replies|
  {
    if i == 0 || !Unheld(replies[i - 1]) then 0 else Fast(replies, i - 1) + 1
  }

  lemma FastStep(replies: seq<Reply>, i: nat)
    requires 0 < i <= |replies|
    ensures Fast(replies, i) == if Unheld(replies[i - 1]) then Fast(replies, i - 1) + 1 else 0
    ensures Fast(replies, 0) == 0
  {
  }

  /** When the `i`-th question is asked. */
  function AskedAt(start: int, replies: seq<Reply>, i: nat): int
    requires i <= |replies|
  {
    if i == 0 then start
    else
      AskedAt(start, replies, i - 1) + Took(replies[i - 1])
      + (if Fast(replies, i) >= 3 then SESSION_WAIT_RETRY_MS else 0)
  }

  /** The reading the `i`-th question names. */
  function Question(held: Session, replies: seq<Reply>, i: nat): Session
    requires i <= |replies|
  {
    if i == 0 then held
    else
      var after := After(Question(held, replies, i - 1), replies[i - 1]);
      if Fast(replies, i) >= 3 then Over(after, replies[i - 1].others.whilePaused) else after
  }

  // ---- Which reading a question names ----

  /** A reply that came, with the read behind it, sooner than a held one. */
  predicate Quick(r: Reply) {
    r.held + (if r.changed then r.reading else 0) < 1_000
  }

  /** Turn `k` ends in a pause: it and the two before it were quick. */
  predicate PausesAt(replies: seq<Reply>, k: nat)
    requires k < |replies|
  {
    k >= 2 && Quick(replies[k]) && Quick(replies[k - 1]) && Quick(replies[k - 2])
  }

  /**
   * What is written to the shared ref in turn `k`, in the order of time: by another probe while the question
   * is held; the reading the reply carries, by another probe while `/health` is read, and what that
   * read brings, where the reply says it moved; by another probe during the pause.
   */
  function WrittenIn(replies: seq<Reply>, k: nat): seq<Option<Session>>
    requires k < |replies|
  {
    var r := replies[k];
    [r.others.whileHeld]
    + (if r.changed then [Some(r.session), r.others.whileRead, r.health] else [])
    + (if PausesAt(replies, k) then [r.others.whilePaused] else [])
  }

  function WrittenBefore(replies: seq<Reply>, i: nat): seq<Option<Session>>
    requires i <= |replies|
  {
    if i == 0 then [] else WrittenBefore(replies, i - 1) + WrittenIn(replies, i - 1)
  }

  /** The last reading written, or the one held before any was. */
  function LastWritten(held: Session, writes: seq<Option<Session>>): Session {
    if writes == [] then held
    else
      var last := writes[|writes| - 1];
      if last.Some? then last.value else LastWritten(held, writes[..|writes| - 1])
  }

  lemma {:induction false} LastOfBoth(held: Session, first: seq<Option<Session>>, second: seq<Option<Session>>)
    ensures LastWritten(held, first + second) == LastWritten(LastWritten(held, first), second)
  {
    if second == [] {
      assert first + second == first;
    } else {
      var n := |second| - 1;
      assert (first + second)[..|first + second| - 1] == first + second[..n];
      LastOfBoth(held, first, second[..n]);
    }
  }

  lemma LastOfOne(held: Session, w: Option<Session>)
    ensures LastWritten(held, [w]) == Over(held, w)
  {
    assert [w][..0] == [];
  }

  lemma LastOfThree(held: Session, a: Option<Session>, b: Option<Session>, c: Option<Session>)
    ensures LastWritten(held, [a, b, c]) == Over(Over(Over(held, a), b), c)
  {
    assert [a, b, c] == [a] + [b] + [c];
    LastOfBoth(held, [a] + [b], [c]);
    LastOfBoth(held, [a], [b]);
    LastOfOne(held, a);
    LastOfOne(Over(held, a), b);
    LastOfOne(Over(Over(held, a), b), c);
  }

  lemma LastOfTurn(before: Session, replies: seq<Reply>, k: nat)
    requires k < |replies|
    ensures var r := replies[k];
            var after := After(before, r);
            LastWritten(before, WrittenIn(replies, k)) == if PausesAt(replies, k) then Over(after, r.others.whilePaused) else after
  {
    var r := replies[k];
    var a := [r.others.whileHeld];
    var b: seq<Option<Session>> := if r.changed then [Some(r.session), r.others.whileRead, r.health] else [];
    var c: seq<Option<Session>> := if PausesAt(replies, k) then [r.others.whilePaused] else [];
    assert WrittenIn(replies, k) == a + b + c;
    LastOfBoth(before, a + b, c);
    LastOfBoth(before, a, b);
    LastOfOne(before, r.others.whileHeld);
    LastOfThree(Over(before, r.others.whileHeld), Some(r.session), r.others.whileRead, r.health);
    LastOfOne(After(before, r), r.others.whilePaused);
  }

  /** Three quick turns in a row, by the count the loop keeps. */
  lemma PausesByCount(replies: seq<Reply>, k: nat)
    requires k < |replies|
    ensures Fast(replies, k + 1) >= 3 <==> PausesAt(replies, k)
  {
    FastStep(replies, k + 1);
    if k >= 1 { FastStep(replies, k); }
    if k >= 2 { FastStep(replies, k - 1); }
    hide Fast;
  }

  /** Each question names the reading written last before it, by whichever probe, or the one held at the start. */
  lemma {:induction false} QuestionIsTheLastWritten(held: Session, replies: seq<Reply>, i: nat)
    requires i <= |replies|
    ensures Question(held, replies, i) == LastWritten(held, WrittenBefore(replies, i))
  {
    if i > 0 {
      QuestionIsTheLastWritten(held, replies, i - 1);
      PausesByCount(replies, i - 1);
      LastOfBoth(held, WrittenBefore(replies, i - 1), WrittenIn(replies, i - 1));
      LastOfTurn(Question(held, replies, i - 1), replies, i - 1);
    }
  }

  lemma AfterReply(held: Session, r: Reply)
    ensures r.changed ==> After(held, r) == Over(Over(r.session, r.others.whileRead), r.health)
    ensures !r.changed ==> After(held, r) == Over(held, r.others.whileHeld)
  {
  }

  lemma FirstAsk(start: int, held: Session, replies: seq<Reply>)
    ensures Fast(replies, 0) == 0 && AskedAt(start, replies, 0) == start && Question(held, replies, 0) == held
  {
  }

  /** What one turn adds to the count, to the time and to the reading held. */
  lemma NextAsk(start: int, held: Session, replies: seq<Reply>, i: nat)
    requires i < |replies|
    ensures var r := replies[i];
            var took := if r.changed then r.held + r.reading else r.held;
            && Fast(replies, i + 1) == (if took < SESSION_WAIT_UNHELD_MS then Fast(replies, i) + 1 else 0)
            && AskedAt(start, replies, i + 1)
               == AskedAt(start, replies, i) + took + (if Fast(replies, i + 1) >= 3 then SESSION_WAIT_RETRY_MS else 0)
            && Question(held, replies, i + 1)
               == var after := After(Question(held, replies, i), r);
                  if Fast(replies, i + 1) >= 3 then Over(after, r.others.whilePaused) else after
  {
  }

  /**
   * The loop, over the replies it is given before it is cancelled or the engine answers that it has
   * no such door: every question it asked, in order.
   */
  method WaitLoop(start: int, held: Session, replies: seq<Reply>) returns (asks: seq<Ask>)
    ensures |asks| == |replies| + 1
    ensures forall i :: 0 <= i <= |replies| ==>
              asks[i] == Ask(AskedAt(start, replies, i), LastWritten(held, WrittenBefore(replies, i)))
  {
    hide Fast, AskedAt, Question, Took, After, LastWritten, WrittenBefore, WrittenIn, PausesAt, Quick;
    var now, fast, sessionHeld, turn := start, 0, held, 0;
    asks := [];
    FirstAsk(start, held, replies);
    while turn < |replies|
      invariant 0 <= turn <= |replies|
      invariant |asks| == turn
      invariant fast == Fast(replies, turn)
      invariant now == AskedAt(start, replies, turn)
      invariant sessionHeld == Question(held, replies, turn)
      invariant forall i :: 0 <= i < turn ==> asks[i] == Ask(AskedAt(start, replies, i), Question(held, replies, i))
    {
      var asked := now;
      asks := asks + [Ask(asked, sessionHeld)];
      var moved := replies[turn];
      NextAsk(start, held, replies, turn);
      AfterReply(sessionHeld, moved);
      now := now + moved.held;
      if moved.others.whileHeld.Some? { sessionHeld := moved.others.whileHeld.value; }
      if moved.changed {
        sessionHeld := moved.session;
        now := now + moved.reading;
        if moved.others.whileRead.Some? { sessionHeld := moved.others.whileRead.value; }
        if moved.health.Some? { sessionHeld := moved.health.value; }
      }
      fast := if now - asked < SESSION_WAIT_UNHELD_MS then fast + 1 else 0;
      if fast >= 3 {
        now := now + SESSION_WAIT_RETRY_MS;
        if moved.others.whilePaused.Some? { sessionHeld := moved.others.whilePaused.value; }
      }
      turn := turn + 1;
    }
    asks := asks + [Ask(now, sessionHeld)];
    forall i | 0 <= i <= |replies| ensures asks[i].question == LastWritten(held, WrittenBefore(replies, i)) {
      QuestionIsTheLastWritten(held, replies, i);
    }
  }

  /** The loop pauses, for SESSION_WAIT_RETRY_MS, exactly after three replies in a row that were not held. */
  lemma PausesAfterThreeUnheld(start: int, replies: seq<Reply>, i: nat)
    requires i < |replies|
    ensures var r := replies[i];
            AskedAt(start, replies, i + 1) - AskedAt(start, replies, i)
              == r.held + (if r.changed then r.reading else 0) + (if PausesAt(replies, i) then 5_000 else 0)
  {
    PausesByCount(replies, i);
  }

  /** Any three turns in a row take at least SESSION_WAIT_UNHELD_MS, whatever the engine answers. */
  lemma ThreeTurnsTakeASecond(start: int, replies: seq<Reply>, i: nat)
    requires i + 3 <= |replies|
    ensures AskedAt(start, replies, i + 3) - AskedAt(start, replies, i) >= SESSION_WAIT_UNHELD_MS
  {
    PausesAfterThreeUnheld(start, replies, i);
    PausesAfterThreeUnheld(start, replies, i + 1);
    PausesAfterThreeUnheld(start, replies, i + 2);
  }

  lemma {:induction false} TurnsTakeSeconds(start: int, replies: seq<Reply>, i: nat, seconds: nat)
    requires i + 3 * seconds <= |replies|
    ensures AskedAt(start, replies, i + 3 * seconds) - AskedAt(start, replies, i) >= SESSION_WAIT_UNHELD_MS * seconds
  {
    if seconds > 0 {
      TurnsTakeSeconds(start, replies, i, seconds - 1);
      ThreeTurnsTakeASecond(start, replies, i + 3 * (seconds - 1));
    }
  }

  lemma {:induction false} AskedInOrder(start: int, replies: seq<Reply>, i: nat, j: nat)
    requires i <= j <= |replies|
    ensures AskedAt(start, replies, i) <= AskedAt(start, replies, j)
    decreases j
  {
    if i < j { AskedInOrder(start, replies, i, j - 1); }
  }

  /**
   * The rate bound. The questions asked within any stretch of `ms` number at most
   * 3 * (ms / 1000) + 3, even if every answer is immediate.
   */
  lemma AsksAreBounded(start: int, replies: seq<Reply>, first: nat, last: nat, ms: nat)
    requires first <= last <= |replies|
    requires AskedAt(start, replies, last) - AskedAt(start, replies, first) <= ms
    ensures last - first + 1 <= 3 * (ms / SESSION_WAIT_UNHELD_MS) + 3
  {
    var seconds := ms / SESSION_WAIT_UNHELD_MS + 1;
    if last - first >= 3 * seconds {
      TurnsTakeSeconds(start, replies, first, seconds);
      AskedInOrder(start, replies, first + 3 * seconds, last);
      assert SESSION_WAIT_UNHELD_MS * seconds > ms;
    }
  }

  function Immediate(held: nat): Reply {
    Reply(false, 0, held, None, 0, Others(None, None, None))
  }

  /** The bound is met: an engine that holds every third answer just long enough is asked six times in a second. */
  lemma BoundIsMet(start: int)
    ensures var replies := [Immediate(0), Immediate(0), Immediate(1000), Immediate(0), Immediate(0)];
            && AskedAt(start, replies, 5) - AskedAt(start, replies, 0) == 1000
            && 5 - 0 + 1 == 3 * (1000 / SESSION_WAIT_UNHELD_MS) + 3
  {
    var replies := [Immediate(0), Immediate(0), Immediate(1000), Immediate(0), Immediate(0)];
    PausesAfterThreeUnheld(start, replies, 0);
    PausesAfterThreeUnheld(start, replies, 1);
    PausesAfterThreeUnheld(start, replies, 2);
    PausesAfterThreeUnheld(start, replies, 3);
    PausesAfterThreeUnheld(start, replies, 4);
  }
}
