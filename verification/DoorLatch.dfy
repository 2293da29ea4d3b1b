/**
 * One door gesture at a time (apps/desktop/src/bridge-fetch.ts): the latch `alone` takes around every
 * sign-out and every door change.
 *
 * The shell's sign-out reads the door once and acts on that reading, so a door changed meanwhile
 * would be signed out of in place of the one on screen. The latch follows the shell and not the
 * window's deadline: the model lets the deadline pass at any instant and lets the shell move the
 * door at any instant of a running change, also after the window has given up on it.
 */
module DoorLatch {
  import opened Prelude

  datatype Gesture = SigningOut | ChangingTheDoor

  /** The gesture's own promise. `Settled` is the instant before its `release` reaction runs. */
  datatype Phase = Running | Settled | Released

  datatype Told = Pending | GaveUp | Answered

  /** One started gesture: what it is, the door the shell read for it, and what its caller was told. */
  datatype Work = Work(gesture: Gesture, phase: Phase, doorRead: int, told: Told)

  datatype State = State(latch: Option<Gesture>, works: seq<Work>, door: int)

  datatype Event =
    | Start(gesture: Gesture, throws: bool)
    | MoveDoor(work: nat, to: int)
    | Deadline(work: nat)
    | Settle(work: nat)
    | Release(work: nat)

  function Step(s: State, e: Event): State {
    match e
    case Start(g, throws) =>
      if s.latch.Some? || throws then s
      else s.(latch := Some(g), works := s.works + [Work(g, Running, s.door, Pending)])
    case MoveDoor(i, to) =>
      if i < |s.works| && s.works[i].phase.Running? && s.works[i].gesture.ChangingTheDoor? then s.(door := to) else s
    case Deadline(i) =>
      if i < |s.works| && s.works[i].told.Pending? then s.(works := s.works[i := s.works[i].(told := GaveUp)]) else s
    case Settle(i) =>
      if i < |s.works| && s.works[i].phase.Running? then
        var told := if s.works[i].told.Pending? then Answered else s.works[i].told;
        s.(works := s.works[i := s.works[i].(phase := Settled, told := told)])
      else s
    case Release(i) =>
      if i < |s.works| && s.works[i].phase.Settled?
      then s.(latch := None, works := s.works[i := s.works[i].(phase := Released)])
      else s
  }

  function Idle(door: int): State {
    State(None, [], door)
  }

  function Run(s: State, es: seq<Event>): State
    decreases es
  {
    if es == [] then s else Run(Step(s, es[0]), es[1..])
  }

  ghost predicate Inv(s: State) {
    && (forall i :: 0 <= i < |s.works| - 1 ==> s.works[i].phase.Released?)
    && (s.latch.None? ==> s.works == [] || s.works[|s.works| - 1].phase.Released?)
    && (s.latch.Some? ==>
          && s.works != []
          && var w := s.works[|s.works| - 1];
          && !w.phase.Released? && s.latch == Some(w.gesture)
          && (w.gesture.SigningOut? ==> w.doorRead == s.door))
  }

  lemma {:induction false} RunKeepsInv(s: State, es: seq<Event>)
    requires Inv(s)
    ensures Inv(Run(s, es))
    decreases es
  {
    if es != [] { RunKeepsInv(Step(s, es[0]), es[1..]); }
  }

  predicate Busy(s: State, i: nat) {
    i < |s.works| && !s.works[i].phase.Released?
  }

  /**
   * Mutual exclusion and its exact extent. In every interleaving at most one gesture's own work is
   * unfinished, the latch names it, and the latch is free exactly when there is none.
   */
  lemma OneGestureAtATime(door: int, es: seq<Event>)
    ensures var s := Run(Idle(door), es);
            && (forall i: nat, j: nat :: Busy(s, i) && Busy(s, j) ==> i == j)
            && (s.latch.None? <==> forall i: nat :: !Busy(s, i))
            && (forall i: nat :: Busy(s, i) ==> s.latch == Some(s.works[i].gesture))
  {
    var s := Run(Idle(door), es);
    RunKeepsInv(Idle(door), es);
    if s.latch.Some? { assert Busy(s, |s.works| - 1); }
  }

  /** What the latch is for: a sign-out still out acts on the door the shell read when it began. */
  lemma SignOutMeetsItsOwnDoor(door: int, es: seq<Event>, i: nat)
    requires var s := Run(Idle(door), es); Busy(s, i) && s.works[i].gesture.SigningOut?
    ensures var s := Run(Idle(door), es); s.works[i].doorRead == s.door
  {
    RunKeepsInv(Idle(door), es);
  }

  /**
   * Only the work's own release frees the latch. While it is held, no run of deadlines, starts, settlements
   * and door moves frees it, starts anything, or ends what is unfinished.
   */
  lemma {:induction false} OnlyReleaseFrees(s: State, es: seq<Event>)
    requires s.latch.Some? && forall k :: 0 <= k < |es| ==> !es[k].Release?
    ensures var t := Run(s, es);
            && t.latch == s.latch && |t.works| == |s.works|
            && forall i: nat :: i < |s.works| ==>
                 t.works[i].gesture == s.works[i].gesture && t.works[i].doorRead == s.works[i].doorRead
                 && (Busy(t, i) <==> Busy(s, i))
    decreases es
  {
    if es != [] { OnlyReleaseFrees(Step(s, es[0]), es[1..]); }
  }

  /** A free latch can be taken, and a taken one comes free: its work settles and its reaction runs. */
  lemma TakenAndFreed(door: int, es: seq<Event>, g: Gesture)
    ensures var s := Run(Idle(door), es);
            var n := |s.works|;
            if s.latch.None? then
              var t := Step(s, Start(g, false));
              t.latch == Some(g) && Busy(t, n) && t.works[n] == Work(g, Running, s.door, Pending)
            else
              n > 0 && Busy(s, n - 1) && Step(Step(s, Settle(n - 1)), Release(n - 1)).latch == None
  {
    RunKeepsInv(Idle(door), es);
  }

  /** The shell moves the door for a change that is running, at its deadline or past it, and for nothing else. */
  lemma DoorMovesWhileChanging(s: State, e: Event)
    ensures Step(s, e).door ==
            if e.MoveDoor? && e.work < |s.works| && s.works[e.work].phase.Running? && s.works[e.work].gesture.ChangingTheDoor?
            then e.to else s.door
  {
  }

  /** What the caller of a gesture was told, once it was told anything, stays what it was told. */
  lemma {:induction false} ToldOnce(s: State, es: seq<Event>, i: nat)
    requires i < |s.works| && !s.works[i].told.Pending?
    ensures i < |Run(s, es).works| && Run(s, es).works[i].told == s.works[i].told
    decreases es
  {
    if es != [] { ToldOnce(Step(s, es[0]), es[1..], i); }
  }

  /**
   * The caller hears whichever comes first: the deadline, that the window gave up, or the work, its answer;
   * and hears nothing before either.
   */
  lemma {:induction false} ToldByWhicheverIsFirst(s: State, es: seq<Event>, i: nat)
    requires i < |s.works| && s.works[i].phase.Running? && s.works[i].told.Pending?
    ensures i < |Run(s, es).works|
    ensures Run(s, es).works[i].told ==
            if forall k :: 0 <= k < |es| ==> es[k] != Deadline(i) && es[k] != Settle(i) then Pending
            else if GivesUpFirst(es, i) then GaveUp else Answered
    decreases es
  {
    if es != [] {
      var t, rest := Step(s, es[0]), es[1..];
      assert forall k :: 1 <= k < |es| ==> es[k] == rest[k - 1];
      if es[0] == Deadline(i) || es[0] == Settle(i) {
        ToldOnce(t, rest, i);
      } else {
        ToldByWhicheverIsFirst(t, rest, i);
        assert forall k :: 0 <= k < |rest| ==> rest[k] == es[k + 1];
      }
    }
  }

  /** Of the deadline and the settlement of work `i`, the deadline comes first. */
  predicate GivesUpFirst(es: seq<Event>, i: nat) {
    es != [] && (es[0] == Deadline(i) || (es[0] != Settle(i) && GivesUpFirst(es[1..], i)))
  }

  /** The module's latch, and the promises it watches. */
  class Window {
    var doorGesture: Option<Gesture>
    var works: seq<Work>
    var door: int

    function Abstract(): State
      reads this
    {
      State(doorGesture, works, door)
    }

    constructor (at: int)
      ensures Abstract() == Idle(at)
    {
      doorGesture, works, door := None, [], at;
    }

    /** `alone`, as far as the first `await`; `throws` is a `run` that throws before any promise. */
    method Alone(gesture: Gesture, throws: bool) returns (started: bool)
      modifies this
      ensures Abstract() == Step(old(Abstract()), Start(gesture, throws))
      ensures started <==> old(doorGesture).None? && !throws
      ensures !started ==> Abstract() == old(Abstract())
      ensures started ==> works == old(works) + [Work(gesture, Running, door, Pending)] && Busy(Abstract(), |old(works)|)
    {
      if doorGesture.Some? { return false; }
      doorGesture := Some(gesture);
      if throws {
        doorGesture := None;
        return false;
      }
      works := works + [Work(gesture, Running, door, Pending)];
      return true;
    }

    /** The reaction put on the work's own promise, on either outcome. */
    method ReleaseLatch(i: nat)
      requires i < |works| && works[i].phase.Settled?
      modifies this
      ensures Abstract() == Step(old(Abstract()), Release(i))
    {
      works := works[i := works[i].(phase := Released)];
      doorGesture := None;
    }
  }
}
