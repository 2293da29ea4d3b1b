/**
 * Whether the account's door serves a subscription page (apps/desktop/src/DesktopSubscription.tsx,
 * `useDesktopManageOffer`): one joined read per account door, an answer for an earlier door dropped,
 * and a withdrawal that holds until the door changes.
 *
 * Reads are answered in any order and at any time, also long after their door has gone.
 */
module ManageOffer {
  import opened Prelude

  datatype Offer = Unknown | Offered | NotOffered

  /** The body of an account read: its `metered`, its storage block and its lifecycle state. */
  datatype Body = Body(metered: bool, storage: int, lifecycle: Option<string>)

  /** A 402; a 2xx with its body (None for a bare `null`); anything else, a throw included. */
  datatype Reply = Refused | Ok(body: Option<Body>) | Failed

  /** One `bridgeFetch`: out, settled with its `finally` still to run, or over. */
  datatype Stage = Out | Settled | Over

  datatype Read = Read(asked: nat, stage: Stage)

  /** `paintedFor` is the door whose answer, if any, the three state cells show. */
  datatype State = State(
    door: nat, accountDoor: bool, flight: Option<nat>, withdrawn: bool, now: int, answeredAt: int,
    offer: Offer, storage: Option<int>, lifecycle: Option<string>, paintedFor: nat,
    askings: seq<Read>)

  datatype Event =
    | Door(accountDoor: bool)          // the effect, at mount and whenever the door changes
    | Return                           // the schedule's read on a return to the window
    | Answer(read: nat, reply: Reply)
    | Finally(read: nat)
    | Withdraw
    | Tick(ms: nat)

  const UNMOUNTED := State(0, false, None, false, 0, 0, Unknown, None, None, 0, [])

  function ReadOffer(s: State): State {
    if s.flight.Some? then s
    else s.(flight := Some(|s.askings|), askings := s.askings + [Read(s.door, Out)])
  }

  function OfferOf(reply: Reply): Option<Offer> {
    match reply
    case Refused => Some(Offered)
    case Ok(body) => Some(if body.Some? && body.value.metered then Offered else NotOffered)
    case Failed => None
  }

  function Paint(s: State, reply: Reply, asked: nat): State {
    var next := OfferOf(reply);
    if next.None? || asked != s.door then s
    else
      var body := if reply.Ok? then reply.body else None;
      s.(answeredAt := s.now,
         offer := if s.withdrawn then NotOffered else next.value,
         storage := if body.Some? && body.value.metered then Some(body.value.storage) else None,
         lifecycle := if body.Some? then body.value.lifecycle else None,
         paintedFor := asked)
  }

  function Step(s: State, e: Event): State {
    match e
    case Door(account) =>
      var t := s.(door := s.door + 1, accountDoor := account, flight := None, answeredAt := 0,
                  withdrawn := false, storage := None, lifecycle := None);
      if account then ReadOffer(t.(offer := Unknown)) else t.(offer := NotOffered)
    case Return => if s.accountDoor then ReadOffer(s) else s
    case Answer(i, reply) =>
      if i < |s.askings| && s.askings[i].stage.Out? then
        Paint(s, reply, s.askings[i].asked).(askings := s.askings[i := s.askings[i].(stage := Settled)])
      else s
    case Finally(i) =>
      if i < |s.askings| && s.askings[i].stage.Settled? then
        s.(askings := s.askings[i := s.askings[i].(stage := Over)],
           flight := if s.flight == Some(i) then None else s.flight)
      else s
    case Withdraw => s.(withdrawn := true, offer := NotOffered)
    case Tick(ms) => s.(now := s.now + ms)
  }

  function Run(s: State, es: seq<Event>): State
    decreases es
  {
    if es == [] then s else Run(Step(s, es[0]), es[1..])
  }

  predicate IsOut(s: State, i: nat) {
    i < |s.askings| && s.askings[i].stage.Out?
  }

  ghost predicate ReadInv(s: State, i: nat)
    requires i < |s.askings|
  {
    && s.askings[i].asked <= s.door
    && (!s.askings[i].stage.Over? && s.askings[i].asked == s.door ==> s.flight == Some(i) && s.accountDoor)
  }

  ghost predicate ReadsInv(s: State) {
    forall i: nat :: i < |s.askings| ==> ReadInv(s, i)
  }

  ghost predicate OnePerDoor(s: State) {
    forall i: nat, j: nat :: i < j && IsOut(s, i) && IsOut(s, j) ==> s.askings[i].asked != s.askings[j].asked
  }

  ghost predicate CellsInv(s: State) {
    && (s.flight.Some? ==>
          && s.flight.value < |s.askings| && s.askings[s.flight.value].asked == s.door
          && !s.askings[s.flight.value].stage.Over?)
    && (s.offer.Offered? || s.storage.Some? || s.lifecycle.Some? ==> s.paintedFor == s.door && s.accountDoor)
    && (s.withdrawn ==> !s.offer.Offered?)
  }

  ghost predicate Inv(s: State) {
    ReadsInv(s) && OnePerDoor(s) && CellsInv(s)
  }

  lemma StepKeepsReads(s: State, e: Event)
    requires ReadsInv(s) && CellsInv(s)
    ensures ReadsInv(Step(s, e))
  {
    var t := Step(s, e);
    forall i: nat | i < |t.askings| ensures ReadInv(t, i) {
      if i < |s.askings| { assert ReadInv(s, i); }
    }
  }

  /** A read that is out was out before, under the same door, or is the one asked now, where none was. */
  lemma OutWasOut(s: State, e: Event, i: nat)
    requires ReadsInv(s) && IsOut(Step(s, e), i)
    ensures i <= |s.askings|
    ensures i < |s.askings| ==> IsOut(s, i) && Step(s, e).askings[i].asked == s.askings[i].asked
    ensures i == |s.askings| ==>
              forall k: nat :: IsOut(s, k) ==> s.askings[k].asked != Step(s, e).askings[i].asked
  {
    if i == |s.askings| {
      forall k: nat | IsOut(s, k) ensures s.askings[k].asked != Step(s, e).askings[i].asked {
        assert ReadInv(s, k);
      }
    }
  }

  lemma StepKeepsOnePerDoor(s: State, e: Event)
    requires ReadsInv(s) && OnePerDoor(s)
    ensures OnePerDoor(Step(s, e))
  {
    var t := Step(s, e);
    hide ReadsInv, Step;
    forall i: nat, j: nat | i < j && IsOut(t, i) && IsOut(t, j) ensures t.askings[i].asked != t.askings[j].asked {
      OutWasOut(s, e, i);
      OutWasOut(s, e, j);
    }
  }

  lemma StepKeepsCells(s: State, e: Event)
    requires ReadsInv(s) && CellsInv(s)
    ensures CellsInv(Step(s, e))
  {
    if e.Answer? && e.read < |s.askings| { assert ReadInv(s, e.read); }
    hide ReadsInv;
  }

  lemma StepKeepsInv(s: State, e: Event)
    requires Inv(s)
    ensures Inv(Step(s, e))
  {
    hide ReadsInv, OnePerDoor, CellsInv, Step;
    StepKeepsReads(s, e);
    StepKeepsOnePerDoor(s, e);
    StepKeepsCells(s, e);
  }

  lemma {:induction false} RunKeepsInv(s: State, es: seq<Event>)
    requires Inv(s)
    ensures Inv(Run(s, es))
    decreases es
  {
    hide Inv, Step;
    if es != [] {
      StepKeepsInv(s, es[0]);
      RunKeepsInv(Step(s, es[0]), es[1..]);
    }
  }

  /**
   * Everything shown was earned here. In every run, an offer, a storage block or a lifecycle on
   * screen came from a read asked under the account door on screen now, and no door without an
   * account shows any of them.
   */
  lemma ShownIsThisDoors(es: seq<Event>)
    ensures var s := Run(UNMOUNTED, es);
            s.offer.Offered? || s.storage.Some? || s.lifecycle.Some? ==> s.paintedFor == s.door && s.accountDoor
  {
    RunKeepsInv(UNMOUNTED, es);
  }

  /** An answer for an earlier door changes nothing but the record that it came. */
  lemma StaleAnswerIsDropped(es: seq<Event>, i: nat, reply: Reply)
    requires var s := Run(UNMOUNTED, es); IsOut(s, i) && s.askings[i].asked != s.door
    ensures var s := Run(UNMOUNTED, es);
            && Step(s, Answer(i, reply)) == s.(askings := s.askings[i := s.askings[i].(stage := Settled)])
            && Step(Step(s, Answer(i, reply)), Finally(i)).flight == s.flight
  {
    RunKeepsInv(UNMOUNTED, es);
    var s := Run(UNMOUNTED, es);
    assert ReadInv(s, i);
  }

  /** At most one read per door is out, and while the current door's is out a return asks nothing more. */
  lemma OneReadPerDoor(es: seq<Event>, i: nat, j: nat)
    requires var s := Run(UNMOUNTED, es); IsOut(s, i) && IsOut(s, j) && s.askings[i].asked == s.askings[j].asked
    ensures i == j
    ensures var s := Run(UNMOUNTED, es);
            s.askings[i].asked == s.door ==> s.flight == Some(i) && Step(s, Return) == s
  {
    RunKeepsInv(UNMOUNTED, es);
    assert ReadInv(Run(UNMOUNTED, es), i);
  }

  /** A withdrawal holds for its door: until the door changes, no answer, old or new, offers the pane again. */
  lemma {:induction false} WithdrawalHoldsForTheDoor(s: State, es: seq<Event>)
    requires s.withdrawn && !s.offer.Offered?
    requires forall k :: 0 <= k < |es| ==> !es[k].Door?
    ensures Run(s, es).withdrawn && !Run(s, es).offer.Offered?
    decreases es
  {
    if es != [] { WithdrawalHoldsForTheDoor(Step(s, es[0]), es[1..]); }
  }

  /** What an answer for the door on screen comes to: the verdict, the storage block, the lifecycle, and when. */
  predicate Settles(reply: Reply, before: State, after: State) {
    match reply
    case Failed =>
      && after.offer == before.offer && after.storage == before.storage
      && after.lifecycle == before.lifecycle && after.answeredAt == before.answeredAt
    case Refused =>
      && after.offer == (if before.withdrawn then NotOffered else Offered)
      && after.storage == None && after.lifecycle == None && after.answeredAt == before.now
    case Ok(None) =>
      after.offer == NotOffered && after.storage == None && after.lifecycle == None && after.answeredAt == before.now
    case Ok(Some(Body(metered, storage, lifecycle))) =>
      && after.offer == (if metered && !before.withdrawn then Offered else NotOffered)
      && after.storage == (if metered then Some(storage) else None)
      && after.lifecycle == lifecycle && after.answeredAt == before.now
  }

  /**
   * An answer for the door on screen settles the offer: an account that is metered, or that the program
   * refuses, is offered the pane unless it was withdrawn; any other is not; a failed read leaves
   * everything as it was.
   */
  lemma AnswerSettles(es: seq<Event>, i: nat, reply: Reply)
    requires var s := Run(UNMOUNTED, es); IsOut(s, i) && s.askings[i].asked == s.door
    ensures var s := Run(UNMOUNTED, es); Settles(reply, s, Step(s, Answer(i, reply)))
    ensures var s := Run(UNMOUNTED, es); !IsOut(Step(s, Answer(i, reply)), i)
  {
  }

  /** How long the events took. */
  function Elapsed(es: seq<Event>): nat {
    if es == [] then 0 else (if es[0].Tick? then es[0].ms else 0) + Elapsed(es[1..])
  }

  lemma {:induction false} NowIsElapsed(s: State, es: seq<Event>)
    ensures Run(s, es).now == s.now + Elapsed(es)
    decreases es
  {
    if es != [] { NowIsElapsed(Step(s, es[0]), es[1..]); }
  }

  /** An account's door asks at once, over an empty pane; any other asks nothing, and offers nothing. */
  lemma DoorAsks(es: seq<Event>, account: bool)
    ensures var s := Run(UNMOUNTED, es);
            var t := Step(s, Door(account));
            && t.door == s.door + 1 && t.storage == None && t.lifecycle == None && !t.withdrawn && t.answeredAt == 0
            && t.offer == (if account then Unknown else NotOffered)
            && t.askings == s.askings + (if account then [Read(s.door + 1, Out)] else [])
  {
  }

  /** Where every read for this account door is over, a return asks anew; its answer will be for this door. */
  lemma ReturnAsksAgain(es: seq<Event>)
    requires var s := Run(UNMOUNTED, es);
             s.accountDoor && forall i :: 0 <= i < |s.askings| && s.askings[i].asked == s.door ==> s.askings[i].stage.Over?
    ensures var s := Run(UNMOUNTED, es); Step(s, Return).askings == s.askings + [Read(s.door, Out)]
  {
    RunKeepsInv(UNMOUNTED, es);
  }

  predicate Doors(es: seq<Event>) {
    exists k :: 0 <= k < |es| && es[k].Door?
  }

  /** A withdrawal with no door after it. */
  predicate WithdrawnLast(es: seq<Event>) {
    exists k :: 0 <= k < |es| && es[k].Withdraw? && !Doors(es[k + 1..])
  }

  /**
   * When the latch is down: if and only if the pane was withdrawn and the door has not changed since,
   * whatever was asked, answered or returned to in between; and then nothing is offered.
   */
  lemma WithdrawnIffNoDoorSince(es: seq<Event>)
    ensures var s := Run(UNMOUNTED, es);
            (s.withdrawn <==> WithdrawnLast(es)) && (s.withdrawn ==> !s.offer.Offered?)
  {
    RunKeepsInv(UNMOUNTED, es);
    WithdrawnFrom(UNMOUNTED, es);
  }

  lemma DoorsFrom(es: seq<Event>)
    requires es != []
    ensures Doors(es) <==> es[0].Door? || Doors(es[1..])
  {
    var rest := es[1..];
    assert forall k :: 0 <= k < |rest| ==> es[k + 1] == rest[k];
    assert forall k :: 1 <= k < |es| ==> es[k] == rest[k - 1];
  }

  lemma WithdrawnLastFrom(es: seq<Event>)
    requires es != []
    ensures WithdrawnLast(es) <==> WithdrawnLast(es[1..]) || (es[0].Withdraw? && !Doors(es[1..]))
  {
    hide Doors;
    var rest := es[1..];
    assert forall k :: 0 <= k < |rest| ==> es[k + 1] == rest[k] && es[k + 2..] == rest[k + 1..];
    assert forall k :: 1 <= k < |es| ==> es[k] == rest[k - 1] && es[k + 1..] == rest[k..];
  }

  lemma {:induction false} WithdrawnFrom(s: State, es: seq<Event>)
    ensures Run(s, es).withdrawn <==> WithdrawnLast(es) || (s.withdrawn && !Doors(es))
    decreases es
  {
    if es == [] {
      assert !WithdrawnLast(es) && !Doors(es);
    } else {
      DoorsFrom(es);
      WithdrawnLastFrom(es);
      hide Doors, WithdrawnLast;
      WithdrawnFrom(Step(s, es[0]), es[1..]);
    }
  }

  /**
   * A withdrawn pane can come back, and only through a door: some run of events offers it again, and
   * every such run changes the door. The hook's own comment promises the rest of the session; the code
   * keeps the promise for the door, and every delivered lifecycle change makes a new one.
   */
  lemma WithdrawnComesBackOnlyThroughADoor(before: seq<Event>) returns (back: seq<Event>)
    ensures var s := Run(UNMOUNTED, before + [Withdraw]);
            && Run(s, back).offer.Offered?
            && forall es: seq<Event> :: Run(s, es).offer.Offered? ==> exists k :: 0 <= k < |es| && es[k].Door?
  {
    var p := Run(UNMOUNTED, before);
    RunAppend(UNMOUNTED, before, [Withdraw]);
    var s := Run(UNMOUNTED, before + [Withdraw]);
    assert [Withdraw][1..] == [] && s == Step(p, Withdraw);
    forall es: seq<Event> | Run(s, es).offer.Offered? ensures exists k :: 0 <= k < |es| && es[k].Door? {
      if forall k :: 0 <= k < |es| ==> !es[k].Door? { WithdrawalHoldsForTheDoor(s, es); }
    }
    var i := |s.askings|;
    back := [Door(true), Answer(i, Refused)];
    assert Step(s, Door(true)).askings[i] == Read(s.door + 1, Out);
    RunTwo(s, back[0], back[1]);
  }

  lemma {:induction false} RunAppend(s: State, es: seq<Event>, fs: seq<Event>)
    ensures Run(s, es + fs) == Run(Run(s, es), fs)
    decreases es
  {
    if es == [] {
      assert es + fs == fs;
    } else {
      assert (es + fs)[0] == es[0] && (es + fs)[1..] == es[1..] + fs;
      RunAppend(Step(s, es[0]), es[1..], fs);
    }
  }

  lemma RunTwo(s: State, e: Event, f: Event)
    ensures Run(s, [e, f]) == Step(Step(s, e), f)
  {
    assert [e, f][1..] == [f] && [f][1..] == [];
    var t := Step(s, e);
    hide Step;
    assert Run(s, [e, f]) == Run(t, [f]);
  }

  /** The hook's refs and state cells, as its callbacks update them. */
  class Hook {
    var door: nat
    var accountDoor: bool
    var flight: Option<nat>
    var withdrawn: bool
    var now: int
    var answeredAt: int
    var offer: Offer
    var storage: Option<int>
    var lifecycle: Option<string>
    var paintedFor: nat
    var askings: seq<Read>

    function Abstract(): State
      reads this
    {
      State(door, accountDoor, flight, withdrawn, now, answeredAt, offer, storage, lifecycle, paintedFor, askings)
    }

    constructor ()
      ensures Abstract() == UNMOUNTED
    {
      door, accountDoor, flight, withdrawn, now, answeredAt := 0, false, None, false, 0, 0;
      offer, storage, lifecycle, paintedFor, askings := Unknown, None, None, 0, [];
    }

    /** `readOffer`, to its `await`: the read it hands back, joined or its own. */
    method Ask() returns (read: nat)
      modifies this`flight, this`askings
      ensures Abstract() == ReadOffer(old(Abstract()))
      ensures flight == Some(read)
    {
      if flight.Some? { return flight.value; }
      read := |askings|;
      askings := askings + [Read(door, Out)];
      flight := Some(read);
    }

    method OnDoor(account: bool)
      modifies this
      ensures Abstract() == Step(old(Abstract()), Door(account))
    {
      accountDoor := account;
      door := door + 1;
      flight := None;
      answeredAt := 0;
      withdrawn := false;
      storage := None;
      lifecycle := None;
      if !account {
        offer := NotOffered;
        return;
      }
      offer := Unknown;
      var _ := Ask();
    }

    method Answered(i: nat, reply: Reply) returns (settled: bool)
      requires i < |askings| && askings[i].stage.Out?
      modifies this
      ensures Abstract() == Step(old(Abstract()), Answer(i, reply))
      ensures settled <==> !reply.Failed? && askings[i].asked == door
    {
      var asked := askings[i].asked;
      askings := askings[i := askings[i].(stage := Settled)];
      var next: Option<Offer> := None;
      var body: Option<Body> := None;
      match reply {
        case Refused => next := Some(Offered);
        case Ok(b) =>
          body := b;
          next := Some(if b.Some? && b.value.metered then Offered else NotOffered);
        case Failed =>
      }
      if next.None? || asked != door { return false; }
      answeredAt := now;
      offer := if withdrawn then NotOffered else next.value;
      storage := if body.Some? && body.value.metered then Some(body.value.storage) else None;
      lifecycle := if body.Some? then body.value.lifecycle else None;
      paintedFor := asked;
      return true;
    }

    method AfterSettling(i: nat)
      requires i < |askings| && askings[i].stage.Settled?
      modifies this`flight, this`askings
      ensures Abstract() == Step(old(Abstract()), Finally(i))
    {
      askings := askings[i := askings[i].(stage := Over)];
      if flight == Some(i) { flight := None; }
    }
  }
}
