/**
 * Every answer goes through the quiet hold (apps/api-vercel/src/handler.ts): `heldUntilSent` wraps
 * the answer's body so that the hold's `end` runs when the body has been read to its end, cancelled
 * or failed, at once with no body, and when the answer throws.
 *
 * The wrapper is a stream over a stream, so the model is a state machine over every interleaving of
 * the consumer (take, cancel), the stream machinery (pull) and the inner body (answers). The stream
 * rules are those of a default controller with its default high-water mark of one: `pull` is called
 * while nothing is queued and no pull is running; `enqueue` and `close` throw on a stream that is no
 * longer readable; `error` then does nothing; cancelling the inner reader answers a waiting read.
 */
module HeldBody {
  import opened Prelude

  type Chunk = int
  type Error = int

  /** How the inner body goes on after its chunks: it ends, it fails, or it never answers again. */
  datatype Ending = Closes | Fails(error: Error) | Stalls

  datatype Body = Body(chunks: seq<Chunk>, ending: Ending)

  /** What `answer(req)` came to. */
  datatype Answer = Throws | NoBody | Streams(body: Body)

  datatype Reading = Value(chunk: Chunk) | Done | Failure(error: Error)

  /** The one `pull` the machinery runs at a time: none, waiting on the inner read, or answered. */
  datatype Pull = Idle | Waiting | Answered(reading: Reading)

  datatype Phase = Readable | Closing | Closed | Errored(error: Error)

  datatype State = State(
    queue: seq<Chunk>, phase: Phase, pull: Pull,
    position: nat, innerCancelled: bool, cancelled: bool,
    received: seq<Chunk>,
    ended: bool, endCalls: nat, lingers: nat)

  datatype Event = CallPull | InnerAnswers | PullContinues | Take | Cancel

  const FRESH := State([], Readable, Idle, 0, false, false, [], false, 0, 0)

  /** The hold's `end`: every call counts, only the first lingers. */
  function EndHold(s: State): State {
    if s.ended then s.(endCalls := s.endCalls + 1)
    else s.(endCalls := s.endCalls + 1, ended := true, lingers := s.lingers + 1)
  }

  /** `controller.error`: nothing on a stream no longer readable; otherwise what is queued is dropped. */
  function Fail(s: State, e: Error): State {
    if s.phase.Readable? || s.phase.Closing? then s.(phase := Errored(e), queue := []) else s
  }

  /** What `controller.enqueue` and `controller.close` throw once the stream takes nothing more. */
  const TYPE_ERROR: Error := -1

  function Continue(s: State, r: Reading): State {
    var s := s.(pull := Idle);
    match r
    case Value(c) =>
      if s.phase.Readable? then s.(queue := s.queue + [c]) else Fail(EndHold(s), TYPE_ERROR)
    case Done =>
      var t := EndHold(s);
      if t.phase.Readable? then t.(phase := if t.queue == [] then Closed else Closing)
      else Fail(EndHold(t), TYPE_ERROR)
    case Failure(e) => Fail(EndHold(s), e)
  }

  function InnerReading(b: Body, s: State): Option<Reading> {
    if s.innerCancelled then Some(Done)
    else if s.position < |b.chunks| then Some(Value(b.chunks[s.position]))
    else match b.ending
         case Closes => Some(Done)
         case Fails(e) => Some(Failure(e))
         case Stalls => None
  }

  function Step(b: Body, s: State, e: Event): State {
    match e
    case CallPull => if s.phase.Readable? && s.queue == [] && s.pull.Idle? then s.(pull := Waiting) else s
    case InnerAnswers =>
      if s.pull.Waiting? && InnerReading(b, s).Some? then
        var r := InnerReading(b, s).value;
        s.(pull := Answered(r), position := if r.Value? then s.position + 1 else s.position)
      else s
    case PullContinues => if s.pull.Answered? then Continue(s, s.pull.reading) else s
    case Take =>
      if s.queue != [] then
        var t := s.(received := s.received + [s.queue[0]], queue := s.queue[1..]);
        if t.phase.Closing? && t.queue == [] then t.(phase := Closed) else t
      else s
    case Cancel =>
      if s.phase.Readable? || s.phase.Closing? then
        EndHold(s.(phase := Closed, queue := [], cancelled := true, innerCancelled := true))
      else s
  }

  function Run(b: Body, s: State, es: seq<Event>): State
    decreases es
  {
    if es == [] then s else Run(b, Step(b, s, es[0]), es[1..])
  }

  /** The consumer has heard the last of the body: it closed, it failed, or the consumer let go. */
  predicate Terminal(s: State) {
    s.phase.Closed? || s.phase.Errored?
  }

  function InHand(s: State): seq<Chunk> {
    if s.pull.Answered? && s.pull.reading.Value? then [s.pull.reading.chunk] else []
  }

  ghost predicate Inv(b: Body, s: State) {
    && s.position <= |b.chunks|
    && !s.phase.Closing?
    && (!s.pull.Idle? ==> s.queue == [])
    && s.innerCancelled == s.cancelled
    && (s.cancelled ==> s.phase.Closed? && s.queue == [] && s.received <= b.chunks)
    && (!s.cancelled ==>
          && s.received + s.queue + InHand(s) == b.chunks[..s.position]
          && (Terminal(s) ==> s.pull.Idle? && s.queue == [] && s.position == |b.chunks|)
          && (s.phase.Closed? ==> b.ending.Closes?)
          && (s.phase.Errored? ==> b.ending == Fails(s.phase.error))
          && (s.pull.Answered? && !s.pull.reading.Value? ==>
                && s.position == |b.chunks|
                && !b.ending.Stalls?
                && s.pull.reading == (if b.ending.Closes? then Done else Failure(b.ending.error))))
    && s.ended == Terminal(s)
    && s.lingers == (if s.ended then 1 else 0)
    && (s.endCalls > 0 <==> s.ended)
  }

  lemma AnswerKeepsInv(b: Body, s: State)
    requires Inv(b, s)
    ensures Inv(b, Step(b, s, InnerAnswers))
  {
    var t := Step(b, s, InnerAnswers);
    if !s.cancelled && s.pull.Waiting? && s.position < |b.chunks| {
      assert b.chunks[..t.position] == b.chunks[..s.position] + [b.chunks[s.position]];
    }
  }

  lemma ContinueKeepsInv(b: Body, s: State)
    requires Inv(b, s)
    ensures Inv(b, Step(b, s, PullContinues))
  {
    if !s.cancelled {
      assert s.received + s.queue + InHand(s) == s.received + (s.queue + InHand(s));
    }
  }

  lemma TakeKeepsInv(b: Body, s: State)
    requires Inv(b, s)
    ensures Inv(b, Step(b, s, Take))
  {
    if s.queue != [] {
      assert s.received + s.queue == Step(b, s, Take).received + Step(b, s, Take).queue;
    }
  }

  lemma CancelKeepsInv(b: Body, s: State)
    requires Inv(b, s)
    ensures Inv(b, Step(b, s, Cancel))
  {
    if !s.cancelled {
      assert s.received <= s.received + s.queue + InHand(s);
    }
  }

  lemma CallKeepsInv(b: Body, s: State)
    requires Inv(b, s)
    ensures Inv(b, Step(b, s, CallPull))
  {
  }

  lemma StepKeepsInv(b: Body, s: State, e: Event)
    requires Inv(b, s)
    ensures Inv(b, Step(b, s, e))
  {
    hide Inv, Step;
    match e
    case InnerAnswers => AnswerKeepsInv(b, s);
    case PullContinues => ContinueKeepsInv(b, s);
    case Take => TakeKeepsInv(b, s);
    case Cancel => CancelKeepsInv(b, s);
    case CallPull => CallKeepsInv(b, s);
  }

  lemma {:induction false} RunKeepsInv(b: Body, s: State, es: seq<Event>)
    requires Inv(b, s)
    ensures Inv(b, Run(b, s, es))
    decreases es
  {
    if es != [] {
      StepKeepsInv(b, s, es[0]);
      RunKeepsInv(b, Step(b, s, es[0]), es[1..]);
    }
  }

  /**
   * The wrapper adds nothing and loses nothing. In every interleaving the consumer has received the
   * inner chunks in order; a close reaches it only after every chunk of a body that closed, and an
   * error only after every chunk of a body that failed with that very error; and only a consumer
   * that let go has an answer of its own making.
   */
  lemma HeldBodyIsTheBody(b: Body, es: seq<Event>)
    ensures var s := Run(b, FRESH, es);
            && s.received <= b.chunks
            && (s.phase.Closed? && !s.cancelled ==> s.received == b.chunks && b.ending == Closes)
            && (s.phase.Errored? ==> s.received == b.chunks && b.ending == Fails(s.phase.error))
            && (s.cancelled ==> s.phase.Closed? && s.innerCancelled)
  {
    var s := Run(b, FRESH, es);
    RunKeepsInv(b, FRESH, es);
    assert s.received <= s.received + s.queue + InHand(s);
  }

  /** The hold ends exactly when the consumer has heard the last of the body, and lingers once. */
  lemma HoldEndsExactlyAtTheLast(b: Body, es: seq<Event>)
    ensures var s := Run(b, FRESH, es);
            && (s.ended <==> Terminal(s))
            && s.lingers == (if Terminal(s) then 1 else 0)
  {
    RunKeepsInv(b, FRESH, es);
  }

  /** Events that would still change something: what the machinery and the inner body owe. */
  predicate Owed(b: Body, s: State) {
    exists e :: e in {CallPull, InnerAnswers, PullContinues, Take} && Step(b, s, e) != s
  }

  /**
   * A consumer that keeps taking is never left waiting: unless the inner body itself stalls, a run
   * in which nothing more can happen has closed or failed, so the hold has ended.
   */
  lemma NothingOwedMeansEnded(b: Body, es: seq<Event>)
    requires !Owed(b, Run(b, FRESH, es))
    ensures !b.ending.Stalls? ==> Run(b, FRESH, es).ended
    ensures Run(b, FRESH, es).cancelled || Run(b, FRESH, es).received == b.chunks
  {
    var s := Run(b, FRESH, es);
    RunKeepsInv(b, FRESH, es);
    assert s.queue == [] || |Step(b, s, Take).queue| < |s.queue|;
    assert Step(b, s, CallPull) == s && Step(b, s, InnerAnswers) == s;
    assert Step(b, s, PullContinues) == s && Step(b, s, Take) == s;
  }

  /**
   * A consumer that lets go is let go: after a cancel, whatever was queued or on its way, the body is over,
   * the inner one told where it was still to be read, the hold ended, and nothing more is received.
   */
  lemma CancelEnds(b: Body, es: seq<Event>, after: seq<Event>)
    ensures var s := Run(b, FRESH, es);
            var t := Run(b, Step(b, s, Cancel), after);
            && Terminal(t) && t.ended && t.lingers == 1 && t.received == s.received
            && (!Terminal(s) ==> t.cancelled && t.innerCancelled && t.phase.Closed?)
            && (Terminal(s) ==> t.phase == s.phase && t.cancelled == s.cancelled)
  {
    RunKeepsInv(b, FRESH, es);
    var s := Run(b, FRESH, es);
    StepKeepsInv(b, s, Cancel);
    TerminalStays(b, Step(b, s, Cancel), after);
  }

  lemma {:induction false} TerminalStays(b: Body, s: State, es: seq<Event>)
    requires Inv(b, s) && Terminal(s)
    ensures var t := Run(b, s, es);
            && Inv(b, t) && t.phase == s.phase && t.received == s.received && t.cancelled == s.cancelled
    decreases es
  {
    if es != [] {
      StepKeepsInv(b, s, es[0]);
      assert Step(b, s, es[0]).phase == s.phase && Step(b, s, es[0]).received == s.received;
      hide Inv, Step;
      TerminalStays(b, Step(b, s, es[0]), es[1..]);
    }
  }

  lemma {:induction false} RunAppend(b: Body, s: State, es: seq<Event>, e: Event)
    ensures Run(b, s, es + [e]) == Step(b, Run(b, s, es), e)
    decreases es
  {
    if es == [] {
      assert [e][1..] == [];
    } else {
      assert (es + [e])[0] == es[0] && (es + [e])[1..] == es[1..] + [e];
      RunAppend(b, Step(b, s, es[0]), es[1..], e);
    }
  }

  /**
   * The guard inside `end` is needed: a consumer that cancels while a read is waiting has `end`
   * called three times, by the cancel, by the read the cancel answered, and by the close it refuses.
   */
  lemma CancelMidReadCallsEndThrice(b: Body)
    ensures var s := Run(b, FRESH, [CallPull, Cancel, InnerAnswers, PullContinues]);
            s.endCalls == 3 && s.lingers == 1
  {
    var s1 := Step(b, FRESH, CallPull);
    var s2 := Step(b, s1, Cancel);
    var s3 := Step(b, s2, InnerAnswers);
    assert s3.pull == Answered(Done) && s3.endCalls == 1;
    RunAppend(b, FRESH, [], CallPull);
    RunAppend(b, FRESH, [CallPull], Cancel);
    RunAppend(b, FRESH, [CallPull, Cancel], InnerAnswers);
    RunAppend(b, FRESH, [CallPull, Cancel, InnerAnswers], PullContinues);
    assert [] + [CallPull] == [CallPull] && [CallPull] + [Cancel] == [CallPull, Cancel];
    assert [CallPull, Cancel] + [InnerAnswers] == [CallPull, Cancel, InnerAnswers];
    assert [CallPull, Cancel, InnerAnswers] + [PullContinues] == [CallPull, Cancel, InnerAnswers, PullContinues];
  }

  /** One request's whole exchange: how its answer came, and how its body was consumed. */
  function Exchange(a: Answer, es: seq<Event>): State {
    match a
    case Throws => EndHold(FRESH)
    case NoBody => EndHold(FRESH)
    case Streams(b) => Run(b, FRESH, es)
  }

  /**
   * No exchange ends its hold twice, and none that has come to its end leaves it: whether the answer threw,
   * had no body, or had one that closed, failed or was let go, the hold lingers exactly once.
   */
  lemma EveryExitEndsOnce(a: Answer, es: seq<Event>)
    ensures var s := Exchange(a, es);
            && s.lingers <= 1
            && ((a.Streams? ==> !a.body.ending.Stalls? && !Owed(a.body, s)) ==> s.lingers == 1)
  {
    if a.Streams? {
      HoldEndsExactlyAtTheLast(a.body, es);
      if !a.body.ending.Stalls? && !Owed(a.body, Run(a.body, FRESH, es)) { NothingOwedMeansEnded(a.body, es); }
    }
  }

  /** `heldUntilSent` and its stream, as the code updates them. */
  class Wrapper {
    const body: Body
    var queue: seq<Chunk>
    var phase: Phase
    var pull: Pull
    var position: nat
    var innerCancelled: bool
    var cancelled: bool
    var received: seq<Chunk>
    var ended: bool
    var endCalls: nat
    var lingers: nat

    function Abstract(): State
      reads this
    {
      State(queue, phase, pull, position, innerCancelled, cancelled, received, ended, endCalls, lingers)
    }

    constructor (b: Body)
      ensures Abstract() == FRESH && body == b
    {
      body := b;
      queue, phase, pull, position := [], Readable, Idle, 0;
      innerCancelled, cancelled, received := false, false, [];
      ended, endCalls, lingers := false, 0, 0;
    }

    method End()
      modifies this`ended, this`endCalls, this`lingers
      ensures Abstract() == EndHold(old(Abstract()))
    {
      endCalls := endCalls + 1;
      if ended { return; }
      ended := true;
      lingers := lingers + 1;
    }

    /** `controller.error`. */
    method ControllerError(e: Error)
      modifies this`phase, this`queue
      ensures Abstract() == Fail(old(Abstract()), e)
    {
      if phase.Readable? || phase.Closing? { phase, queue := Errored(e), []; }
    }

    /** `controller.enqueue`; false for the throw. */
    method Enqueue(c: Chunk) returns (ok: bool)
      modifies this`queue
      ensures ok == old(phase).Readable?
      ensures queue == if ok then old(queue) + [c] else old(queue)
    {
      ok := phase.Readable?;
      if ok { queue := queue + [c]; }
    }

    /** `controller.close`; false for the throw. */
    method Close() returns (ok: bool)
      modifies this`phase
      ensures ok == old(phase).Readable?
      ensures phase == if ok then (if queue == [] then Closed else Closing) else old(phase)
    {
      ok := phase.Readable?;
      if ok { phase := if queue == [] then Closed else Closing; }
    }

    /** The rest of `pull`, once `reader.read()` has settled. */
    method AfterRead()
      requires pull.Answered?
      modifies this
      ensures Abstract() == Step(body, old(Abstract()), PullContinues)
    {
      var r := pull.reading;
      pull := Idle;
      match r {
        case Done =>
          End();
          var ok := Close();
          if !ok { End(); ControllerError(TYPE_ERROR); }
        case Value(c) =>
          var ok := Enqueue(c);
          if !ok { End(); ControllerError(TYPE_ERROR); }
        case Failure(e) =>
          End();
          ControllerError(e);
      }
    }

    /** The machinery's cancel steps, then the wrapper's own `cancel(reason)`. */
    method CancelBody()
      requires phase.Readable? || phase.Closing?
      modifies this
      ensures Abstract() == Step(body, old(Abstract()), Cancel)
    {
      phase, queue, cancelled := Closed, [], true;
      End();
      innerCancelled := true;
    }
  }
}
