/**
 * The update pane's view of the shell's update flow (apps/desktop/src/DesktopUpdate.tsx over
 * apps/desktop/src/update.ts): listen first, then ask; drop an answer if a pushed report landed while
 * it was in flight; one cancellation per effect run; a re-read after every press.
 *
 * The pane opens and closes any number of times, each opening a fresh component over the one
 * registration the module makes. Pushes arrive in order. Everything else is asynchronous: a read is
 * snapshotted by the shell at one instant and answered at any later one, reads overtake each other and
 * the pushes, registrations complete late, and the answers an earlier opening asked for still arrive.
 */
module UpdateFeed {
  import opened Prelude

  type Report = int

  /** The module's one registration with the shell. */
  datatype Listening = Unasked | Asked | On | Refused

  /** One effect run's subscription: awaiting the registration, kept in `off`, or released. */
  datatype Subscription = Registering | Holding | Released

  datatype EffectRun = EffectRun(cancelled: bool, subscription: Subscription)

  /** What a person can press: the button and the switch, each its own busy flag. */
  datatype Control = Button | Switch

  datatype Asker = Mount(run: nat) | Pressed(pane: nat, control: Control)

  /** Where a read is: behind a press the shell has not taken, on its way, or snapshotted. */
  datatype Stage = Pressing | OnItsWay | Taken(report: Report)

  datatype Read = Read(asker: Asker, at: nat, stage: Stage)

  /** The shell and the module's cells, then the component's of opening number `pane`. */
  datatype State = State(
    shell: Report, listening: Listening, answered: bool, channel: seq<Report>,
    subscribers: set<nat>, runs: seq<EffectRun>, inFlight: map<nat, Read>, nextRead: nat,
    pane: nat, mounted: bool, pushes: nat, report: Option<Report>, busy: set<Control>)

  datatype Event =
    | Move(report: Report)      // the shell's flow moves; once it is listened to, it says so
    | ShellListens(ok: bool)
    | ListenAnswered
    | Deliver                   // the oldest push reaches this window
    | Open                      // a fresh pane, in the place of any other
    | Close
    | Replay                    // React's strict replay: cleanup and setup with nothing between
    | Resume(run: nat)          // a run goes on after its `await onUpdateState`
    | Press(control: Control)
    | PressTaken(read: nat)
    | Snapshot(read: nat)
    | Answer(read: nat)
    | Fails(read: nat)          // the answer is null

  /** The process starts: nothing asked for, no pane. */
  function Init(shell: Report): State {
    State(shell, Unasked, false, [], {}, [], map[], 0, 0, false, 0, None, {})
  }

  /** The subscribers a push reaches: those whose run is not cancelled. */
  function ToldOf(subscribers: set<nat>, runs: seq<EffectRun>): set<nat> {
    set i | i in subscribers && i < |runs| && !runs[i].cancelled
  }

  function Told(s: State): set<nat> {
    ToldOf(s.subscribers, s.runs)
  }

  function SetUp(s: State): State {
    s.(runs := s.runs + [EffectRun(false, Registering)], subscribers := s.subscribers + {|s.runs|},
       listening := if s.listening.Unasked? then Asked else s.listening, mounted := true)
  }

  function CleanUp(s: State): State {
    if !s.mounted || s.runs == [] then s
    else
      var i := |s.runs| - 1;
      var held := s.runs[i].subscription.Holding?;
      s.(runs := s.runs[i := EffectRun(true, if held then Released else s.runs[i].subscription)],
         subscribers := if held then s.subscribers - {i} else s.subscribers, mounted := false)
  }

  /** A component of its own: no report yet, no push counted, nothing pressed. */
  function Fresh(s: State): State {
    s.(pane := s.pane + 1, pushes := 0, report := None, busy := {})
  }

  /** The asker is still there: its run is not cancelled, or its pane is the one on screen. */
  predicate Alive(s: State, asker: Asker) {
    match asker
    case Mount(i) => i < |s.runs| && !s.runs[i].cancelled
    case Pressed(pane, _) => s.mounted && pane == s.pane
  }

  /** A read that has been snapshotted, whose answer would be painted now. */
  predicate Paints(s: State, i: nat) {
    i in s.inFlight && s.inFlight[i].stage.Taken? && Alive(s, s.inFlight[i].asker) && s.pushes == s.inFlight[i].at
  }

  /** A report set is a fresh object, so the effect that un-marks the controls runs. */
  function Paint(s: State, r: Report): State {
    s.(report := Some(r), busy := {})
  }

  function Ask(s: State, asker: Asker, stage: Stage): State {
    s.(inFlight := s.inFlight[s.nextRead := Read(asker, s.pushes, stage)], nextRead := s.nextRead + 1)
  }

  function Step(s: State, e: Event): State {
    match e
    case Move(r) => s.(shell := r, channel := if s.listening.On? then s.channel + [r] else s.channel)
    case ShellListens(ok) => if s.listening.Asked? then s.(listening := if ok then On else Refused) else s
    case ListenAnswered => if s.listening.On? || s.listening.Refused? then s.(answered := true) else s
    case Deliver =>
      if s.channel == [] then s
      else
        var t := s.(channel := s.channel[1..], pushes := s.pushes + |Told(s)|);
        if Told(s) == {} then t else Paint(t, s.channel[0])
    case Open => SetUp(Fresh(CleanUp(s)))
    case Close => CleanUp(s)
    case Replay => if s.mounted then SetUp(CleanUp(s)) else s
    case Resume(i) =>
      if !s.answered || i >= |s.runs| || !s.runs[i].subscription.Registering? then s
      else if s.runs[i].cancelled then
        s.(runs := s.runs[i := EffectRun(true, Released)], subscribers := s.subscribers - {i})
      else Ask(s.(runs := s.runs[i := EffectRun(false, Holding)]), Mount(i), OnItsWay)
    case Press(c) =>
      if s.mounted && s.report.Some? && c !in s.busy
      then Ask(s.(busy := s.busy + {c}), Pressed(s.pane, c), Pressing) else s
    case PressTaken(i) =>
      if i in s.inFlight && s.inFlight[i].stage.Pressing?
      then s.(inFlight := s.inFlight[i := s.inFlight[i].(stage := OnItsWay)]) else s
    case Snapshot(i) =>
      if i in s.inFlight && s.inFlight[i].stage.OnItsWay?
      then s.(inFlight := s.inFlight[i := s.inFlight[i].(stage := Taken(s.shell))]) else s
    case Answer(i) =>
      if i in s.inFlight && s.inFlight[i].stage.Taken? then
        var t := s.(inFlight := s.inFlight - {i});
        if Paints(s, i) then Paint(t, s.inFlight[i].stage.report) else t
      else s
    case Fails(i) =>
      if i in s.inFlight && !s.inFlight[i].stage.Pressing? then s.(inFlight := s.inFlight - {i}) else s
  }

  function Run(s: State, es: seq<Event>): State
    decreases es
  {
    if es == [] then s else Run(Step(s, es[0]), es[1..])
  }

  lemma {:induction false} RunThen(s: State, es: seq<Event>, e: Event)
    ensures Run(s, es + [e]) == Step(Run(s, es), e)
    decreases es
  {
    hide Step;
    if es == [] {
      assert es + [e] == [e];
    } else {
      assert (es + [e])[0] == es[0] && (es + [e])[1..] == es[1..] + [e];
      RunThen(Step(s, es[0]), es[1..], e);
    }
  }

  lemma {:induction false} RunAppend(s: State, es: seq<Event>, fs: seq<Event>)
    ensures Run(s, es + fs) == Run(Run(s, es), fs)
    decreases es
  {
    hide Step;
    if es == [] {
      assert es + fs == fs;
    } else {
      assert (es + fs)[0] == es[0] && (es + fs)[1..] == es[1..] + fs;
      RunAppend(Step(s, es[0]), es[1..], fs);
    }
  }

  // ---- Subscribers ----

  ghost predicate RunInv(s: State, i: nat)
    requires i < |s.runs|
  {
    var r := s.runs[i];
    && (i in s.subscribers <==> !r.subscription.Released?)
    && (r.subscription.Holding? ==> !r.cancelled)
    && (r.subscription.Released? ==> r.cancelled)
    && (!r.cancelled <==> s.mounted && i == |s.runs| - 1)
  }

  ghost predicate SubscribersInv(s: State) {
    && (s.mounted ==> s.runs != [])
    && (forall i :: i in s.subscribers ==> i < |s.runs|)
    && (forall i: nat :: i < |s.runs| ==> RunInv(s, i))
  }

  lemma CleanUpKeepsSubscribers(s: State)
    requires SubscribersInv(s)
    ensures SubscribersInv(CleanUp(s)) && !CleanUp(s).mounted && |CleanUp(s).runs| == |s.runs|
  {
    var t := CleanUp(s);
    forall i: nat | i < |t.runs| ensures RunInv(t, i) {
      assert RunInv(s, i);
    }
  }

  lemma SetUpKeepsSubscribers(s: State)
    requires SubscribersInv(s) && !s.mounted
    ensures SubscribersInv(SetUp(s))
  {
    var t := SetUp(s);
    forall i: nat | i < |t.runs| ensures RunInv(t, i) {
      if i < |s.runs| { assert RunInv(s, i); }
    }
  }

  lemma StepKeepsSubscribers(s: State, e: Event)
    requires SubscribersInv(s)
    ensures SubscribersInv(Step(s, e))
  {
    var t := Step(s, e);
    CleanUpKeepsSubscribers(s);
    if e.Open? || (e.Replay? && s.mounted) {
      var c := if e.Open? then Fresh(CleanUp(s)) else CleanUp(s);
      assert forall i: nat :: i < |c.runs| ==> RunInv(CleanUp(s), i) ==> RunInv(c, i);
      SetUpKeepsSubscribers(c);
    } else if !e.Close? {
      forall i: nat | i < |t.runs| ensures RunInv(t, i) {
        assert RunInv(s, i);
      }
    }
  }

  lemma {:induction false} RunKeepsSubscribers(s: State, es: seq<Event>)
    requires SubscribersInv(s)
    ensures SubscribersInv(Run(s, es))
    decreases es
  {
    hide SubscribersInv, Step;
    if es != [] {
      StepKeepsSubscribers(s, es[0]);
      RunKeepsSubscribers(Step(s, es[0]), es[1..]);
    }
  }

  predicate RegistrationsSettled(s: State) {
    forall i :: 0 <= i < |s.runs| ==> !s.runs[i].subscription.Registering?
  }

  /**
   * No leaked subscriber. After any sequence of openings, closings and replays, with registrations that
   * completed however late, the subscribers left are exactly the run on screen: one while a pane
   * is mounted, none once it is not.
   */
  lemma NoLeakedSubscriber(shell: Report, es: seq<Event>)
    requires RegistrationsSettled(Run(Init(shell), es))
    ensures var s := Run(Init(shell), es);
            s.subscribers == if s.mounted then {|s.runs| - 1} else {}
  {
    var s := Run(Init(shell), es);
    RunKeepsSubscribers(Init(shell), es);
    forall i | i in s.subscribers ensures s.mounted && i == |s.runs| - 1 {
      assert RunInv(s, i);
    }
    if s.mounted { assert RunInv(s, |s.runs| - 1); }
  }

  // ---- Agreement ----

  /** A read names an asker that has been; one whose asker is still there cannot have missed a push. */
  ghost predicate ReadInv(s: State, r: Read) {
    && (match r.asker case Mount(i) => i < |s.runs| case Pressed(pane, _) => pane <= s.pane)
    && (Alive(s, r.asker) ==> r.at <= s.pushes)
    && (Alive(s, r.asker) && r.stage.Taken? && s.listening.On? ==>
          r.stage.report == s.shell || s.channel != [] || r.at < s.pushes)
  }

  ghost predicate ReadsInv(s: State) {
    forall i :: i in s.inFlight ==> i < s.nextRead && ReadInv(s, s.inFlight[i])
  }

  ghost predicate FeedInv(s: State) {
    && (s.answered ==> s.listening.On? || s.listening.Refused?)
    && (!s.listening.On? ==> s.channel == [])
    && (s.listening.On? && s.channel != [] ==> s.channel[|s.channel| - 1] == s.shell)
    && (s.listening.Unasked? || s.listening.Asked? ==> s.inFlight == map[] && s.report.None?)
    && (s.pushes > 0 ==> s.report.Some? && s.listening.On?)
    && (s.mounted && s.listening.On? && s.channel == [] && s.report.Some? ==> s.report.value == s.shell)
  }

  ghost predicate Inv(s: State) {
    SubscribersInv(s) && ReadsInv(s) && FeedInv(s)
  }

  lemma ToldIsTheLiveRun(s: State)
    requires SubscribersInv(s)
    ensures Told(s) == if s.mounted then {|s.runs| - 1} else {}
  {
    forall i | i in Told(s) ensures s.mounted && i == |s.runs| - 1 {
      assert RunInv(s, i);
    }
    if s.mounted { assert RunInv(s, |s.runs| - 1); }
  }

  /** What a step does to an asker: one that is there afterwards was there before, or is new. */
  lemma AliveWasAlive(s: State, e: Event, asker: Asker)
    requires SubscribersInv(s) && Alive(Step(s, e), asker)
    requires match asker case Mount(i) => i < |s.runs| case Pressed(pane, _) => pane <= s.pane
    ensures Alive(s, asker) && !e.Open?
  {
    if asker.Mount? { assert RunInv(s, asker.run); }
  }

  lemma AliveIsMounted(s: State, asker: Asker)
    requires SubscribersInv(s) && Alive(s, asker)
    ensures s.mounted
  {
    if asker.Mount? { assert RunInv(s, asker.run); }
  }

  lemma OthersLeaveTheFeed(s: State, e: Event)
    requires Inv(s) && !e.Answer? && !e.Deliver? && !e.Move? && !e.ShellListens? && !e.Open?
    ensures var t := Step(s, e);
            && t.shell == s.shell && t.channel == s.channel && t.pushes == s.pushes && t.report == s.report
            && (t.listening == s.listening || (s.listening.Unasked? && t.listening.Asked?))
            && (t.answered ==> s.answered || s.listening.On? || s.listening.Refused?)
            && (t.mounted ==> s.mounted)
            && (t.inFlight == map[] || s.inFlight != map[] || s.answered || s.report.Some?)
  {
    hide SubscribersInv, ReadsInv;
  }

  lemma StepKeepsFeed(s: State, e: Event)
    requires Inv(s)
    ensures FeedInv(Step(s, e))
  {
    ToldIsTheLiveRun(s);
    if e.Answer? && e.read in s.inFlight { assert ReadInv(s, s.inFlight[e.read]); }
    hide SubscribersInv, ReadsInv, ToldOf;
    if !e.Answer? && !e.Deliver? && !e.Move? && !e.ShellListens? && !e.Open? {
      OthersLeaveTheFeed(s, e);
      hide Step;
    }
  }

  lemma StepKeepsOneRead(s: State, e: Event, i: nat)
    requires Inv(s) && i in s.inFlight && i in Step(s, e).inFlight
    ensures ReadInv(Step(s, e), Step(s, e).inFlight[i])
  {
    var t, r := Step(s, e), s.inFlight[i];
    assert ReadInv(s, r) && i < s.nextRead;
    ToldIsTheLiveRun(s);
    if Alive(t, r.asker) { AliveWasAlive(s, e, r.asker); }
    if Alive(s, r.asker) { AliveIsMounted(s, r.asker); }
    ReadAfter(s, e, i);
    StaysPut(s, e);
    hide SubscribersInv, ReadsInv;
    if !e.Move? && !e.ShellListens? && !e.Deliver? && !e.Open? { hide Step; }
  }

  /** What a step leaves of a read: its asker and count, and its stage or a snapshot of the shell as it is. */
  lemma ReadAfter(s: State, e: Event, i: nat)
    requires i in s.inFlight && i < s.nextRead
    ensures i in Step(s, e).inFlight ==>
              var r, q := s.inFlight[i], Step(s, e).inFlight[i];
              && q.asker == r.asker && q.at == r.at
              && (q.stage.Taken? ==> q.stage == r.stage || (e == Snapshot(i) && q.stage.report == s.shell))
    ensures i !in Step(s, e).inFlight ==>
              (e == Fails(i) && !s.inFlight[i].stage.Pressing?) || (e == Answer(i) && s.inFlight[i].stage.Taken?)
  {
  }

  lemma StaysPut(s: State, e: Event)
    ensures var t := Step(s, e);
            && |s.runs| <= |t.runs| && s.pane <= t.pane
            && (!e.Move? && !e.ShellListens? && !e.Deliver? && !e.Open? ==>
                  t.shell == s.shell && (t.listening.On? <==> s.listening.On?) && t.channel == s.channel
                  && t.pushes == s.pushes && t.pane == s.pane)
  {
  }

  lemma StepKeepsReads(s: State, e: Event)
    requires Inv(s)
    ensures ReadsInv(Step(s, e))
  {
    var t := Step(s, e);
    forall i | i in t.inFlight ensures i < t.nextRead && ReadInv(t, t.inFlight[i]) {
      if i in s.inFlight { StepKeepsOneRead(s, e, i); }
    }
  }

  lemma {:induction false} RunKeepsInv(s: State, es: seq<Event>)
    requires Inv(s)
    ensures Inv(Run(s, es))
    decreases es
  {
    hide SubscribersInv, ReadsInv, FeedInv, Step;
    if es != [] {
      StepKeepsSubscribers(s, es[0]);
      StepKeepsFeed(s, es[0]);
      StepKeepsReads(s, es[0]);
      RunKeepsInv(Step(s, es[0]), es[1..]);
    }
  }

  /**
   * Agreement with reads still out. In every interleaving of openings, closings, shell moves, pushes,
   * reads and presses, a mounted pane that shows a report shows the shell's current one, unless a
   * push is on its way to it or the shell does not say when it moves.
   */
  lemma NothingPushedMeansCurrent(shell: Report, es: seq<Event>)
    requires var s := Run(Init(shell), es);
             s.mounted && s.listening.On? && s.channel == [] && s.report.Some?
    ensures var s := Run(Init(shell), es); s.report == Some(s.shell)
  {
    RunKeepsInv(Init(shell), es);
  }

  /** Nothing is in flight: no push, no read, and the run on screen has its registration. */
  predicate Quiescent(s: State) {
    && s.channel == [] && s.inFlight == map[]
    && (s.mounted && s.runs != [] ==> !s.runs[|s.runs| - 1].subscription.Registering?)
  }

  /** The state after the first `k` events. */
  function At(s: State, es: seq<Event>, k: nat): State
    requires k <= |es|
  {
    Run(s, es[..k])
  }

  lemma AtThen(s: State, es: seq<Event>, e: Event, k: nat)
    requires k <= |es|
    ensures At(s, es + [e], k) == At(s, es, k)
  {
    assert (es + [e])[..k] == es[..k];
  }

  /** The event is the failure of a read that `asker` has out. */
  predicate Empties(s: State, e: Event, asker: Asker) {
    e.Fails? && e.read in s.inFlight && !s.inFlight[e.read].stage.Pressing? && s.inFlight[e.read].asker == asker
  }

  /** A read that `asker` asked for has come back empty. */
  ghost predicate CameBackEmpty(s: State, es: seq<Event>, asker: Asker) {
    exists k: nat :: k < |es| && Empties(At(s, es, k), es[k], asker)
  }

  lemma EmptyThen(s: State, es: seq<Event>, e: Event, asker: Asker)
    ensures CameBackEmpty(s, es, asker) || Empties(Run(s, es), e, asker) ==> CameBackEmpty(s, es + [e], asker)
  {
    hide Run, Empties;
    AtThen(s, es, e, |es|);
    assert es[..|es|] == es && (es + [e])[|es|] == e;
    if CameBackEmpty(s, es, asker) {
      var k: nat :| k < |es| && Empties(At(s, es, k), es[k], asker);
      AtThen(s, es, e, k);
      assert Empties(At(s, es + [e], k), (es + [e])[k], asker);
    }
  }

  /** The run on screen. */
  function OnScreen(s: State): Asker {
    Mount(if s.runs == [] then 0 else |s.runs| - 1)
  }

  /** The run on screen has its subscription, and no report. */
  predicate Blank(s: State) {
    s.mounted && s.runs != [] && s.runs[|s.runs| - 1].subscription.Holding? && s.report.None?
  }

  /** The run on screen still has its read out. */
  ghost predicate MountAsks(s: State) {
    exists i :: i in s.inFlight && s.inFlight[i].asker == OnScreen(s)
  }

  /** A press of this control still has its re-read out, with no push since. */
  ghost predicate ControlAsks(s: State, c: Control) {
    exists i :: i in s.inFlight && s.inFlight[i].asker == Pressed(s.pane, c) && s.inFlight[i].at == s.pushes
  }

  /** Whoever waits for an answer has asked for it, and has it coming or has had it come back empty. */
  ghost predicate Owed(s: State, es: seq<Event>) {
    var t := Run(s, es);
    && (Blank(t) ==> MountAsks(t) || CameBackEmpty(s, es, OnScreen(t)))
    && (forall c :: t.mounted && c in t.busy ==> ControlAsks(t, c) || CameBackEmpty(s, es, Pressed(t.pane, c)))
  }

  /** A run that holds its subscription held it before, or asks now. */
  lemma HoldingWasHolding(s: State, e: Event)
    requires SubscribersInv(s)
    requires var t := Step(s, e); t.mounted && t.runs[|t.runs| - 1].subscription.Holding? && t.report.None?
    ensures var t, last := Step(s, e), |Step(s, e).runs| - 1;
            || (s.mounted && |s.runs| == |t.runs| && s.runs[last].subscription.Holding? && s.report.None?
                && !s.runs[last].cancelled && (e.Answer? ==> !Paints(s, e.read)))
            || (s.nextRead in t.inFlight && t.inFlight[s.nextRead].asker == Mount(last))
  {
    ToldIsTheLiveRun(s);
    if s.mounted { assert RunInv(s, |s.runs| - 1); }
    hide SubscribersInv;
  }

  /** A blank pane was blank, with no read out, unless it still asks or its read has just come back empty. */
  lemma StillBlank(s: State, e: Event)
    requires Inv(s) && Blank(Step(s, e))
    ensures var t := Step(s, e);
            MountAsks(t) || Empties(s, e, OnScreen(t)) || (Blank(s) && OnScreen(s) == OnScreen(t) && !MountAsks(s))
  {
    HoldingWasHolding(s, e);
    hide Step, SubscribersInv;
    if Blank(s) && OnScreen(s) == OnScreen(Step(s, e)) && MountAsks(s) {
      var i :| i in s.inFlight && s.inFlight[i].asker == OnScreen(s);
      assert ReadInv(s, s.inFlight[i]);
      ReadAfter(s, e, i);
    }
  }

  /** A busy control was busy, over the same count of pushes, or has just been pressed. */
  lemma BusyWasBusy(s: State, e: Event, c: Control)
    requires SubscribersInv(s) && var t := Step(s, e); t.mounted && c in t.busy
    ensures var t := Step(s, e);
            if c in s.busy
            then s.mounted && t.pane == s.pane && t.pushes == s.pushes && (e.Answer? ==> !Paints(s, e.read))
            else s.nextRead in t.inFlight && t.inFlight[s.nextRead] == Read(Pressed(t.pane, c), t.pushes, Pressing)
  {
    ToldIsTheLiveRun(s);
    hide SubscribersInv;
  }

  /** A busy control was busy, with no re-read out, unless it still asks or its re-read has just come back empty. */
  lemma StillBusy(s: State, e: Event, c: Control)
    requires Inv(s) && Step(s, e).mounted && c in Step(s, e).busy
    ensures var t := Step(s, e);
            || ControlAsks(t, c) || Empties(s, e, Pressed(t.pane, c))
            || (s.mounted && c in s.busy && s.pane == t.pane && !ControlAsks(s, c))
  {
    BusyWasBusy(s, e, c);
    hide Step, SubscribersInv, FeedInv;
    if c in s.busy && ControlAsks(s, c) {
      var i :| i in s.inFlight && s.inFlight[i].asker == Pressed(s.pane, c) && s.inFlight[i].at == s.pushes;
      assert ReadInv(s, s.inFlight[i]);
      ReadAfter(s, e, i);
    }
  }

  lemma StepKeepsOwed(s: State, es: seq<Event>, e: Event)
    requires Inv(Run(s, es)) && Owed(s, es)
    ensures Owed(s, es + [e])
  {
    RunThen(s, es, e);
    var p := Run(s, es);
    var t := Step(p, e);
    hide Run, Step, CameBackEmpty, Empties, Inv, MountAsks, ControlAsks, Blank;
    if Blank(t) {
      StillBlank(p, e);
      EmptyThen(s, es, e, OnScreen(t));
    }
    forall c | t.mounted && c in t.busy ensures ControlAsks(t, c) || CameBackEmpty(s, es + [e], Pressed(t.pane, c)) {
      StillBusy(p, e, c);
      EmptyThen(s, es, e, Pressed(t.pane, c));
    }
  }

  lemma {:induction false} RunOwes(shell: Report, es: seq<Event>)
    ensures Inv(Run(Init(shell), es)) && Owed(Init(shell), es)
    decreases |es|
  {
    RunKeepsInv(Init(shell), es);
    if es != [] {
      var n := |es| - 1;
      assert es == es[..n] + [es[n]];
      hide Run, Inv, Owed;
      RunOwes(shell, es[..n]);
      StepKeepsOwed(Init(shell), es[..n], es[n]);
    }
  }

  /**
   * Quiescent agreement. However often the pane has been opened and closed, and however the shell's
   * moves, the pushes, the reads, the presses and their re-reads interleave, once nothing is in flight
   * the mounted pane shows the shell's current report and nothing it pressed is left busy. It shows
   * none only where the very read of the run on screen came back empty, and leaves a control busy only
   * where a re-read of that control's, pressed in this opening, did.
   */
  lemma QuiescentAgreement(shell: Report, es: seq<Event>)
    requires var s := Run(Init(shell), es); s.mounted && s.listening.On? && Quiescent(s)
    ensures var s := Run(Init(shell), es);
            && (s.report == Some(s.shell) || (s.report == None && CameBackEmpty(Init(shell), es, OnScreen(s))))
            && (forall c :: c in s.busy ==> CameBackEmpty(Init(shell), es, Pressed(s.pane, c)))
  {
    var s := Run(Init(shell), es);
    RunOwes(shell, es);
    hide CameBackEmpty, Run;
    assert s.runs != [] && RunInv(s, |s.runs| - 1);
    assert forall c :: !ControlAsks(s, c);
    assert !MountAsks(s);
  }

  // ---- A shell that refused the registration ----

  /** The read `i` was snapshotted at `k`, when the shell's report was `r`. */
  ghost predicate SnapshotAt(s: State, es: seq<Event>, k: nat, i: nat, r: Report) {
    k < |es| && es[k] == Snapshot(i) && At(s, es, k).shell == r
  }

  /** The report on screen was painted at `m`, by the answer to a read snapshotted at `k`, and by none since. */
  ghost predicate ShownFrom(s: State, es: seq<Event>, k: nat, m: nat, r: Report) {
    && k < m < |es| && es[m].Answer? && Paints(At(s, es, m), es[m].read) && SnapshotAt(s, es, k, es[m].read, r)
    && forall j: nat :: m < j < |es| ==> !(es[j].Answer? && Paints(At(s, es, j), es[j].read))
  }

  /** Where every snapshot in flight, and a report no push has touched, come from. */
  ghost predicate Sourced(s: State, es: seq<Event>) {
    var t := Run(s, es);
    && (forall i :: i in t.inFlight && t.inFlight[i].stage.Taken? ==>
          exists k: nat :: SnapshotAt(s, es, k, i, t.inFlight[i].stage.report))
    && (t.report.Some? ==> exists k: nat, m: nat :: ShownFrom(s, es, k, m, t.report.value))
  }

  lemma SnapshotStays(s: State, es: seq<Event>, e: Event, k: nat, i: nat, r: Report)
    requires SnapshotAt(s, es, k, i, r)
    ensures SnapshotAt(s, es + [e], k, i, r)
  {
    AtThen(s, es, e, k);
  }

  lemma ShownStays(s: State, es: seq<Event>, e: Event, k: nat, m: nat, r: Report)
    requires ShownFrom(s, es, k, m, r) && !(e.Answer? && Paints(Run(s, es), e.read))
    ensures ShownFrom(s, es + [e], k, m, r)
  {
    hide Run, Paints;
    AtThen(s, es, e, m);
    SnapshotStays(s, es, e, k, es[m].read, r);
    AtThen(s, es, e, |es|);
    assert es[..|es|] == es;
    forall j: nat | m < j < |es + [e]|
      ensures !((es + [e])[j].Answer? && Paints(At(s, es + [e], j), (es + [e])[j].read))
    {
      AtThen(s, es, e, j);
    }
  }

  lemma TakenBySnapshot(p: State, e: Event, i: nat)
    requires i in Step(p, e).inFlight && Step(p, e).inFlight[i].stage.Taken?
    ensures || (i in p.inFlight && p.inFlight[i] == Step(p, e).inFlight[i])
            || (e == Snapshot(i) && Step(p, e).inFlight[i].stage.report == p.shell)
  {
  }

  lemma StepKeepsTaken(s: State, es: seq<Event>, e: Event, i: nat)
    requires Sourced(s, es)
    requires var t := Step(Run(s, es), e); i in t.inFlight && t.inFlight[i].stage.Taken?
    ensures exists k: nat :: SnapshotAt(s, es + [e], k, i, Step(Run(s, es), e).inFlight[i].stage.report)
  {
    hide Step, Run;
    var p, t := Run(s, es), Step(Run(s, es), e);
    TakenBySnapshot(p, e, i);
    if i in p.inFlight && p.inFlight[i] == t.inFlight[i] {
      var k: nat :| SnapshotAt(s, es, k, i, p.inFlight[i].stage.report);
      hide Sourced;
      SnapshotStays(s, es, e, k, i, p.inFlight[i].stage.report);
    } else {
      AtThen(s, es, e, |es|);
      assert es[..|es|] == es && (es + [e])[|es|] == e;
      assert SnapshotAt(s, es + [e], |es|, i, p.shell);
    }
  }

  lemma PaintIsShown(s: State, es: seq<Event>, e: Event)
    requires Sourced(s, es) && e.Answer? && Paints(Run(s, es), e.read)
    ensures exists k: nat, m: nat :: ShownFrom(s, es + [e], k, m, Run(s, es).inFlight[e.read].stage.report)
  {
    var r := Run(s, es).inFlight[e.read].stage.report;
    var k: nat :| SnapshotAt(s, es, k, e.read, r);
    hide Sourced, Run;
    SnapshotStays(s, es, e, k, e.read, r);
    AtThen(s, es, e, |es|);
    assert es[..|es|] == es && (es + [e])[|es|] == e;
    assert ShownFrom(s, es + [e], k, |es|, r);
  }

  lemma AnswerPaints(s: State, i: nat)
    requires Paints(s, i)
    ensures Step(s, Answer(i)) == Paint(s.(inFlight := s.inFlight - {i}), s.inFlight[i].stage.report)
  {
  }

  lemma ReportKept(p: State, e: Event)
    requires p.channel == [] && !(e.Answer? && Paints(p, e.read)) && Step(p, e).report.Some?
    ensures Step(p, e).report == p.report
  {
  }

  lemma StepKeepsSourced(s: State, es: seq<Event>, e: Event)
    requires FeedInv(Run(s, es)) && Sourced(s, es) && !Run(s, es).listening.On?
    ensures Sourced(s, es + [e])
  {
    RunThen(s, es, e);
    var p, fs := Run(s, es), es + [e];
    var t := Step(p, e);
    hide Run, Step;
    forall i | i in t.inFlight && t.inFlight[i].stage.Taken?
      ensures exists k: nat :: SnapshotAt(s, fs, k, i, t.inFlight[i].stage.report)
    {
      StepKeepsTaken(s, es, e, i);
    }
    if e.Answer? && Paints(p, e.read) {
      PaintIsShown(s, es, e);
      AnswerPaints(p, e.read);
    } else if t.report.Some? {
      ReportKept(p, e);
      var k: nat, m: nat :| ShownFrom(s, es, k, m, p.report.value);
      hide Sourced;
      ShownStays(s, es, e, k, m, p.report.value);
    }
  }

  /** A registration once taken stays taken. */
  lemma {:induction false} OnStaysOn(s: State, es: seq<Event>)
    requires s.listening.On?
    ensures Run(s, es).listening.On?
    decreases es
  {
    if es != [] { OnStaysOn(Step(s, es[0]), es[1..]); }
  }

  lemma NotOnBefore(s: State, e: Event)
    requires !Step(s, e).listening.On?
    ensures !s.listening.On?
  {
  }

  lemma InitInv(shell: Report)
    ensures Inv(Init(shell))
  {
  }

  lemma {:induction false} RunSources(shell: Report, es: seq<Event>)
    requires !Run(Init(shell), es).listening.On?
    ensures Sourced(Init(shell), es)
    decreases |es|
  {
    if es != [] {
      var n := |es| - 1;
      assert es == es[..n] + [es[n]];
      RunThen(Init(shell), es[..n], es[n]);
      InitInv(shell);
      hide Run, Sourced, SubscribersInv, ReadsInv, FeedInv;
      RunKeepsInv(Init(shell), es[..n]);
      assert !Run(Init(shell), es[..n]).listening.On? by { NotOnBefore(Run(Init(shell), es[..n]), es[n]); }
      RunSources(shell, es[..n]);
      StepKeepsSourced(Init(shell), es[..n], es[n]);
    }
  }

  /**
   * Where the shell does not say when it moves, the pane shows what the shell said when the read
   * answered last was snapshotted, and nothing painted since: so it is current exactly as long as
   * that is still what the shell says.
   */
  lemma RefusedShowsTheLastAnswer(shell: Report, es: seq<Event>)
    requires var s := Run(Init(shell), es); s.listening.Refused? && s.report.Some?
    ensures exists k: nat, m: nat :: ShownFrom(Init(shell), es, k, m, Run(Init(shell), es).report.value)
  {
    RunSources(shell, es);
  }

  /** With nothing in flight, a mounted pane's report is the shell's. */
  predicate Agrees(s: State) {
    s.mounted && Quiescent(s) && s.report.Some? ==> s.report.value == s.shell
  }

  /** The answer to a press's re-read leaves nothing in flight and, on screen, a report the shell has left. */
  predicate ReReadGoesStale(s: State, i: nat) {
    && Paints(s, i) && s.inFlight[i].asker.Pressed?
    && Quiescent(Step(s, Answer(i))) && !Agrees(Step(s, Answer(i)))
  }

  lemma DrainOne(s: State, i: nat)
    requires i in s.inFlight
    ensures Step(Step(s, PressTaken(i)), Fails(i)) == s.(inFlight := s.inFlight - {i})
  {
    assert Step(s, PressTaken(i)).inFlight - {i} == s.inFlight - {i};
  }

  /** Whatever is in flight can come back empty. */
  lemma {:induction false} Drain(s: State) returns (es: seq<Event>)
    ensures Run(s, es) == s.(inFlight := map[])
    decreases |s.inFlight|
  {
    if s.inFlight == map[] { return []; }
    var i :| i in s.inFlight;
    var t := Step(Step(s, PressTaken(i)), Fails(i));
    DrainOne(s, i);
    hide Step;
    var rest := Drain(t);
    var two := [PressTaken(i), Fails(i)];
    assert two == [] + [PressTaken(i)] + [Fails(i)];
    RunThen(s, [], PressTaken(i));
    RunThen(s, [PressTaken(i)], Fails(i));
    RunAppend(s, two, rest);
    es := two + rest;
  }

  /** A pane opened where nothing is in flight, its mount's read answered. */
  lemma OpenedAndRead(s: State) returns (es: seq<Event>)
    requires s.listening.Refused? && s.answered && s.inFlight == map[] && s.channel == []
    ensures var t := Run(s, es);
            && t.mounted && t.report == Some(t.shell) && t.busy == {} && t.inFlight == map[] && t.channel == []
            && t.listening.Refused? && t.shell == s.shell
            && t.runs != [] && t.runs[|t.runs| - 1].subscription.Holding?
  {
    var n, r := |s.runs|, s.nextRead;
    var a := Step(s, Open);
    var b := Step(a, Resume(n));
    assert b.inFlight == map[r := Read(Mount(n), 0, OnItsWay)];
    var c := Step(b, Snapshot(r));
    assert c.inFlight == map[r := Read(Mount(n), 0, Taken(s.shell))];
    var d := Step(c, Answer(r));
    assert d.inFlight == map[];
    hide Step;
    es := RunsFour(s, Open, Resume(n), Snapshot(r), Answer(r));
  }

  lemma LastGoesStale(d: State, r: nat, was: Report)
    requires d.inFlight.Keys == {r} && Paints(d, r) && d.inFlight[r].asker.Pressed?
    requires d.inFlight[r].stage.report == was != d.shell && d.channel == []
    requires d.runs != [] && d.runs[|d.runs| - 1].subscription.Holding?
    ensures ReReadGoesStale(d, r)
  {
    assert d.inFlight - {r} == map[];
  }

  /** The two presses are taken, and both re-reads are on their way. */
  lemma BothPressed(s: State) returns (es: seq<Event>)
    requires s.mounted && s.report.Some? && s.busy == {} && s.inFlight == map[]
    ensures Run(s, es) == s.(
              busy := {Button, Switch}, nextRead := s.nextRead + 2,
              inFlight := map[s.nextRead := Read(Pressed(s.pane, Button), s.pushes, OnItsWay),
                              s.nextRead + 1 := Read(Pressed(s.pane, Switch), s.pushes, OnItsWay)])
  {
    var r := s.nextRead;
    var button, switch := Read(Pressed(s.pane, Button), s.pushes, OnItsWay), Read(Pressed(s.pane, Switch), s.pushes, OnItsWay);
    var a := Step(s, Press(Button));
    var b := Step(a, PressTaken(r));
    assert b.inFlight == map[r := button];
    var c := Step(b, Press(Switch));
    var d := Step(c, PressTaken(r + 1));
    assert d.inFlight == map[r := button, r + 1 := switch];
    hide Step;
    es := RunsFour(s, Press(Button), PressTaken(r), Press(Switch), PressTaken(r + 1));
  }

  lemma RunsFour(s: State, e: Event, f: Event, g: Event, h: Event) returns (es: seq<Event>)
    ensures Run(s, es) == Step(Step(Step(Step(s, e), f), g), h)
  {
    hide Step;
    assert [] + [e] == [e] && [e] + [f] == [e, f] && [e, f] + [g] == [e, f, g] && [e, f, g] + [h] == [e, f, g, h];
    RunThen(s, [], e);
    RunThen(s, [e], f);
    RunThen(s, [e, f], g);
    RunThen(s, [e, f, g], h);
    es := [e, f, g, h];
  }

  lemma SnapshotTaken(s: State, i: nat)
    requires i in s.inFlight && s.inFlight[i].stage.OnItsWay?
    ensures Step(s, Snapshot(i)) == s.(inFlight := s.inFlight[i := s.inFlight[i].(stage := Taken(s.shell))])
  {
  }

  lemma MoveUnheard(s: State, r: Report)
    requires !s.listening.On?
    ensures Step(s, Move(r)) == s.(shell := r)
  {
  }

  /** The shell moves between the two snapshots, and the later is answered. */
  lemma LaterAnswered(b: State, r: nat)
    requires b.inFlight.Keys == {r, r + 1} && b.inFlight[r].stage.OnItsWay? && b.inFlight[r + 1].stage.OnItsWay?
    requires !b.listening.On? && Alive(b, b.inFlight[r + 1].asker) && b.pushes == b.inFlight[r + 1].at
    ensures var d := Step(Step(Step(Step(b, Snapshot(r)), Move(b.shell + 1)), Snapshot(r + 1)), Answer(r + 1));
            && d == b.(shell := b.shell + 1, report := Some(b.shell + 1), busy := {}, inFlight := d.inFlight)
            && d.inFlight.Keys == {r} && d.inFlight[r] == b.inFlight[r].(stage := Taken(b.shell))
  {
    SnapshotTaken(b, r);
    var b1 := Step(b, Snapshot(r));
    MoveUnheard(b1, b.shell + 1);
    var b2 := Step(b1, Move(b.shell + 1));
    SnapshotTaken(b2, r + 1);
    var b3 := Step(b2, Snapshot(r + 1));
    AnswerPaints(b3, r + 1);
    hide Step;
  }

  /**
   * The button and the switch are pressed, and their re-reads cross: the one snapshotted before the
   * shell moved is answered last.
   */
  lemma ReReadsCross(s: State) returns (es: seq<Event>)
    requires s.mounted && s.report == Some(s.shell) && s.busy == {} && s.inFlight == map[] && s.channel == []
    requires s.listening.Refused? && s.runs != [] && s.runs[|s.runs| - 1].subscription.Holding?
    ensures ReReadGoesStale(Run(s, es), s.nextRead)
  {
    var pressed := BothPressed(s);
    var r, b := s.nextRead, Run(s, pressed);
    hide Run;
    LaterAnswered(b, r);
    hide Step, ReReadGoesStale;
    var d := Step(Step(Step(Step(b, Snapshot(r)), Move(s.shell + 1)), Snapshot(r + 1)), Answer(r + 1));
    LastGoesStale(d, r, s.shell);
    var crossed := RunsFour(b, Snapshot(r), Move(s.shell + 1), Snapshot(r + 1), Answer(r + 1));
    RunAppend(s, pressed, crossed);
    es := pressed + crossed;
  }

  /** However a refused registration was reached, a pane opened next can be left stale by a re-read. */
  lemma RefusedCanGoStale(s: State) returns (es: seq<Event>, i: nat)
    requires s.listening.Refused? && s.answered && s.channel == []
    ensures ReReadGoesStale(Run(s, es), i)
  {
    var drained := Drain(s);
    var t := Run(s, drained);
    var shown := OpenedAndRead(t);
    var u := Run(t, shown);
    var crossed := ReReadsCross(u);
    RunAppend(s, drained, shown);
    RunAppend(s, drained + shown, crossed);
    es, i := (drained + shown) + crossed, u.nextRead;
  }

  /**
   * What decides it is whether the shell took the registration. Once it has answered, whatever
   * happened before: it took it if and only if every quiescent pane that shows a report will ever agree
   * with it; and it refused it if and only if a re-read after a press can yet go stale, leaving on
   * screen, with nothing in flight, a report the shell has left.
   */
  lemma RegistrationDecides(shell: Report, es: seq<Event>)
    requires Run(Init(shell), es).answered
    ensures var s := Run(Init(shell), es);
            && (s.listening.On? <==> forall fs :: Agrees(Run(s, fs)))
            && (s.listening.Refused? <==> exists fs, i :: ReReadGoesStale(Run(s, fs), i))
  {
    var s := Run(Init(shell), es);
    RunKeepsInv(Init(shell), es);
    if s.listening.On? {
      forall fs ensures Agrees(Run(s, fs)) && forall i :: !ReReadGoesStale(Run(s, fs), i) {
        RunAgrees(s, fs);
        forall i ensures !ReReadGoesStale(Run(s, fs), i) {
          RunThen(s, fs, Answer(i));
          RunAgrees(s, fs + [Answer(i)]);
        }
      }
    } else {
      var fs, i := RefusedCanGoStale(s);
      RunThen(s, fs, Answer(i));
      assert !Agrees(Run(s, fs + [Answer(i)]));
    }
  }

  lemma RunAgrees(s: State, fs: seq<Event>)
    requires Inv(s) && s.listening.On?
    ensures Agrees(Run(s, fs))
  {
    RunKeepsInv(s, fs);
    OnStaysOn(s, fs);
  }

  // ---- What a pane can always do ----

  /** Where a pane has been opened, the registration has been asked for. */
  lemma {:induction false} RegistrationIsAsked(s: State, es: seq<Event>)
    requires s.runs != [] ==> !s.listening.Unasked?
    ensures var t := Run(s, es);
            && (t.runs != [] ==> !t.listening.Unasked?)
            && (s.runs != [] || (exists k :: 0 <= k < |es| && es[k].Open?) ==> t.runs != [])
    decreases es
  {
    if es != [] {
      StepAsks(s, es[0]);
      RegistrationIsAsked(Step(s, es[0]), es[1..]);
      assert forall k :: 1 <= k < |es| ==> es[k] == es[1..][k - 1];
    }
  }

  lemma StepAsks(s: State, e: Event)
    requires s.runs != [] ==> !s.listening.Unasked?
    ensures Step(s, e).runs != [] ==> !Step(s, e).listening.Unasked?
    ensures s.runs != [] || e.Open? ==> Step(s, e).runs != []
  {
  }

  /** Someone who is still there has a read out. */
  ghost predicate Waits(s: State) {
    exists i :: i in s.inFlight && Alive(s, s.inFlight[i].asker)
  }

  predicate LastHolds(s: State) {
    s.mounted && s.runs != [] && s.runs[|s.runs| - 1].subscription.Holding?
  }

  /**
   * Nothing is left to bring a report: no push, no read of anyone who is still there, and nothing that could
   * be pressed to ask for one.
   */
  ghost predicate Stuck(s: State) {
    && LastHolds(s) && !Waits(s)
    && if s.listening.On? then s.channel == [] && s.report.None?
       else s.report != Some(s.shell) && (s.report.None? || s.busy == {Button, Switch})
  }

  /** What can come of itself, or by a press: the pane stays, the shell stays where it is, and no read fails. */
  predicate Quietly(es: seq<Event>) {
    forall k :: 0 <= k < |es| ==> !es[k].Open? && !es[k].Close? && !es[k].Replay? && !es[k].Move? && !es[k].Fails?
  }

  predicate Shows(s: State) {
    s.mounted && Quiescent(s) && s.report == Some(s.shell)
  }

  lemma SettleRegistration(s: State, ok: bool) returns (es: seq<Event>)
    requires !s.listening.Unasked?
    ensures Quietly(es)
    ensures Run(s, es) == s.(answered := true, listening := if !s.listening.Asked? then s.listening else if ok then On else Refused)
  {
    if s.listening.Asked? {
      RunThen(s, [], ShellListens(ok));
      RunThen(s, [ShellListens(ok)], ListenAnswered);
      assert [] + [ShellListens(ok)] == [ShellListens(ok)];
      es := [ShellListens(ok)] + [ListenAnswered];
    } else {
      RunThen(s, [], ListenAnswered);
      es := [] + [ListenAnswered];
    }
  }

  lemma ResumeLast(s: State) returns (es: seq<Event>)
    requires Inv(s) && s.mounted && s.answered
    ensures Quietly(es)
    ensures var t := Run(s, es);
            && LastHolds(t) && t.shell == s.shell && t.channel == s.channel && t.report == s.report
            && t.listening == s.listening && t.busy == s.busy
            && (Waits(s) || !LastHolds(s) ==> Waits(t)) && (LastHolds(s) ==> t == s)
  {
    var last := |s.runs| - 1;
    assert RunInv(s, last);
    if LastHolds(s) { return []; }
    RunThen(s, [], Resume(last));
    es := [] + [Resume(last)];
    var t := Step(s, Resume(last));
    assert s.nextRead in t.inFlight && Alive(t, t.inFlight[s.nextRead].asker);
  }

  lemma {:induction false} DeliverAll(s: State) returns (es: seq<Event>)
    requires Inv(s) && LastHolds(s)
    ensures Quietly(es)
    ensures var t := Run(s, es);
            && LastHolds(t) && t.shell == s.shell && t.channel == [] && t.listening == s.listening
            && (s.report.Some? || s.channel != [] ==> t.report.Some?)
            && (Waits(s) ==> Waits(t)) && (s.channel == [] ==> t == s)
    decreases |s.channel|
  {
    if s.channel == [] { return []; }
    var t := Step(s, Deliver);
    ToldIsTheLiveRun(s);
    RunKeepsInv(s, [Deliver]);
    RunThen(s, [], Deliver);
    assert [] + [Deliver] == [Deliver];
    if Waits(s) {
      var i :| i in s.inFlight && Alive(s, s.inFlight[i].asker);
      assert i in t.inFlight && Alive(t, t.inFlight[i].asker);
    }
    hide Step, Inv, Waits;
    var rest := DeliverAll(t);
    RunAppend(s, [Deliver], rest);
    es := [Deliver] + rest;
  }

  /** A read can be taken, snapshotted and answered, from wherever it is. */
  lemma AnswerOne(s: State, i: nat)
    requires i in s.inFlight
    ensures var t := Step(Step(Step(s, PressTaken(i)), Snapshot(i)), Answer(i));
            var r := s.inFlight[i];
            var rest := s.(inFlight := s.inFlight - {i});
            t == if Alive(s, r.asker) && s.pushes == r.at
                 then Paint(rest, if r.stage.Taken? then r.stage.report else s.shell) else rest
  {
    var a := Step(s, PressTaken(i));
    var b := Step(a, Snapshot(i));
    assert a.inFlight - {i} == s.inFlight - {i};
    assert b.inFlight - {i} == s.inFlight - {i};
    assert b.inFlight[i].stage == Taken(if s.inFlight[i].stage.Taken? then s.inFlight[i].stage.report else s.shell);
    assert Alive(b, b.inFlight[i].asker) <==> Alive(s, s.inFlight[i].asker);
  }

  lemma RunsThree(s: State, e: Event, f: Event, g: Event) returns (es: seq<Event>)
    ensures es == [e, f, g] && Run(s, es) == Step(Step(Step(s, e), f), g)
  {
    hide Step;
    assert [] + [e] == [e] && [e] + [f] == [e, f] && [e, f] + [g] == [e, f, g];
    RunThen(s, [], e);
    RunThen(s, [e], f);
    RunThen(s, [e, f], g);
    es := [e, f, g];
  }

  /** What answering one read does to who waits, to the report and to the busy controls. */
  lemma AnswerOneLeaves(s: State, i: nat)
    requires Inv(s) && LastHolds(s) && s.channel == [] && i in s.inFlight
    ensures var t := Step(Step(Step(s, PressTaken(i)), Snapshot(i)), Answer(i));
            && LastHolds(t) && t.shell == s.shell && t.channel == [] && t.listening == s.listening
            && t.inFlight == s.inFlight - {i}
            && (s.report.Some? || (Waits(s) && !Waits(t)) ==> t.report.Some?)
            && (!s.listening.On? && ((Waits(s) && !Waits(t)) || s.busy == {}) ==> t.busy == {})
            && (Waits(t) ==> Waits(s)) && (!Waits(s) ==> t.report == s.report && t.busy == s.busy)
  {
    assert ReadInv(s, s.inFlight[i]);
    AnswerOne(s, i);
    var t := Step(Step(Step(s, PressTaken(i)), Snapshot(i)), Answer(i));
    hide Step, SubscribersInv, ReadsInv;
    WaitsLess(s, t, i);
    hide Waits;
  }

  lemma WaitsLess(s: State, t: State, i: nat)
    requires i in s.inFlight && t.inFlight == s.inFlight - {i}
    requires t.runs == s.runs && t.mounted == s.mounted && t.pane == s.pane
    ensures Waits(t) ==> Waits(s)
    ensures Waits(s) ==> Waits(t) || Alive(s, s.inFlight[i].asker)
    ensures Alive(s, s.inFlight[i].asker) ==> Waits(s)
  {
    assert forall a: Asker :: Alive(t, a) <==> Alive(s, a);
    hide Alive;
    if Waits(s) {
      var j :| j in s.inFlight && Alive(s, s.inFlight[j].asker);
      if j != i { assert j in t.inFlight && Alive(t, t.inFlight[j].asker); }
    }
  }

  /** Every read out can be answered; one asked for by someone still there leaves a report, and nothing busy. */
  lemma {:induction false} AnswerAll(s: State) returns (es: seq<Event>)
    requires Inv(s) && LastHolds(s) && s.channel == []
    ensures Quietly(es)
    ensures var t := Run(s, es);
            && LastHolds(t) && t.shell == s.shell && t.channel == [] && t.listening == s.listening && t.inFlight == map[]
            && (s.report.Some? || Waits(s) ==> t.report.Some?)
            && (!s.listening.On? && (Waits(s) || s.busy == {}) ==> t.busy == {})
            && (!Waits(s) ==> t.report == s.report && t.busy == s.busy)
    decreases |s.inFlight|
  {
    if s.inFlight == map[] { return []; }
    var i :| i in s.inFlight;
    AnswerOneLeaves(s, i);
    hide Step, Run, Inv, Waits, LastHolds;
    var three := RunsThree(s, PressTaken(i), Snapshot(i), Answer(i));
    RunKeepsInv(s, three);
    var t := Run(s, three);
    var rest := AnswerAll(t);
    RunAppend(s, three, rest);
    QuietlyBoth(three, rest);
    es := three + rest;
  }

  lemma PressAndRead(s: State, c: Control) returns (es: seq<Event>)
    requires LastHolds(s) && s.report.Some? && c !in s.busy && s.inFlight == map[]
    ensures Quietly(es) && Run(s, es) == s.(report := Some(s.shell), busy := {}, nextRead := s.nextRead + 1)
  {
    var r := s.nextRead;
    var a := Step(s, Press(c));
    AnswerOne(a, r);
    assert a.inFlight - {r} == map[];
    hide Step;
    var three := RunsThree(a, PressTaken(r), Snapshot(r), Answer(r));
    RunThen(s, [], Press(c));
    assert [] + [Press(c)] == [Press(c)];
    RunAppend(s, [Press(c)], three);
    es := [Press(c)] + three;
  }

  lemma QuietlyBoth(es: seq<Event>, fs: seq<Event>)
    requires Quietly(es) && Quietly(fs)
    ensures Quietly(es + fs)
  {
  }

  /** The last resort of a pane nobody pushes to: press, and read again. */
  lemma PressIfStale(s: State) returns (es: seq<Event>)
    requires LastHolds(s) && s.inFlight == map[] && s.channel == []
    requires s.report.Some? && (s.report == Some(s.shell) || s.busy != {Button, Switch})
    ensures Quietly(es) && Shows(Run(s, es)) && Run(s, es).listening == s.listening
  {
    if s.report == Some(s.shell) { return []; }
    AllControls(s.busy);
    es := PressAndRead(s, if Button in s.busy then Switch else Button);
  }

  lemma AllControls(busy: set<Control>)
    ensures busy == {Button, Switch} <==> Button in busy && Switch in busy
  {
    forall c | c in busy ensures c in {Button, Switch} { OneOfTwo(c); }
  }

  lemma OneOfTwo(c: Control)
    ensures c == Button || c == Switch
  {
  }

  /** Everything asked for, delivered and answered. */
  lemma Settled(s: State, ok: bool) returns (es: seq<Event>)
    requires Inv(s) && s.mounted && !s.listening.Unasked?
    ensures Quietly(es)
    ensures var t := Run(s, es);
            && Inv(t) && LastHolds(t) && t.shell == s.shell && t.channel == [] && t.inFlight == map[]
            && t.listening == (if !s.listening.Asked? then s.listening else if ok then On else Refused)
            && (s.report.Some? || s.channel != [] || Waits(s) || !LastHolds(s) ==> t.report.Some?)
            && (!t.listening.On? && (Waits(s) || !LastHolds(s)) ==> t.busy == {})
            && (!t.listening.On? && !Waits(s) && LastHolds(s) ==> t.report == s.report && t.busy == s.busy)
  {
    var a := SettleRegistration(s, ok);
    var s1 := Run(s, a);
    assert Waits(s) <==> Waits(s1);
    RunKeepsInv(s, a);
    var b := ResumeLast(s1);
    var s2 := Run(s1, b);
    RunKeepsInv(s1, b);
    var c := DeliverAll(s2);
    var s3 := Run(s2, c);
    RunKeepsInv(s2, c);
    var d := AnswerAll(s3);
    RunKeepsInv(s3, d);
    hide Run, SubscribersInv, ReadsInv, Waits, Quietly;
    RunAppend(s, a, b);
    RunAppend(s, a + b, c);
    RunAppend(s, (a + b) + c, d);
    QuietlyBoth(a, b);
    QuietlyBoth(a + b, c);
    QuietlyBoth((a + b) + c, d);
    es := ((a + b) + c) + d;
  }

  /** A pane that is not stuck comes to show the shell's report, whatever the shell says to the registration. */
  lemma CanShow(s: State, ok: bool) returns (es: seq<Event>)
    requires Inv(s) && s.mounted && !s.listening.Unasked? && !Stuck(s)
    ensures Quietly(es) && Shows(Run(s, es))
    ensures s.listening.Asked? ==> Run(s, es).listening == if ok then On else Refused
  {
    var settled := Settled(s, ok);
    var t := Run(s, settled);
    if t.listening.On? { return settled; }
    var press := PressIfStale(t);
    RunAppend(s, settled, press);
    QuietlyBoth(settled, press);
    es := settled + press;
  }

  lemma StepStaysStuck(s: State, e: Event)
    requires Inv(s) && Stuck(s) && Quietly([e])
    ensures Stuck(Step(s, e))
  {
    var t, last := Step(s, e), |s.runs| - 1;
    assert [e][0] == e && RunInv(s, last);
    if e.Press? { OneOfTwo(e.control); }
    if e.Resume? && e.run < |s.runs| { assert RunInv(s, e.run); }
    assert t.inFlight.Keys <= s.inFlight.Keys;
    forall i | i in t.inFlight ensures Alive(t, t.inFlight[i].asker) ==> Alive(s, s.inFlight[i].asker) {
      assert ReadInv(s, s.inFlight[i]);
      ReadAfter(s, e, i);
      if Alive(t, t.inFlight[i].asker) { AliveWasAlive(s, e, t.inFlight[i].asker); }
    }
    hide ReadsInv, SubscribersInv;
  }

  lemma {:induction false} StaysStuck(s: State, es: seq<Event>)
    requires Inv(s) && Stuck(s) && Quietly(es)
    ensures Stuck(Run(s, es))
    decreases es
  {
    if es != [] {
      assert Quietly([es[0]]) && Quietly(es[1..]);
      StepStaysStuck(s, es[0]);
      RunKeepsInv(s, [es[0]]);
      RunThen(s, [], es[0]);
      assert [] + [es[0]] == [es[0]];
      hide Inv, Step, Stuck;
      StaysStuck(Step(s, es[0]), es[1..]);
    }
  }

  ghost predicate CanShowUnder(s: State, ok: bool) {
    exists es :: Quietly(es) && Shows(Run(s, es)) && Run(s, es).listening == if ok then On else Refused
  }

  /**
   * A pane comes to show the shell's report. From every state a run reaches with a pane on screen, and for
   * either verdict of a shell still to answer, some course of events without a new pane, a move of the shell
   * or a failure ends with nothing in flight and the shell's report on screen, if and only if the pane
   * is not stuck; and only reads of its own that came back empty make it so.
   */
  lemma PaneShowsUnlessStuck(shell: Report, es: seq<Event>)
    requires Run(Init(shell), es).mounted
    ensures var s := Run(Init(shell), es);
            && ((exists fs :: Quietly(fs) && Shows(Run(s, fs))) <==> !Stuck(s))
            && (!Stuck(s) && s.listening.Asked? ==> forall ok: bool :: CanShowUnder(s, ok))
            && (Stuck(s) ==>
                  || (s.report.None? && CameBackEmpty(Init(shell), es, OnScreen(s)))
                  || (forall c :: CameBackEmpty(Init(shell), es, Pressed(s.pane, c))))
  {
    var s := Run(Init(shell), es);
    RunOwes(shell, es);
    RegistrationIsAsked(Init(shell), es);
    MountedWasOpened(shell, es);
    if Stuck(s) {
      StuckIsEmpty(s);
      forall fs | Quietly(fs) ensures !Shows(Run(s, fs)) {
        StaysStuck(s, fs);
        StuckShowsNothing(Run(s, fs));
      }
    } else {
      var fs := CanShow(s, true);
      forall ok: bool | s.listening.Asked? ensures CanShowUnder(s, ok) {
        var gs := CanShow(s, ok);
      }
    }
  }

  lemma StuckShowsNothing(s: State)
    requires Stuck(s)
    ensures !Shows(s)
  {
  }

  lemma AsksWaits(s: State)
    requires Inv(s) && LastHolds(s)
    ensures MountAsks(s) ==> Waits(s)
    ensures forall c :: ControlAsks(s, c) ==> Waits(s)
  {
    assert RunInv(s, |s.runs| - 1);
    assert Alive(s, OnScreen(s)) && forall c :: Alive(s, Pressed(s.pane, c));
  }

  lemma StuckIsEmpty(s: State)
    requires Inv(s) && Stuck(s)
    ensures !MountAsks(s) && (forall c :: !ControlAsks(s, c))
    ensures s.report.None? ==> Blank(s)
    ensures s.report.Some? ==> s.mounted && forall c: Control :: c in s.busy
  {
    AsksWaits(s);
    if s.report.Some? {
      assert s.busy == {Button, Switch};
      forall c: Control ensures c in s.busy { OneOfTwo(c); }
    }
  }

  lemma MountedWasOpened(shell: Report, es: seq<Event>)
    requires Run(Init(shell), es).mounted
    ensures Run(Init(shell), es).runs != []
  {
    RunKeepsInv(Init(shell), es);
  }

  /** The reports the shell moved to. */
  function Moves(es: seq<Event>): seq<Report> {
    if es == [] then [] else (if es[0].Move? then [es[0].report] else []) + Moves(es[1..])
  }

  /** The reports that reached the window. */
  function Delivered(s: State, es: seq<Event>): seq<Report>
    decreases es
  {
    if es == [] then []
    else (if es[0].Deliver? && s.channel != [] then [s.channel[0]] else []) + Delivered(Step(s, es[0]), es[1..])
  }

  /**
   * Once it is listened to, the shell says every move, in order: what was on its way and what it moved to
   * since is what has arrived and what is on its way now.
   */
  lemma {:induction false} EveryMoveIsSaid(s: State, es: seq<Event>)
    requires s.listening.On?
    ensures s.channel + Moves(es) == Delivered(s, es) + Run(s, es).channel
    decreases es
  {
    if es != [] {
      var t, rest := Step(s, es[0]), es[1..];
      ChannelThen(s, es[0]);
      EveryMoveIsSaid(t, rest);
      hide Step, Run, Moves, Delivered;
      var said: seq<Report> := if es[0].Move? then [es[0].report] else [];
      var heard := if es[0].Deliver? && s.channel != [] then [s.channel[0]] else [];
      assert s.channel + said == heard + t.channel;
      Regroup(s.channel, said, Moves(rest), heard, t.channel, Delivered(t, rest), Run(t, rest).channel);
      assert Moves(es) == said + Moves(rest) by { MovesThen(es); }
      assert Delivered(s, es) == heard + Delivered(t, rest) by { DeliveredThen(s, es); }
      assert Run(s, es) == Run(t, rest) by { RunFirst(s, es); }
    } else {
      assert s.channel + Moves(es) == s.channel;
    }
  }

  lemma Regroup(a: seq<Report>, b: seq<Report>, c: seq<Report>, d: seq<Report>, e: seq<Report>, f: seq<Report>, g: seq<Report>)
    requires a + b == d + e && e + c == f + g
    ensures a + (b + c) == (d + f) + g
  {
    assert a + (b + c) == (a + b) + c;
    assert (d + e) + c == d + (e + c);
    assert d + (f + g) == (d + f) + g;
  }

  lemma MovesThen(es: seq<Event>)
    requires es != []
    ensures Moves(es) == (if es[0].Move? then [es[0].report] else []) + Moves(es[1..])
  {
  }

  lemma DeliveredThen(s: State, es: seq<Event>)
    requires es != []
    ensures Delivered(s, es)
            == (if es[0].Deliver? && s.channel != [] then [s.channel[0]] else []) + Delivered(Step(s, es[0]), es[1..])
  {
  }

  lemma RunFirst(s: State, es: seq<Event>)
    requires es != []
    ensures Run(s, es) == Run(Step(s, es[0]), es[1..])
  {
  }

  lemma ChannelThen(s: State, e: Event)
    requires s.listening.On?
    ensures var t := Step(s, e);
            && t.listening.On?
            && t.channel == if e.Move? then s.channel + [e.report]
                            else if e.Deliver? && s.channel != [] then s.channel[1..] else s.channel
  {
  }

  /** Whether a pane is up, by the events: the last of the openings and closings was an opening. */
  predicate Up(es: seq<Event>) {
    es != [] && (es[|es| - 1].Open? || (!es[|es| - 1].Close? && Up(es[..|es| - 1])))
  }

  lemma {:induction false} MountedIsUp(shell: Report, es: seq<Event>)
    ensures Run(Init(shell), es).mounted <==> Up(es)
    decreases |es|
  {
    if es != [] {
      var n := |es| - 1;
      assert es == es[..n] + [es[n]];
      RunThen(Init(shell), es[..n], es[n]);
      MountedIsUp(shell, es[..n]);
      RunKeepsInv(Init(shell), es[..n]);
      MountedThen(Run(Init(shell), es[..n]), es[n]);
    }
  }

  lemma MountedThen(s: State, e: Event)
    requires s.mounted ==> s.runs != []
    ensures Step(s, e).mounted <==> e.Open? || (!e.Close? && s.mounted)
  {
  }

  /** A replay sets the effect up again under the same pane: the run before it is cancelled, and what it showed stays. */
  lemma ReplaySetsUpAgain(shell: Report, es: seq<Event>)
    requires Run(Init(shell), es).mounted
    ensures var s := Run(Init(shell), es);
            var t := Step(s, Replay);
            && s.runs != [] && |t.runs| == |s.runs| + 1 && t.runs[|s.runs| - 1].cancelled && t.runs[|s.runs|] == EffectRun(false, Registering)
            && t.mounted && t.pane == s.pane && t.report == s.report && t.busy == s.busy && t.pushes == s.pushes
  {
    RunKeepsInv(Init(shell), es);
  }

  /** A press is never lost: a control not busy is marked busy, and its re-read is out behind it. */
  lemma PressAsks(s: State, c: Control)
    requires s.mounted && s.report.Some? && c !in s.busy
    ensures var t := Step(s, Press(c));
            && c in t.busy && t.report == s.report
            && exists i :: i in t.inFlight && t.inFlight[i] == Read(Pressed(s.pane, c), s.pushes, Pressing)
  {
    assert s.nextRead in Step(s, Press(c)).inFlight;
  }

  /** What the shell says is the last it moved to. */
  function LastMove(shell: Report, es: seq<Event>): Report {
    if es == [] then shell
    else if es[|es| - 1].Move? then es[|es| - 1].report else LastMove(shell, es[..|es| - 1])
  }

  lemma ShellThen(s: State, e: Event)
    ensures Step(s, e).shell == if e.Move? then e.report else s.shell
  {
  }

  lemma {:induction false} ShellIsAtItsLastMove(shell: Report, es: seq<Event>)
    ensures Run(Init(shell), es).shell == LastMove(shell, es)
    decreases |es|
  {
    if es != [] {
      var n := |es| - 1;
      assert es == es[..n] + [es[n]];
      ShellIsAtItsLastMove(shell, es[..n]);
      RunThen(Init(shell), es[..n], es[n]);
      ShellThen(Run(Init(shell), es[..n]), es[n]);
      hide Step, Run;
    }
  }

  // ---- In place ----

  /** Of the subscribers walked so far, how many were told. */
  function Met(walked: set<nat>, runs: seq<EffectRun>): nat {
    |ToldOf(walked, runs)|
  }

  lemma MeetOne(walked: set<nat>, runs: seq<EffectRun>, i: nat)
    requires i !in walked
    ensures Met(walked + {i}, runs) == Met(walked, runs) + (if i < |runs| && !runs[i].cancelled then 1 else 0)
  {
    var one: set<nat> := if i < |runs| && !runs[i].cancelled then {i} else {};
    assert ToldOf(walked + {i}, runs) == ToldOf(walked, runs) + one;
  }

  lemma MeetNone(runs: seq<EffectRun>)
    ensures Met({}, runs) == 0
  {
    assert ToldOf({}, runs) == {};
  }

  /**
   * One report shown to every subscriber, in a copy of the set: the callback of a cancelled run does
   * nothing, every other counts the push and paints the report.
   */
  method ShowToAll(subscribers: set<nat>, runs: seq<EffectRun>, pushes0: nat, report0: Option<Report>, next: Report)
    returns (pushes: nat, report: Option<Report>)
    ensures pushes == pushes0 + |ToldOf(subscribers, runs)|
    ensures report == if ToldOf(subscribers, runs) == {} then report0 else Some(next)
  {
    hide ToldOf;
    pushes, report := pushes0, report0;
    var left, walked: set<nat> := subscribers, {};
    MeetNone(runs);
    while left != {}
      invariant walked + left == subscribers && walked !! left
      invariant pushes == pushes0 + Met(walked, runs)
      invariant report == if Met(walked, runs) == 0 then report0 else Some(next)
      decreases left
    {
      var show :| show in left;
      MeetOne(walked, runs, show);
      left, walked := left - {show}, walked + {show};
      if show < |runs| && !runs[show].cancelled {
        pushes := pushes + 1;
        report := Some(next);
      }
    }
    assert walked == subscribers;
  }

  lemma OpenIsFresh(s: State)
    requires !s.mounted
    ensures Step(s, Open) == SetUp(Fresh(s))
  {
  }

  /** The hook and the module set it subscribes to, as the code updates them. */
  class Pane {
    var shell: Report
    var listening: Listening
    var answered: bool
    var channel: seq<Report>
    var subscribers: set<nat>
    var runs: seq<EffectRun>
    var inFlight: map<nat, Read>
    var nextRead: nat
    var pane: nat
    var mounted: bool
    var pushes: nat
    var report: Option<Report>
    var busy: set<Control>

    function Abstract(): State
      reads this
    {
      State(shell, listening, answered, channel, subscribers, runs, inFlight, nextRead, pane, mounted, pushes, report, busy)
    }

    constructor (at: Report)
      ensures Abstract() == Init(at)
    {
      shell, listening, answered, channel := at, Unasked, false, [];
      subscribers, runs, inFlight, nextRead := {}, [], map[], 0;
      pane, mounted, pushes, report, busy := 0, false, 0, None, {};
    }

    /** A component mounts where none is: fresh refs and cells, then its effects' setup to the first `await`. */
    method OpenPane()
      requires !mounted
      modifies this
      ensures Abstract() == Step(old(Abstract()), Open)
      ensures mounted && !listening.Unasked? && report == None && pushes == 0 && busy == {}
    {
      OpenIsFresh(Abstract());
      hide Step;
      pane, pushes, report, busy := pane + 1, 0, None, {};
      mounted := true;
      subscribers := subscribers + {|runs|};
      runs := runs + [EffectRun(false, Registering)];
      if listening.Unasked? { listening := Asked; }
    }

    /** The effects' cleanup: this run is cancelled, and releases what it already holds. */
    method ClosePane()
      requires mounted && runs != []
      modifies this
      ensures Abstract() == Step(old(Abstract()), Close)
    {
      var i := |runs| - 1;
      mounted := false;
      var off := runs[i].subscription.Holding?;
      runs := runs[i := runs[i].(cancelled := true)];
      if off {
        subscribers := subscribers - {i};
        runs := runs[i := runs[i].(subscription := Released)];
      }
    }

    /** A run goes on once the registration has been answered. */
    method AfterListening(i: nat)
      requires answered && i < |runs| && runs[i].subscription.Registering?
      modifies this
      ensures Abstract() == Step(old(Abstract()), Resume(i))
    {
      if runs[i].cancelled {
        subscribers := subscribers - {i};
        runs := runs[i := runs[i].(subscription := Released)];
        return;
      }
      runs := runs[i := runs[i].(subscription := Holding)];
      inFlight := inFlight[nextRead := Read(Mount(i), pushes, OnItsWay)];
      nextRead := nextRead + 1;
    }

    /** The oldest push reaches this window. */
    method ShowPush()
      requires channel != []
      modifies this`channel, this`pushes, this`report, this`busy
      ensures Abstract() == Step(old(Abstract()), Deliver)
    {
      var next := channel[0];
      channel := channel[1..];
      var before := pushes;
      pushes, report := ShowToAll(subscribers, runs, pushes, report, next);
      if pushes != before { busy := {}; }
    }

    /** A read's answer lands, the mount's or a press's. */
    method ReadAnswered(i: nat)
      requires i in inFlight && inFlight[i].stage.Taken?
      modifies this
      ensures Abstract() == Step(old(Abstract()), Answer(i))
    {
      var read := inFlight[i];
      inFlight := inFlight - {i};
      var alive := false;
      match read.asker {
        case Mount(run) => alive := run < |runs| && !runs[run].cancelled;
        case Pressed(asked, _) => alive := mounted && asked == pane;
      }
      if alive && pushes == read.at {
        report, busy := Some(read.stage.report), {};
      }
    }

    /** The button or the switch: marked busy, then the count its re-read will be held to. */
    method PressControl(c: Control)
      requires mounted && report.Some? && c !in busy
      modifies this
      ensures Abstract() == Step(old(Abstract()), Press(c))
    {
      busy := busy + {c};
      var at := pushes;
      inFlight := inFlight[nextRead := Read(Pressed(pane, c), at, Pressing)];
      nextRead := nextRead + 1;
    }
  }
}
