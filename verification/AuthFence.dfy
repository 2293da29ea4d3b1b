/**
 * The auth fence of the desktop window (apps/desktop/src/DesktopGate.tsx): how `/health` answers,
 * which come back at any time and in any order, are kept from describing an engine that has gone.
 *
 * Every delivered lifecycle move, every entered door and every overlay cancel advances an epoch; an
 * answer is stored under the epoch of the effect run that asked for it, and believed only while that
 * is the epoch on screen. State set by a callback is queued, and reaches the screen at a commit,
 * where the effects whose dependencies changed are cancelled and set up anew and the client engine
 * is adjusted. Between any two commits anything may be delivered, asked or answered.
 */
module AuthFence {
  import opened Prelude
  import opened DesktopGate

  /** An answer kept, and the instant its probe was issued. */
  datatype Stored = Stored(auth: HostedAuth, issuedAt: nat)

  /** What an effect asks with: the steady probe, the quick one, the held question. */
  datatype Asker = Steady | Quick | HeldQuestion

  datatype EffectRun = EffectRun(asker: Asker, key: nat, cancelled: bool)

  datatype Probe = Probe(run: nat, issuedAt: nat, answered: bool)

  datatype Deps = Deps(key: Option<nat>, flag: bool)

  datatype Slot = Slot(deps: Deps, run: Option<nat>)

  /** `lastMove` and `minted` say when: the last re-keying, and the one that made each epoch. */
  datatype State = State(
    shell: Option<Shell>, epoch: nat, auth: Option<Stored>,                  // on screen
    queuedShell: Option<Shell>, queuedEpoch: nat, queuedAuth: Option<Stored>, // set, not yet committed
    delivered: Option<Mark>,
    runs: seq<EffectRun>, steady: Slot, quick: Slot, question: Slot, probes: seq<Probe>,
    held: Held, owner: Option<string>, lastServed: Option<string>, screen: Screen,
    clock: nat, lastMove: nat, minted: seq<nat>)

  datatype Event =
    | Refreshed(shell: Shell)             // a status poll answered
    | OnStatus(status: EngineStatus)      // a status delivered by a door action
    | Rekey                               // an overlay cancelled, a door entered
    | Ask(run: nat)
    | Answered(probe: nat, health: Option<Health>, noticeDue: bool)
    | Commit(view: View)

  const NO_DEPS := Deps(None, false)

  function Launch(): State {
    State(None, 0, None, None, 0, None, None, [], Slot(NO_DEPS, None), Slot(NO_DEPS, None), Slot(NO_DEPS, None), [],
          Held(None, 0), None, None, FirstFrame, 0, 0, [0])
  }

  /** `authKey`: only a cloud door has one; the epoch is all of it that changes. */
  function AuthKey(shell: Option<Shell>, epoch: nat): Option<nat> {
    if shell.Some? && shell.value.Status? && shell.value.status.mode == Some(CloudDoor) then Some(epoch) else None
  }

  function Facts(a: Option<Stored>): Option<HostedAuth> {
    if a.Some? then Some(a.value.auth) else None
  }

  /** The current engine's first answer has been read. */
  predicate Known(s: State) {
    Believed(AuthKey(s.shell, s.epoch), Facts(s.auth)).Some?
  }

  function Moved(s: State): State {
    s.(queuedEpoch := s.queuedEpoch + 1, minted := s.minted + [s.clock], lastMove := s.clock)
  }

  function CancelRun(runs: seq<EffectRun>, run: Option<nat>): seq<EffectRun> {
    if run.Some? && run.value < |runs| then runs[run.value := runs[run.value].(cancelled := true)] else runs
  }

  /** One effect at a commit: left alone under the same dependencies, else cleaned up and set up. */
  function Rerun(runs: seq<EffectRun>, slot: Slot, asker: Asker, deps: Deps, active: bool): (seq<EffectRun>, Slot) {
    if slot.deps == deps then (runs, slot)
    else
      var cleaned := CancelRun(runs, slot.run);
      if active && deps.key.Some?
      then (cleaned + [EffectRun(asker, deps.key.value, false)], Slot(deps, Some(|cleaned|)))
      else (cleaned, Slot(deps, None))
  }

  function Degraded(believed: Option<HostedAuth>): bool {
    believed.Some? && believed.value.session.Some? && !believed.value.session.value.state.SessionLive?
  }

  function EffectsAt(s: State, key: Option<nat>, believed: Option<HostedAuth>): State {
    var (runs1, steady) := Rerun(s.runs, s.steady, Steady, Deps(key, Degraded(believed)), true);
    var (runs2, quick) := Rerun(runs1, s.quick, Quick, Deps(key, believed.Some?), believed.None?);
    var (runs3, question) := Rerun(runs2, s.question, HeldQuestion, Deps(key, believed.Some?), believed.Some?);
    s.(runs := runs3, steady := steady, quick := quick, question := question)
  }

  function PaintAt(s: State, key: Option<nat>, view: View): State {
    var gone := AccountEnded(Believed(key, Facts(s.auth)));
    var shell := if s.shell.Some? then s.shell.value else NoShell;
    var held := Pass(shell, s.held, view.stage, gone);
    var mount := MountFor(shell, MountedKey(held.live));
    var served := ServedMailbox(shell);
    s.(held := held,
       owner := if mount.EngineMount? then Some(mount.key) else None,
       lastServed := if served.Some? then served else s.lastServed,
       screen := ScreenFor(s.shell, key, Facts(s.auth), held.live, view))
  }

  function Committed(s: State, view: View): State {
    var t := s.(shell := s.queuedShell, epoch := s.queuedEpoch, auth := s.queuedAuth);
    var key := AuthKey(t.shell, t.epoch);
    EffectsAt(PaintAt(t, key, view), key, Believed(key, Facts(t.auth)))
  }

  function Store(s: State, asker: Asker, next: Stored): State {
    if !asker.Quick? && SameHostedAuth(Facts(s.queuedAuth), next.auth) then s else s.(queuedAuth := Some(next))
  }

  function Act(s: State, e: Event): State {
    match e
    case Refreshed(next) =>
      var mark := LifecycleMark(next);
      var t := s.(delivered := Some(mark), queuedShell := Some(next));
      if s.delivered.Some? && s.delivered != Some(mark) then Moved(t) else t
    case OnStatus(status) =>
      Moved(s.(delivered := Some(LifecycleMark(Status(status))), queuedShell := Some(Status(status))))
    case Rekey => Moved(s)
    case Ask(run) =>
      if run < |s.runs| && !s.runs[run].cancelled
      then s.(probes := s.probes + [Probe(run, s.clock, false)]) else s
    case Answered(i, health, noticeDue) =>
      if i < |s.probes| && !s.probes[i].answered && s.probes[i].run < |s.runs| then
        var t := s.(probes := s.probes[i := s.probes[i].(answered := true)]);
        var run := s.runs[s.probes[i].run];
        if run.cancelled || health.None? then t
        else Store(t, run.asker, Stored(HostedAuthOf(run.key, health.value, noticeDue), s.probes[i].issuedAt))
      else s
    case Commit(view) => Committed(s, view)
  }

  function Step(s: State, e: Event): State {
    Act(s.(clock := s.clock + 1), e)
  }

  function Run(s: State, es: seq<Event>): State
    decreases es
  {
    if es == [] then s else Run(Step(s, es[0]), es[1..])
  }

  // ---- The fence ----

  /** An answer, or what may bring one, under a key that existed before it was asked for. */
  predicate Fenced(s: State, key: nat, issuedAt: nat) {
    key <= s.queuedEpoch && key < |s.minted| && s.minted[key] < issuedAt
  }

  ghost predicate Inv(s: State) {
    && s.epoch <= s.queuedEpoch && |s.minted| == s.queuedEpoch + 1
    && s.minted[s.queuedEpoch] == s.lastMove
    && (forall k :: 0 <= k < |s.minted| ==> s.minted[k] <= s.clock)
    && (forall r :: 0 <= r < |s.runs| ==> s.runs[r].key <= s.queuedEpoch)
    && (forall p :: 0 <= p < |s.probes| ==>
          s.probes[p].run < |s.runs| && Fenced(s, s.runs[s.probes[p].run].key, s.probes[p].issuedAt))
    && (s.auth.Some? ==> Fenced(s, s.auth.value.auth.key, s.auth.value.issuedAt))
    && (s.queuedAuth.Some? ==> Fenced(s, s.queuedAuth.value.auth.key, s.queuedAuth.value.issuedAt))
  }

  lemma RerunKeepsKeys(runs: seq<EffectRun>, slot: Slot, asker: Asker, deps: Deps, active: bool, bound: nat)
    requires forall r :: 0 <= r < |runs| ==> runs[r].key <= bound
    requires deps.key.Some? ==> deps.key.value <= bound
    ensures var (next, _) := Rerun(runs, slot, asker, deps, active);
            && |runs| <= |next|
            && (forall r :: 0 <= r < |runs| ==> next[r].key == runs[r].key)
            && (forall r :: 0 <= r < |next| ==> next[r].key <= bound)
  {
  }

  lemma EffectsKeepInv(s: State, key: Option<nat>, believed: Option<HostedAuth>)
    requires Inv(s) && (key.Some? ==> key.value <= s.queuedEpoch)
    ensures Inv(EffectsAt(s, key, believed))
  {
    var steady := Rerun(s.runs, s.steady, Steady, Deps(key, Degraded(believed)), true);
    RerunKeepsKeys(s.runs, s.steady, Steady, Deps(key, Degraded(believed)), true, s.queuedEpoch);
    var quick := Rerun(steady.0, s.quick, Quick, Deps(key, believed.Some?), believed.None?);
    RerunKeepsKeys(steady.0, s.quick, Quick, Deps(key, believed.Some?), believed.None?, s.queuedEpoch);
    RerunKeepsKeys(quick.0, s.question, HeldQuestion, Deps(key, believed.Some?), believed.Some?, s.queuedEpoch);
  }

  lemma CommitKeepsInv(s: State, view: View)
    requires Inv(s)
    ensures Inv(Committed(s, view))
  {
    var t := s.(shell := s.queuedShell, epoch := s.queuedEpoch, auth := s.queuedAuth);
    var key := AuthKey(t.shell, t.epoch);
    assert Inv(t);
    hide EffectsAt;
    assert Inv(PaintAt(t, key, view));
    EffectsKeepInv(PaintAt(t, key, view), key, Believed(key, Facts(t.auth)));
  }

  lemma MovedKeepsInv(s: State)
    requires Inv(s)
    ensures Inv(Moved(s))
  {
    var t := Moved(s);
    assert forall k :: 0 <= k < |s.minted| ==> t.minted[k] == s.minted[k];
  }

  lemma ProbeKeepsInv(s: State, i: nat)
    requires Inv(s) && i < |s.probes|
    ensures Inv(s.(probes := s.probes[i := s.probes[i].(answered := true)]))
  {
  }

  lemma StoreKeepsInv(s: State, asker: Asker, next: Stored)
    requires Inv(s) && Fenced(s, next.auth.key, next.issuedAt)
    ensures Inv(Store(s, asker, next))
  {
    hide SameHostedAuth;
  }

  lemma AnswerKeepsInv(s: State, e: Event)
    requires Inv(s) && e.Answered?
    ensures Inv(Act(s, e))
  {
    if e.probe < |s.probes| {
      var run := s.probes[e.probe].run;
      assert run < |s.runs| && Fenced(s, s.runs[run].key, s.probes[e.probe].issuedAt);
      var t := s.(probes := s.probes[e.probe := s.probes[e.probe].(answered := true)]);
      ProbeKeepsInv(s, e.probe);
      hide Inv, Store;
      if e.health.Some? {
        StoreKeepsInv(t, s.runs[run].asker,
                      Stored(HostedAuthOf(s.runs[run].key, e.health.value, e.noticeDue), s.probes[e.probe].issuedAt));
      }
    }
  }

  /** What is delivered or set to be painted, and time, are no part of the fence. */
  lemma DeliveredKeepsInv(s: State, clock: nat, delivered: Option<Mark>, shell: Option<Shell>)
    requires Inv(s) && s.clock <= clock
    ensures Inv(s.(clock := clock, delivered := delivered, queuedShell := shell))
  {
  }

  lemma StepKeepsInv(s: State, e: Event)
    requires Inv(s)
    ensures Inv(Step(s, e))
  {
    hide Inv, Committed, Moved, Store, LifecycleMark;
    var c := s.(clock := s.clock + 1);
    DeliveredKeepsInv(s, c.clock, s.delivered, s.queuedShell);
    match e
    case Commit(view) => CommitKeepsInv(c, view);
    case Answered(_, _, _) => AnswerKeepsInv(c, e);
    case Refreshed(next) =>
      var d := c.(delivered := Some(LifecycleMark(next)), queuedShell := Some(next));
      DeliveredKeepsInv(s, c.clock, d.delivered, d.queuedShell);
      MovedKeepsInv(d);
    case OnStatus(status) =>
      var d := c.(delivered := Some(LifecycleMark(Status(status))), queuedShell := Some(Status(status)));
      DeliveredKeepsInv(s, c.clock, d.delivered, d.queuedShell);
      MovedKeepsInv(d);
    case Rekey => MovedKeepsInv(c);
    case Ask(run) => AskKeepsInv(s, run);
  }

  lemma AskKeepsInv(s: State, run: nat)
    requires Inv(s)
    ensures Inv(Step(s, Ask(run)))
  {
    var c, t := s.(clock := s.clock + 1), Step(s, Ask(run));
    assert forall k :: 0 <= k < |s.minted| ==> s.minted[k] < c.clock;
    assert forall p :: 0 <= p < |s.probes| ==> t.probes[p] == s.probes[p];
  }

  lemma {:induction false} RunKeepsInv(s: State, es: seq<Event>)
    requires Inv(s)
    ensures Inv(Run(s, es))
    decreases es
  {
    hide Inv, Step;
    if es != [] {
      StepKeepsInv(s, es[0]);
      RunKeepsInv(Step(s, es[0]), es[1..]);
    }
  }

  lemma LaunchInv()
    ensures Inv(Launch())
  {
  }

  /**
   * The fence. In every interleaving, an answer the window believes came from a probe issued after
   * the move that made the epoch on screen; once nothing set is waiting for a commit, that is the
   * latest move of all.
   */
  lemma BelievedIsFresh(es: seq<Event>)
    requires Known(Run(Launch(), es))
    ensures var s := Run(Launch(), es);
            && s.auth.Some? && s.epoch < |s.minted|
            && s.minted[s.epoch] < s.auth.value.issuedAt
            && (s.epoch == s.queuedEpoch ==> s.lastMove < s.auth.value.issuedAt)
  {
    LaunchInv();
    RunKeepsInv(Launch(), es);
  }

  /** The event advances the epoch: a status delivered, a door entered, a poll that read another run. */
  predicate Moves(s: State, e: Event) {
    e.OnStatus? || e.Rekey? || (e.Refreshed? && s.delivered.Some? && s.delivered != Some(LifecycleMark(e.shell)))
  }

  lemma {:induction false} RunAppend(s: State, es: seq<Event>, fs: seq<Event>)
    ensures Run(s, es + fs) == Run(Run(s, es), fs)
    decreases es
  {
    hide Step;
    if es == [] {
      assert es + fs == fs;
    } else {
      assert (es + fs)[0] == es[0] && (es + fs)[1..] == es[1..] + fs;
      RunAppend(Step(s, es[0]), es[1..], fs);
    }
  }

  /** Nothing asked before the move is believed after it, however late it is answered. */
  ghost predicate OnlyOld(s: State, since: nat) {
    && since <= s.queuedEpoch
    && (forall r :: 0 <= r < |s.runs| ==> s.runs[r].key < since)
    && (s.queuedAuth.Some? ==> s.queuedAuth.value.auth.key < since)
  }

  lemma {:induction false} OldAnswersStayOld(s: State, es: seq<Event>, since: nat)
    requires OnlyOld(s, since) && forall k :: 0 <= k < |es| ==> !es[k].Commit?
    ensures OnlyOld(Run(s, es), since)
    decreases es
  {
    if es != [] {
      assert OnlyOld(Step(s, es[0]), since);
      OldAnswersStayOld(Step(s, es[0]), es[1..], since);
    }
  }

  /**
   * Every move makes the session unknown again. After it, whatever is delivered, asked or answered
   * before the window next paints (late answers of the engine that has gone among them), that paint
   * believes no answer, and withholds the mail on a cloud door.
   */
  lemma EveryMoveIsUnknownAgain(before: seq<Event>, move: Event, late: seq<Event>, view: View)
    requires Moves(Run(Launch(), before), move)
    requires forall k :: 0 <= k < |late| ==> !late[k].Commit?
    ensures var s := Run(Launch(), before + ([move] + (late + [Commit(view)])));
            && !Known(s)
            && (AuthKey(s.shell, s.epoch).Some? ==> !s.screen.Mail?)
  {
    var p := Run(Launch(), before);
    LaunchInv();
    RunKeepsInv(Launch(), before);
    var m := Step(p, move);
    assert OnlyOld(m, m.queuedEpoch);
    OldAnswersStayOld(m, late, m.queuedEpoch);
    var l := Run(m, late);
    OldEpochIsNotKnown(l, m.queuedEpoch, view);
    RunAppend(Launch(), before, [move] + (late + [Commit(view)]));
    RunAppend(p, [move], late + [Commit(view)]);
    RunAppend(m, late, [Commit(view)]);
    RunOne(p, move);
    RunOne(l, Commit(view));
  }

  lemma RunOne(s: State, e: Event)
    ensures Run(s, [e]) == Step(s, e)
  {
    assert [e][1..] == [];
  }

  lemma OldEpochIsNotKnown(s: State, since: nat, view: View)
    requires OnlyOld(s, since)
    ensures var t := Step(s, Commit(view));
            !Known(t) && (AuthKey(t.shell, t.epoch).Some? ==> !t.screen.Mail?)
  {
  }

  // ---- The mail on screen ----

  ghost predicate ScreenInv(s: State) {
    && (s.held.live.Some? ==> s.lastServed == Some(s.held.live.value.key))
    && (s.screen.Mail? ==>
          && s.held.live.Some? && s.held.live.value.key == s.screen.key && s.owner == Some(s.screen.key)
          && s.shell.Some? && GateFor(s.shell.value).App?
          && (ServedMailbox(s.shell.value).Some? ==> ServedMailbox(s.shell.value) == Some(s.screen.key))
          && (AuthKey(s.shell, s.epoch).Some? ==> Known(s) && !AccountEnded(Facts(s.auth))))
    && (Known(s) && AccountEnded(Facts(s.auth)) ==> s.held.live.None?)
    && (Known(s) && s.auth.value.auth.restartRequired ==>
          !s.screen.SignIn? && !s.screen.NotPairedCard? && !s.screen.Mail? && !s.screen.AuthPending?
          && (s.screen.ErasedCard? ==> s.auth.value.auth.erased))
  }

  lemma CommitKeepsScreen(s: State, view: View)
    requires ScreenInv(s)
    ensures ScreenInv(Committed(s, view))
  {
    var t := s.(shell := s.queuedShell, epoch := s.queuedEpoch, auth := s.queuedAuth);
    var key := AuthKey(t.shell, t.epoch);
    var p := PaintAt(t, key, view);
    var shell := if t.shell.Some? then t.shell.value else NoShell;
    SettledIsCoherent(shell, s.held, view.stage, AccountEnded(Believed(key, Facts(t.auth))));
    if p.screen.Mail? { MailIsDrawnOnlyOver(t.shell, key, Facts(t.auth), p.held.live, view); }
    assert ScreenInv(p);
  }

  lemma OnlyCommitsPaint(s: State, e: Event)
    requires !e.Commit?
    ensures var t := Step(s, e);
            && t.shell == s.shell && t.epoch == s.epoch && t.auth == s.auth
            && t.held == s.held && t.owner == s.owner && t.lastServed == s.lastServed && t.screen == s.screen
  {
    hide SameHostedAuth, HostedAuthOf, LifecycleMark;
  }

  lemma StepKeepsScreen(s: State, e: Event)
    requires ScreenInv(s)
    ensures ScreenInv(Step(s, e))
  {
    var c := s.(clock := s.clock + 1);
    assert ScreenInv(c) by { hide Step; }
    if e.Commit? {
      CommitKeepsScreen(c, e.view);
      hide ScreenInv;
    } else {
      OnlyCommitsPaint(s, e);
      hide Step;
    }
  }

  lemma {:induction false} RunKeepsScreen(s: State, es: seq<Event>)
    requires ScreenInv(s)
    ensures ScreenInv(Run(s, es))
    decreases es
  {
    hide ScreenInv, Step;
    if es != [] {
      StepKeepsScreen(s, es[0]);
      RunKeepsScreen(Step(s, es[0]), es[1..]);
    }
  }

  /**
   * Whenever mail is on screen, in every interleaving: its key, the storage owner and the live engine
   * name one mailbox, the one an engine served last; a door is chosen; and on a cloud door the
   * session was answered for under the epoch on screen, by a probe issued after that epoch was made,
   * for an account that has not ended.
   */
  lemma MailOnScreen(es: seq<Event>)
    requires Run(Launch(), es).screen.Mail?
    ensures var s := Run(Launch(), es);
            && s.held.live.Some? && s.held.live.value.key == s.screen.key
            && s.owner == Some(s.screen.key) && s.lastServed == Some(s.screen.key)
            && s.shell.Some? && GateFor(s.shell.value).App?
            && (AuthKey(s.shell, s.epoch).Some? ==>
                  && s.auth.Some? && s.auth.value.auth.key == s.epoch && !AccountEnded(Facts(s.auth))
                  && s.epoch < |s.minted| && s.minted[s.epoch] < s.auth.value.issuedAt)
  {
    RunKeepsScreen(Launch(), es);
    var s := Run(Launch(), es);
    if AuthKey(s.shell, s.epoch).Some? { BelievedIsFresh(es); }
  }

  /** A removed copy or an erased account leaves no client engine in the window's memory. */
  lemma EndedAccountLeavesNoClient(es: seq<Event>)
    requires Known(Run(Launch(), es)) && AccountEnded(Facts(Run(Launch(), es).auth))
    ensures Run(Launch(), es).held.live.None? && !Run(Launch(), es).screen.Mail?
  {
    RunKeepsScreen(Launch(), es);
  }

  /**
   * A pairing waiting for its relaunch answers `signedIn` and `sessionExpired` as a door nobody has signed
   * in to does. In every interleaving, while such an answer is believed nothing is drawn as a
   * sign-in, as a lost pairing or as mail, and only an erased account goes before its card.
   */
  lemma RelaunchIsNeverASignIn(es: seq<Event>)
    requires var s := Run(Launch(), es); Known(s) && s.auth.value.auth.restartRequired
    ensures var s := Run(Launch(), es);
            && !s.screen.SignIn? && !s.screen.NotPairedCard? && !s.screen.Mail? && !s.screen.AuthPending?
            && (s.screen.ErasedCard? ==> s.auth.value.auth.erased)
  {
    RunKeepsScreen(Launch(), es);
  }

  // ---- What is asked is answered ----

  /** An effect's slot: a run of its own, under the key, where it is active, and none where it is not. */
  ghost predicate SlotInv(s: State, slot: Slot, asker: Asker, active: bool) {
    if slot.deps.key.Some? && active
    then slot.run.Some? && slot.run.value < |s.runs| && s.runs[slot.run.value] == EffectRun(asker, slot.deps.key.value, false)
    else slot.run.None?
  }

  ghost predicate AskersInv(s: State) {
    && SlotsInv(s)
    && s.steady.deps == Deps(AuthKey(s.shell, s.epoch), Degraded(Believed(AuthKey(s.shell, s.epoch), Facts(s.auth))))
    && s.quick.deps == Deps(AuthKey(s.shell, s.epoch), Known(s))
    && s.question.deps == Deps(AuthKey(s.shell, s.epoch), Known(s))
  }

  /** One effect at a commit leaves the others' runs alone and its own as its dependencies say. */
  lemma RerunKeepsSlot(s: State, slot: Slot, asker: Asker, deps: Deps, wasActive: bool, active: bool)
    requires SlotInv(s, slot, asker, wasActive) && (slot.deps == deps ==> wasActive == active)
    ensures var (runs, next) := Rerun(s.runs, slot, asker, deps, active);
            && SlotInv(s.(runs := runs), next, asker, active) && next.deps == deps
            && |s.runs| <= |runs|
            && (forall r: nat :: r < |s.runs| && slot.run != Some(r) ==> runs[r] == s.runs[r])
            && (forall r: nat :: r < |runs| && (r >= |s.runs| || slot.run == Some(r)) ==> !runs[r].cancelled ==> next.run == Some(r))
  {
  }

  /** The three slots, each as its dependencies say, and no run live but theirs. */
  ghost predicate SlotsInv(s: State) {
    && SlotInv(s, s.steady, Steady, true)
    && SlotInv(s, s.quick, Quick, !s.quick.deps.flag)
    && SlotInv(s, s.question, HeldQuestion, s.question.deps.flag)
    && forall r: nat :: r < |s.runs| && !s.runs[r].cancelled ==>
         s.steady.run == Some(r) || s.quick.run == Some(r) || s.question.run == Some(r)
  }

  lemma SteadyKeepsSlots(s: State, deps: Deps)
    requires SlotsInv(s)
    ensures var (runs, slot) := Rerun(s.runs, s.steady, Steady, deps, true);
            SlotsInv(s.(runs := runs, steady := slot)) && slot.deps == deps
  {
    RerunKeepsSlot(s, s.steady, Steady, deps, true, true);
    hide Rerun;
  }

  lemma QuickKeepsSlots(s: State, deps: Deps)
    requires SlotsInv(s)
    ensures var (runs, slot) := Rerun(s.runs, s.quick, Quick, deps, !deps.flag);
            SlotsInv(s.(runs := runs, quick := slot)) && slot.deps == deps
  {
    RerunKeepsSlot(s, s.quick, Quick, deps, !s.quick.deps.flag, !deps.flag);
    hide Rerun;
  }

  lemma QuestionKeepsSlots(s: State, deps: Deps)
    requires SlotsInv(s)
    ensures var (runs, slot) := Rerun(s.runs, s.question, HeldQuestion, deps, deps.flag);
            SlotsInv(s.(runs := runs, question := slot)) && slot.deps == deps
  {
    RerunKeepsSlot(s, s.question, HeldQuestion, deps, s.question.deps.flag, deps.flag);
    hide Rerun;
  }

  lemma EffectsKeepSlots(s: State, key: Option<nat>, believed: Option<HostedAuth>)
    requires SlotsInv(s)
    ensures var t := EffectsAt(s, key, believed);
            && SlotsInv(t) && t.steady.deps == Deps(key, Degraded(believed))
            && t.quick.deps == Deps(key, believed.Some?) && t.question.deps == Deps(key, believed.Some?)
            && t.shell == s.shell && t.epoch == s.epoch && t.auth == s.auth
  {
    hide SlotsInv, Rerun, Degraded;
    var steadyDeps, deps := Deps(key, Degraded(believed)), Deps(key, believed.Some?);
    SteadyKeepsSlots(s, steadyDeps);
    var (runs1, steady) := Rerun(s.runs, s.steady, Steady, steadyDeps, true);
    var s1 := s.(runs := runs1, steady := steady);
    QuickKeepsSlots(s1, deps);
    var (runs2, quick) := Rerun(runs1, s.quick, Quick, deps, believed.None?);
    QuestionKeepsSlots(s1.(runs := runs2, quick := quick), deps);
  }

  lemma StepKeepsAskers(s: State, e: Event)
    requires AskersInv(s)
    ensures AskersInv(Step(s, e))
  {
    if e.Commit? {
      var c := s.(clock := s.clock + 1, shell := s.queuedShell, epoch := s.queuedEpoch, auth := s.queuedAuth);
      var key := AuthKey(c.shell, c.epoch);
      PaintLeavesSlots(c, e.view);
      EffectsKeepSlots(PaintAt(c, key, e.view), key, Believed(key, Facts(c.auth)));
      assert Step(s, e) == EffectsAt(PaintAt(c, key, e.view), key, Believed(key, Facts(c.auth)));
      hide Step, PaintAt, EffectsAt, SlotsInv;
    } else {
      OnlyCommitsPaint(s, e);
      OnlyCommitsRun(s, e);
      hide Step;
    }
  }

  lemma PaintLeavesSlots(c: State, view: View)
    requires SlotsInv(c)
    ensures var p := PaintAt(c, AuthKey(c.shell, c.epoch), view);
            SlotsInv(p) && p.shell == c.shell && p.epoch == c.epoch && p.auth == c.auth
  {
    hide ScreenFor, Pass, MountFor, ServedMailbox, AccountEnded, Believed;
  }

  lemma OnlyCommitsRun(s: State, e: Event)
    requires !e.Commit?
    ensures var t := Step(s, e); t.runs == s.runs && t.steady == s.steady && t.quick == s.quick && t.question == s.question
  {
    hide SameHostedAuth, HostedAuthOf, LifecycleMark;
  }

  lemma {:induction false} RunKeepsAskers(s: State, es: seq<Event>)
    requires AskersInv(s)
    ensures AskersInv(Run(s, es))
    decreases es
  {
    hide AskersInv, Step;
    if es != [] {
      StepKeepsAskers(s, es[0]);
      RunKeepsAskers(Step(s, es[0]), es[1..]);
    }
  }

  predicate CloudDoorOf(shell: Option<Shell>) {
    shell.Some? && shell.value.Status? && shell.value.status.mode == Some(CloudDoor)
  }

  predicate Asks(s: State, r: nat, asker: Asker) {
    r < |s.runs| && s.runs[r].asker == asker && !s.runs[r].cancelled
  }

  /**
   * Who asks. In every interleaving, on a cloud door the steady probe asks, and beside it the quick one
   * while nothing is known and the held question once something is, each with one run, under the
   * epoch on screen; behind any other door nobody does.
   */
  lemma WhoAsks(es: seq<Event>, asker: Asker)
    ensures var s := Run(Launch(), es);
            && ((exists r: nat :: Asks(s, r, asker)) <==>
                  CloudDoorOf(s.shell) && (asker.Quick? ==> !Known(s)) && (asker.HeldQuestion? ==> Known(s)))
            && (forall r: nat, q: nat :: Asks(s, r, asker) && Asks(s, q, asker) ==> r == q)
            && (forall r: nat :: Asks(s, r, asker) ==> s.runs[r].key == s.epoch)
  {
    RunKeepsAskers(Launch(), es);
    var s := Run(Launch(), es);
    hide Run;
    var slot := match asker case Steady => s.steady case Quick => s.quick case HeldQuestion => s.question;
    forall r: nat | Asks(s, r, asker) ensures slot.run == Some(r) {}
    if slot.run.Some? { assert Asks(s, slot.run.value, asker); }
  }

  /** A believed answer says that the session is not live. */
  predicate NotLive(s: State) {
    Known(s) && s.auth.value.auth.session.Some? && s.auth.value.auth.session.value.state != SessionLive
  }

  /**
   * A session that stops or starts being live is asked after at once: the commit that paints it sets the
   * steady probe up anew, so that its cadence and its first question are the new reading's.
   */
  lemma DegradingAsksAnew(es: seq<Event>, view: View)
    requires var s := Run(Launch(), es); CloudDoorOf(s.queuedShell) && NotLive(s) != NotLive(Step(s, Commit(view)))
    ensures var s := Run(Launch(), es);
            exists r: nat :: r >= |s.runs| && Asks(Step(s, Commit(view)), r, Steady)
  {
    RunKeepsAskers(Launch(), es);
    var s := Run(Launch(), es);
    hide Run;
    StepKeepsAskers(s, Commit(view));
    var t := Step(s, Commit(view));
    CommitPaints(s, view);
    SteadyAnew(s, view);
    hide Step;
    assert Asks(t, t.steady.run.value, Steady);
  }

  /** A steady run whose dependencies changed is not one of those before. */
  lemma SteadyAnew(s: State, view: View)
    requires var t := Step(s, Commit(view)); t.steady.deps != s.steady.deps && t.steady.run.Some?
    ensures Step(s, Commit(view)).steady.run.value >= |s.runs|
  {
    hide ScreenFor, Pass, MountFor, ServedMailbox, AccountEnded, Believed, Degraded;
  }

  /** The status an event delivers, if it delivers one. */
  function Delivered(e: Event): Option<Shell> {
    match e
    case Refreshed(shell) => Some(shell)
    case OnStatus(status) => Some(Status(status))
    case _ => None
  }

  function LastDelivered(before: Option<Shell>, es: seq<Event>): Option<Shell>
    decreases es
  {
    if es == [] then before
    else LastDelivered(if Delivered(es[0]).Some? then Delivered(es[0]) else before, es[1..])
  }

  lemma {:induction false} QueueIsLastDelivered(s: State, es: seq<Event>)
    ensures Run(s, es).queuedShell == LastDelivered(s.queuedShell, es)
    decreases es
  {
    if es != [] {
      DeliverQueues(s, es[0]);
      hide Step;
      QueueIsLastDelivered(Step(s, es[0]), es[1..]);
    }
  }

  lemma DeliverQueues(s: State, e: Event)
    ensures Step(s, e).queuedShell == if Delivered(e).Some? then Delivered(e) else s.queuedShell
  {
    hide SameHostedAuth, HostedAuthOf, LifecycleMark, ScreenFor, Pass;
  }

  /** What is painted is the status delivered last, by a poll or by a door, in every interleaving. */
  lemma PaintIsTheLastDelivered(es: seq<Event>, view: View)
    ensures Step(Run(Launch(), es), Commit(view)).shell == LastDelivered(None, es)
  {
    QueueIsLastDelivered(Launch(), es);
    hide ScreenFor, Pass, Run;
  }

  /** The answer of a run that was cancelled, or that was no answer, is dropped: nothing is set but that it came. */
  lemma CancelledAnswerIsDropped(s: State, i: nat, health: Option<Health>, due: bool)
    requires i < |s.probes| && !s.probes[i].answered && s.probes[i].run < |s.runs|
    requires s.runs[s.probes[i].run].cancelled || health.None?
    ensures Step(s, Answered(i, health, due))
            == s.(clock := s.clock + 1, probes := s.probes[i := s.probes[i].(answered := true)])
  {
    hide SameHostedAuth, HostedAuthOf;
  }

  /** The quick probe's answer is taken as it is, its cause included. */
  lemma QuickAnswerIsTaken(s: State, i: nat, h: Health, due: bool)
    requires i < |s.probes| && !s.probes[i].answered && s.probes[i].run < |s.runs|
    requires var run := s.runs[s.probes[i].run]; !run.cancelled && run.asker.Quick?
    ensures var t := Step(s, Answered(i, Some(h), due));
            && t.queuedAuth.Some? && Says(t.queuedAuth.value.auth, h, due)
            && t.queuedAuth.value.auth.session == h.session && t.queuedAuth.value.issuedAt == s.probes[i].issuedAt
  {
    hide SameHostedAuth;
  }

  /** The answer to a probe of a run that is still on, once painted. */
  function AnswerPainted(s: State, i: nat, h: Health, due: bool, view: View): State {
    Step(Step(s, Answered(i, Some(h), due)), Commit(view))
  }

  /**
   * An answer is believed. Wherever a run has come, with a cloud door set to be painted, a probe still
   * unanswered, of an effect run not cancelled, asked under the epoch to be painted: the next commit
   * after its answer believes one that says the same in every field but a refusal's cause, and draws the
   * screen that it comes to.
   */
  lemma AnswerIsBelieved(es: seq<Event>, i: nat, h: Health, due: bool, view: View)
    requires var s := Run(Launch(), es);
             && CloudDoorOf(s.queuedShell)
             && i < |s.probes| && !s.probes[i].answered && s.probes[i].run < |s.runs|
             && !s.runs[s.probes[i].run].cancelled && s.runs[s.probes[i].run].key == s.queuedEpoch
    ensures var s := Run(Launch(), es);
            var st := s.queuedShell.value.status;
            var t := AnswerPainted(s, i, h, due, view);
            && Known(t) && t.shell == s.queuedShell && t.auth.Some? && Says(t.auth.value.auth, h, due)
            && (Reached(st, view) ==> ScreenSays(t.screen, h, st, t.held.live, view))
            && (st.state.Serving? && st.mailboxId.Some? && st.mailboxId.value != "" && !SessionRevoked(h) && h.accountErased != Some(true) ==>
                  ServesItsClient(st, t.held.live))
  {
    var s := Run(Launch(), es);
    hide Run;
    StoredSays(s, i, h, due);
    var a := Step(s, Answered(i, Some(h), due));
    CommitPaints(a, view);
    hide Step;
    var st := s.queuedShell.value.status;
    var t := AnswerPainted(s, i, h, due, view);
    if Reached(st, view) { ScreenOfAnswer(st, t.epoch, t.auth.value.auth, h, due, t.held.live, view); }
    var ended := AccountEnded(Believed(Some(t.epoch), Facts(t.auth)));
    assert ended <==> SessionRevoked(h) || h.accountErased == Some(true);
    SettledIsCoherent(s.queuedShell.value, s.held, view.stage, ended);
  }

  lemma StoredSays(s: State, i: nat, h: Health, due: bool)
    requires i < |s.probes| && !s.probes[i].answered && s.probes[i].run < |s.runs|
    requires !s.runs[s.probes[i].run].cancelled
    ensures var t := Step(s, Answered(i, Some(h), due));
            && t.queuedShell == s.queuedShell && t.queuedEpoch == s.queuedEpoch && t.held == s.held
            && t.queuedAuth.Some? && Says(t.queuedAuth.value.auth, h, due)
            && t.queuedAuth.value.auth.key == s.runs[s.probes[i].run].key
  {
    var next := HostedAuthOf(s.runs[s.probes[i].run].key, h, due);
    assert Says(next, h, due);
    if s.queuedAuth.Some? && SameHostedAuth(Some(s.queuedAuth.value.auth), next) {
      SameSession(s.queuedAuth.value.auth, next);
      assert Says(s.queuedAuth.value.auth, h, due);
    }
    hide SameHostedAuth, HostedAuthOf, Says;
  }

  lemma CommitPaints(s: State, view: View)
    requires CloudDoorOf(s.queuedShell)
    ensures var t := Step(s, Commit(view));
            && t.shell == s.queuedShell && t.epoch == s.queuedEpoch && t.auth == s.queuedAuth
            && t.held == Pass(s.queuedShell.value, s.held, view.stage, AccountEnded(Believed(Some(s.queuedEpoch), Facts(s.queuedAuth))))
            && t.screen == ScreenFor(s.queuedShell, Some(s.queuedEpoch), Facts(s.queuedAuth), t.held.live, view)
  {
    hide ScreenFor, Pass, AccountEnded, Believed;
  }

  /**
   * And a cloud door is never left waiting for want of a question: from wherever a run has come, a commit,
   * a probe of the steady run, its answer and a commit bring that answer to the screen.
   */
  lemma CloudDoorIsAnswered(es: seq<Event>, h: Health, due: bool, view: View, next: View) returns (r: nat)
    requires CloudDoorOf(Run(Launch(), es).queuedShell)
    ensures var s := Run(Launch(), es);
            var t := Run(s, [Commit(view), Ask(r), Answered(|s.probes|, Some(h), due), Commit(next)]);
            && Known(t) && t.auth.Some? && Says(t.auth.value.auth, h, due)
            && (Reached(s.queuedShell.value.status, next) ==>
                  ScreenSays(t.screen, h, s.queuedShell.value.status, t.held.live, next))
  {
    var s := Run(Launch(), es);
    RunAppend(Launch(), es, [Commit(view)]);
    RunOne(s, Commit(view));
    WhoAsks(es + [Commit(view)], Steady);
    CommitPaints(s, view);
    CommitKeepsQueue(s, view);
    var c := Step(s, Commit(view));
    r :| Asks(c, r, Steady);
    var fs := es + [Commit(view)] + [Ask(r)];
    RunAppend(Launch(), es + [Commit(view)], [Ask(r)]);
    RunOne(c, Ask(r));
    AskRecords(c, r);
    AnswerIsBelieved(fs, |s.probes|, h, due, next);
    RunFour(s, Commit(view), Ask(r), Answered(|s.probes|, Some(h), due), Commit(next));
  }

  lemma CommitKeepsQueue(s: State, view: View)
    ensures var t := Step(s, Commit(view));
            t.queuedShell == s.queuedShell && t.queuedEpoch == s.queuedEpoch && t.probes == s.probes
  {
    hide ScreenFor, Pass, AccountEnded, Believed;
  }

  lemma AskRecords(s: State, r: nat)
    requires r < |s.runs| && !s.runs[r].cancelled
    ensures var t := Step(s, Ask(r));
            && t.queuedShell == s.queuedShell && t.queuedEpoch == s.queuedEpoch && t.runs == s.runs
            && |t.probes| == |s.probes| + 1 && t.probes[|s.probes|].run == r && !t.probes[|s.probes|].answered
  {
  }

  lemma RunFour(s: State, e: Event, f: Event, g: Event, k: Event)
    ensures Run(s, [e, f, g, k]) == Step(Step(Step(Step(s, e), f), g), k)
  {
    assert [e, f, g, k] == [e] + ([f] + ([g] + [k]));
    hide Step;
    RunAppend(s, [e], [f] + ([g] + [k]));
    RunOne(s, e);
    RunAppend(Step(s, e), [f], [g] + [k]);
    RunOne(Step(s, e), f);
    RunAppend(Step(Step(s, e), f), [g], [k]);
    RunOne(Step(Step(s, e), f), g);
    RunOne(Step(Step(Step(s, e), f), g), k);
  }

  /** A poll that reads the run `mark` names, or a repaint. */
  predicate SameRun(e: Event, mark: Mark) {
    || (e.Refreshed? && e.shell.Status? && LifecycleMark(e.shell) == mark)
    || e.Commit?
  }

  /** Nothing set is waiting for a commit but a status of the run `mark` names, and its answer is believed. */
  predicate Steadied(s: State, mark: Mark, stored: Stored) {
    && s.delivered == Some(mark) && s.epoch == s.queuedEpoch
    && s.auth == Some(stored) && s.queuedAuth == Some(stored) && stored.auth.key == s.epoch
    && OfRun(s.shell, mark) && OfRun(s.queuedShell, mark)
    && AuthKey(s.shell, s.epoch).Some?
  }

  predicate OfRun(shell: Option<Shell>, mark: Mark) {
    shell.Some? && shell.value.Status? && LifecycleMark(shell.value) == mark
  }

  /**
   * What the fence cannot see: polls that read the same run move nothing, however many there are and
   * whatever else in the status has changed, so the answer believed before them is believed after
   * them. An engine replaced by one the status cannot tell from it keeps its predecessor's answer.
   */
  lemma {:induction false} UnseenRestartKeepsTheAnswer(s: State, es: seq<Event>, mark: Mark, stored: Stored)
    requires Steadied(s, mark, stored)
    requires forall k :: 0 <= k < |es| ==> SameRun(es[k], mark)
    ensures var t := Run(s, es); Steadied(t, mark, stored) && Known(t) && t.epoch == s.epoch
    decreases es
  {
    if es != [] {
      var t := Step(s, es[0]);
      assert SameRun(es[0], mark);
      assert Steadied(t, mark, stored) && t.epoch == s.epoch;
      UnseenRestartKeepsTheAnswer(t, es[1..], mark, stored);
    }
  }

  /** The status a poll settles on: a launch's first answer may find a pairing an earlier window left unanswered. */
  function Settled(read: Shell, first: bool, restored: Option<EngineStatus>): Shell {
    if first && read.Status? && read.status.switchPending && restored.Some? then Status(restored.value) else read
  }

  /**
   * The component's refs and state cells, as its callbacks update them between two commits. What the
   * last commit put on screen is `painted`.
   */
  class Gate {
    var painted: State
    var delivered: Option<Mark>
    var shell: Option<Shell>
    var authEpoch: nat
    var hostedAuth: Option<Stored>
    var runs: seq<EffectRun>
    var probes: seq<Probe>
    var clock: nat
    var lastMove: nat
    var minted: seq<nat>

    function Abstract(): State
      reads this
    {
      painted.(delivered := delivered, queuedShell := shell, queuedEpoch := authEpoch, queuedAuth := hostedAuth,
               runs := runs, probes := probes, clock := clock, lastMove := lastMove, minted := minted)
    }

    constructor ()
      ensures Abstract() == Launch()
    {
      painted := Launch();
      delivered, shell, authEpoch, hostedAuth := None, None, 0, None;
      runs, probes, clock, lastMove, minted := [], [], 0, 0, [0];
    }

    method SetAuthEpoch()
      modifies this`authEpoch, this`minted, this`lastMove
      ensures Abstract() == Moved(old(Abstract()))
    {
      authEpoch := authEpoch + 1;
      minted := minted + [clock];
      lastMove := clock;
    }

    /**
     * `refresh`, once the shell has answered `read`: `first` says nothing had been delivered by then, and
     * `restored` is what putting back the door of an unanswered pairing came to.
     */
    method Refresh(read: Shell, first: bool, restored: Option<EngineStatus>)
      modifies this
      ensures Abstract() == Step(old(Abstract()), Refreshed(Settled(read, first, restored)))
      ensures authEpoch == old(authEpoch)
                + (if old(delivered).Some? && old(delivered) != Some(LifecycleMark(Settled(read, first, restored))) then 1 else 0)
    {
      clock := clock + 1;
      var next := read;
      if first && next.Status? && next.status.switchPending && restored.Some? { next := Status(restored.value); }
      var mark := LifecycleMark(next);
      var moved := delivered.Some? && delivered != Some(mark);
      delivered := Some(mark);
      shell := Some(next);
      if moved { SetAuthEpoch(); }
    }

    /** `onStatus`: recorded, then set, and always a new epoch. */
    method DeliverStatus(next: EngineStatus)
      modifies this
      ensures Abstract() == Step(old(Abstract()), OnStatus(next))
      ensures authEpoch == old(authEpoch) + 1
    {
      clock := clock + 1;
      delivered := Some(LifecycleMark(Status(next)));
      shell := Some(Status(next));
      SetAuthEpoch();
    }

    /** The overlay's cancel: the epoch advances even though no status was delivered. */
    method CancelOverlay()
      modifies this
      ensures Abstract() == Step(old(Abstract()), Rekey)
      ensures authEpoch == old(authEpoch) + 1
    {
      clock := clock + 1;
      SetAuthEpoch();
    }

    /** A probe's answer, in the closure of the effect run that asked. */
    method ProbeAnswered(i: nat, health: Option<Health>, noticeDue: bool)
      requires i < |probes| && !probes[i].answered && probes[i].run < |runs|
      modifies this
      ensures Abstract() == Step(old(Abstract()), Answered(i, health, noticeDue))
    {
      hide SameHostedAuth, HostedAuthOf, LifecycleMark, Committed;
      clock := clock + 1;
      probes := probes[i := probes[i].(answered := true)];
      var run := runs[probes[i].run];
      if run.cancelled || health.None? { return; }
      var next := Stored(HostedAuthOf(run.key, health.value, noticeDue), probes[i].issuedAt);
      if run.asker.Quick? {
        hostedAuth := Some(next);
      } else {
        var held := if hostedAuth.Some? then Some(hostedAuth.value.auth) else None;
        if !SameHostedAuth(held, next.auth) { hostedAuth := Some(next); }
      }
    }
  }
}
