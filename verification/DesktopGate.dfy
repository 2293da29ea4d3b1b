/**
 * What the desktop window shows, as pure decisions (apps/desktop/src/DesktopGate.tsx, with `gateFor`
 * and `mailMount` of apps/desktop/src/doors.ts and `signInCauseOf` and `copyRemovedBy` of
 * apps/desktop/src/cloud-session.ts): the reading of `/health`, the render-time adjustment of the
 * client engine, and the ordered returns that pick the screen.
 */
module DesktopGate {
  import opened Prelude

  // ---- The shell's status ----

  datatype EngineState = AbsentEngine | NotConfigured | NoKey | Starting | Serving | Restarting | Stopped | FailedEngine

  datatype DoorMode = LocalDoor | CloudDoor

  datatype EngineStatus = EngineStatus(
    state: EngineState, mode: Option<DoorMode>, flavor: Option<string>, mailboxId: Option<string>,
    credentialState: Option<string>, baseUrl: Option<string>, cloudUrl: Option<string>,
    address: Option<string>, identityPending: bool, doorPending: bool, switchPending: bool)

  datatype Shell = NoShell | Unreachable(reason: string) | Status(status: EngineStatus)

  /** `lifecycleMark`: the fields whose change is a different run, or a different state of this one. */
  datatype Mark =
    | BareMark(kind: string, reason: Option<string>)
    | StatusMark(
        state: EngineState, mode: Option<DoorMode>, flavor: Option<string>, mailboxId: Option<string>,
        credentialState: Option<string>, baseUrl: Option<string>, cloudUrl: Option<string>)

  function LifecycleMark(shell: Shell): Mark {
    match shell
    case NoShell => BareMark("none", None)
    case Unreachable(reason) => BareMark("unreachable", Some(reason))
    case Status(s) => StatusMark(s.state, s.mode, s.flavor, s.mailboxId, s.credentialState, s.baseUrl, s.cloudUrl)
  }

  datatype Gate = Choose | Notice | App

  function GateFor(shell: Shell): Gate {
    match shell
    case NoShell => Choose
    case Unreachable(_) => Notice
    case Status(s) =>
      match s.state
      case NotConfigured => Choose
      case AbsentEngine | NoKey | FailedEngine => Notice
      case Starting | Serving | Restarting | Stopped =>
        if s.identityPending || s.doorPending then Choose else if s.mode.Some? then App else Choose
  }

  datatype MailMount = EngineMount(key: string) | Opening

  /** The mailbox an engine says it is serving, if it is. */
  function ServedMailbox(shell: Shell): Option<string> {
    if shell.Status? && shell.status.state.Serving? && shell.status.mailboxId.Some? && shell.status.mailboxId.value != ""
    then shell.status.mailboxId else None
  }

  function MountFor(shell: Shell, mounted: Option<string>): MailMount {
    if ServedMailbox(shell).Some? then EngineMount(ServedMailbox(shell).value)
    else if !GateFor(shell).App? || mounted.None? then Opening
    else EngineMount(mounted.value)
  }

  // ---- The client engine on screen ----

  /** One client engine: the mailbox it is for, how it sends, and which object it is. */
  datatype Live = Live(key: string, stage: bool, engine: nat)

  /** The engine held in state, and how many have been built. */
  datatype Held = Held(live: Option<Live>, built: nat)

  function MountedKey(live: Option<Live>): Option<string> {
    if live.Some? then Some(live.value.key) else None
  }

  /**
   * One render pass: the client built, replaced or dropped while rendering. `gone` is a copy the
   * engine removed or an account that was erased.
   */
  function Pass(shell: Shell, held: Held, stage: bool, gone: bool): Held {
    var mount := MountFor(shell, MountedKey(held.live));
    if mount.EngineMount? && !gone
       && (held.live.None? || held.live.value.key != mount.key || held.live.value.stage != stage)
    then Held(Some(Live(mount.key, stage, held.built)), held.built + 1)
    else if (mount.Opening? || gone) && held.live.Some? then held.(live := None)
    else held
  }

  /** The adjustment settles: the pass it causes changes nothing more. */
  lemma PassSettles(shell: Shell, held: Held, stage: bool, gone: bool)
    ensures var next := Pass(shell, held, stage, gone); Pass(shell, next, stage, gone) == next
  {
    var next := Pass(shell, held, stage, gone);
    if next.live.Some? && next != held {
      assert MountFor(shell, MountedKey(next.live)) == MountFor(shell, MountedKey(held.live));
    }
  }

  /**
   * The settled render is coherent: the engine, the storage partition and the shell's key name one
   * mailbox, it is the one being served where one is, and nothing is held for an account that ended.
   */
  lemma SettledIsCoherent(shell: Shell, held: Held, stage: bool, gone: bool)
    ensures var next := Pass(shell, held, stage, gone);
            var mount := MountFor(shell, MountedKey(next.live));
            && (gone ==> next.live.None?)
            && (mount.Opening? ==> next.live.None?)
            && (mount.EngineMount? && !gone ==>
                  next.live.Some? && next.live.value.key == mount.key && next.live.value.stage == stage)
            && (ServedMailbox(shell).Some? ==> mount == EngineMount(ServedMailbox(shell).value))
  {
  }

  /** One commit's inputs: the shell's answer, the door's way of sending, and whether the account ended. */
  datatype Reading = Reading(shell: Shell, stage: bool, gone: bool)

  function Settle(held: Held, readings: seq<Reading>): Held
    decreases readings
  {
    if readings == [] then held
    else Settle(Pass(readings[0].shell, held, readings[0].stage, readings[0].gone), readings[1..])
  }

  /** The engine behind the window may come and go, but it is `mailbox`'s and the door stays chosen. */
  predicate Undisturbed(r: Reading, mailbox: string, stage: bool) {
    && !r.gone && r.stage == stage
    && (ServedMailbox(r.shell) == Some(mailbox) || (ServedMailbox(r.shell).None? && GateFor(r.shell).App?))
  }

  /**
   * A restart does not empty the screen: across any number of bounces of the process behind it, the
   * very same client engine stays mounted, and a mailbox that is not its own never takes it over.
   */
  lemma {:induction false} RestartsKeepTheClient(held: Held, readings: seq<Reading>)
    requires held.live.Some?
    requires forall i :: 0 <= i < |readings| ==>
               Undisturbed(readings[i], held.live.value.key, held.live.value.stage)
    ensures Settle(held, readings) == held
    decreases readings
  {
    if readings != [] {
      var r := readings[0];
      assert Undisturbed(r, held.live.value.key, held.live.value.stage);
      assert Pass(r.shell, held, r.stage, r.gone) == held;
      RestartsKeepTheClient(held, readings[1..]);
    }
  }

  /** The last mailbox an engine served in these readings, or what was served before them. */
  function LastServed(before: Option<string>, readings: seq<Reading>): Option<string>
    decreases readings
  {
    if readings == [] then before
    else
      var now := ServedMailbox(readings[0].shell);
      LastServed(if now.Some? then now else before, readings[1..])
  }

  /** Whatever is on screen is the mailbox served last: never an earlier one under a later one's name. */
  lemma {:induction false} ClientIsTheLastServed(held: Held, before: Option<string>, readings: seq<Reading>)
    requires held.live.Some? ==> before == Some(held.live.value.key)
    ensures var live := Settle(held, readings).live; live.Some? ==> LastServed(before, readings) == Some(live.value.key)
    decreases readings
  {
    if readings != [] {
      var r := readings[0];
      var now := ServedMailbox(r.shell);
      ClientIsTheLastServed(
        Pass(r.shell, held, r.stage, r.gone), if now.Some? then now else before, readings[1..]);
    }
  }

  // ---- The hosted session ----

  datatype SessionState = SessionLive | Renewing | UnreachableServer | RefusedNow | SealFailed | RefusedBefore

  /** `/health.session`; `since` is the instant its ISO string names, `reused` the cause a reuse sweep leaves. */
  datatype Session = Session(state: SessionState, code: Option<string>, since: int, reused: bool)

  /** One `/health` answer, field by field; None where the engine sent none. */
  datatype Health = Health(
    signedIn: Option<bool>, sessionExpired: Option<bool>, restartRequired: Option<bool>,
    sealed: Option<bool>, accountErased: Option<bool>, queued: Option<int>, session: Option<Session>)

  datatype HostedAuth = HostedAuth(
    key: nat, gone: bool, preAuth: bool, restartRequired: bool, sealFailed: bool, erased: bool,
    session: Option<Session>, noticeDue: bool, queued: nat)

  function HostedAuthOf(key: nat, h: Health, noticeDue: bool): HostedAuth {
    HostedAuth(
      key,
      h.sessionExpired == Some(true),
      h.sessionExpired != Some(true) && h.signedIn == Some(false),
      h.restartRequired == Some(true),
      h.sealed == Some(false),
      h.accountErased == Some(true),
      h.session,
      noticeDue,
      if h.queued.Some? && h.queued.value > 0 then h.queued.value else 0)
  }

  function CodeOf(s: Option<Session>): Option<Option<string>> {
    if s.Some? then Some(s.value.code) else None
  }

  function StateOf(s: Option<Session>): Option<SessionState> {
    if s.Some? then Some(s.value.state) else None
  }

  function SinceOf(s: Option<Session>): Option<int> {
    if s.Some? then Some(s.value.since) else None
  }

  predicate SameHostedAuth(a: Option<HostedAuth>, b: HostedAuth) {
    && a.Some? && a.value.key == b.key && a.value.gone == b.gone && a.value.preAuth == b.preAuth
    && a.value.restartRequired == b.restartRequired && a.value.sealFailed == b.sealFailed
    && a.value.erased == b.erased && a.value.noticeDue == b.noticeDue && a.value.queued == b.queued
    && StateOf(a.value.session) == StateOf(b.session)
    && CodeOf(a.value.session) == CodeOf(b.session)
    && SinceOf(a.value.session) == SinceOf(b.session)
  }

  function CopyRemovedBy(s: Option<Session>): bool {
    s.Some? && (s.value.state.RefusedNow? || s.value.state.RefusedBefore?) && s.value.code == Some("refresh_revoked")
  }

  datatype SignInCause = NoCause | Revoked | Reused | Expired | Seal

  function SignInCauseOf(s: Option<Session>): SignInCause {
    if s.None? then NoCause
    else
      var refused := s.value.state.RefusedNow? || s.value.state.RefusedBefore?;
      if refused && s.value.code == Some("refresh_revoked") then if s.value.reused then Reused else Revoked
      else if refused && s.value.code == Some("refresh_expired") then Expired
      else if s.value.state.SealFailed? && s.value.code == Some("seal_unreadable") then Seal
      else NoCause
  }

  // ---- The screen ----

  /** Everything else the ordered returns read. */
  datatype View = View(
    accessRefused: bool, adoptionHeld: bool, pairingHeld: bool, firstPaintAsking: bool, paired: bool,
    overlay: bool, stage: bool)

  datatype Screen =
    | AccessLock | FirstFrame | NoticeCard | Chooser | AuthPending | ErasedCard | RestartCard
    | NotPairedCard | SignIn(cause: SignInCause) | RemovedCard(card: Option<SignInCause>)
    | OpeningFrame | Wordmark | Mail(key: string, card: Option<SignInCause>)

  /** What the window believes of the session: an answer counts only under the key it was earned under. */
  function Believed(authKey: Option<nat>, auth: Option<HostedAuth>): Option<HostedAuth> {
    if authKey.Some? && auth.Some? && auth.value.key == authKey.value then auth else None
  }

  predicate AccountEnded(believed: Option<HostedAuth>) {
    believed.Some? && (CopyRemovedBy(believed.value.session) || believed.value.erased)
  }

  /** The card of a refused session, over the mail or on its own page; the paired one names no cause. */
  function RefusedCard(believed: Option<HostedAuth>, v: View): Option<SignInCause> {
    if believed.None? || !believed.value.gone || v.overlay then None
    else Some(if v.paired then NoCause else SignInCauseOf(believed.value.session))
  }

  /** The returns, in their order. */
  function ScreenFor(shell: Option<Shell>, authKey: Option<nat>, auth: Option<HostedAuth>, live: Option<Live>, v: View): Screen {
    var believed := Believed(authKey, auth);
    if v.accessRefused then AccessLock
    else if shell.None? then FirstFrame
    else
      var gate := GateFor(shell.value);
      var mount := MountFor(shell.value, MountedKey(live));
      if gate.Notice? && !v.pairingHeld then NoticeCard
      else if gate.Choose? || v.adoptionHeld || v.pairingHeld then Chooser
      else if authKey.Some? && believed.None? then AuthPending
      else if believed.Some? && believed.value.erased then ErasedCard
      else if believed.Some? && believed.value.restartRequired then RestartCard
      else if believed.Some? && believed.value.preAuth && !believed.value.gone then
        if v.paired then NotPairedCard else SignIn(SignInCauseOf(believed.value.session))
      else if believed.Some? && CopyRemovedBy(believed.value.session) then RemovedCard(RefusedCard(believed, v))
      else if mount.Opening? || live.None? || live.value.key != mount.key then OpeningFrame
      else if v.firstPaintAsking then Wordmark
      else Mail(mount.key, RefusedCard(believed, v))
  }

  /** The mail is drawn only over a chosen door, a session answered for, and an engine of its own mailbox. */
  lemma MailIsDrawnOnlyOver(shell: Option<Shell>, authKey: Option<nat>, auth: Option<HostedAuth>, live: Option<Live>, v: View)
    requires ScreenFor(shell, authKey, auth, live, v).Mail?
    ensures shell.Some? && GateFor(shell.value).App?
    ensures live.Some? && ScreenFor(shell, authKey, auth, live, v).key == live.value.key
    ensures ServedMailbox(shell.value).Some? ==> ServedMailbox(shell.value) == Some(live.value.key)
    ensures authKey.Some? ==>
              var a := Believed(authKey, auth);
              && a.Some? && !a.value.erased && !a.value.restartRequired
              && (a.value.preAuth ==> a.value.gone) && !CopyRemovedBy(a.value.session)
  {
  }

  /** Neither a mailbox served nor a door chosen: whatever was held, no client is. */
  lemma NoDoorNoClient(shell: Shell, held: Held, stage: bool, gone: bool)
    requires shell.Status? ==>
               && !(shell.status.state.Serving? && shell.status.mailboxId.Some? && shell.status.mailboxId.value != "")
               && (shell.status.mode.None? || shell.status.identityPending || shell.status.doorPending
                   || !(shell.status.state.Starting? || shell.status.state.Serving?
                        || shell.status.state.Restarting? || shell.status.state.Stopped?))
    ensures Pass(shell, held, stage, gone).live.None?
  {
  }

  /** A client for another mailbox, or sending another way, is one that has not been before; any other stays. */
  lemma ClientsAreBuiltOnce(shell: Shell, held: Held, stage: bool, gone: bool)
    requires held.live.Some? ==> held.live.value.engine < held.built
    ensures var next := Pass(shell, held, stage, gone);
            && (next.live.Some? ==> next.live.value.engine < next.built && next.live.value.stage == stage)
            && (next.live.Some? && next.live != held.live ==> next.live.value.engine == held.built && next.built == held.built + 1)
            && (next.live.Some? && held.live.Some? && next.live.value.key == held.live.value.key && held.live.value.stage == stage ==>
                  next == held)
  {
  }

  // ---- From an answer to a screen ----

  /** What is held says what the answer said, field by field, but for a refusal's cause. */
  predicate Says(a: HostedAuth, h: Health, due: bool) {
    && (a.gone <==> h.sessionExpired == Some(true))
    && (a.preAuth <==> h.signedIn == Some(false) && h.sessionExpired != Some(true))
    && (a.restartRequired <==> h.restartRequired == Some(true))
    && (a.sealFailed <==> h.sealed == Some(false))
    && (a.erased <==> h.accountErased == Some(true))
    && a.noticeDue == due
    && (if h.queued.Some? && h.queued.value > 0 then h.queued == Some(a.queued) else a.queued == 0)
    && (a.session.Some? <==> h.session.Some?)
    && (h.session.Some? ==>
          && a.session.value.state == h.session.value.state
          && a.session.value.code == h.session.value.code
          && a.session.value.since == h.session.value.since)
  }

  /** A door is chosen, its engine is up or on its way, and nothing stands before the session's own screens. */
  predicate Reached(st: EngineStatus, v: View) {
    && !v.accessRefused && !v.adoptionHeld && !v.pairingHeld
    && (st.state.Starting? || st.state.Serving? || st.state.Restarting? || st.state.Stopped?)
    && st.mode.Some? && !st.identityPending && !st.doorPending
  }

  predicate SessionRevoked(h: Health) {
    && h.session.Some? && h.session.value.code == Some("refresh_revoked")
    && (h.session.value.state.RefusedNow? || h.session.value.state.RefusedBefore?)
  }

  /** The engine serves a mailbox, and the client on screen is that mailbox's. */
  predicate ServesItsClient(st: EngineStatus, live: Option<Live>) {
    && st.state.Serving? && st.mailboxId.Some? && st.mailboxId.value != ""
    && live.Some? && live.value.key == st.mailboxId.value
  }

  /** The cause a sign-in names, by the reading; whether a revoked session was a reuse sweep's is not told apart here. */
  predicate CauseSays(cause: SignInCause, session: Option<Session>) {
    if session.None? then cause == NoCause
    else
      var s := session.value;
      var refused := s.state.RefusedNow? || s.state.RefusedBefore?;
      match cause
      case Revoked | Reused => refused && s.code == Some("refresh_revoked")
      case Expired => refused && s.code == Some("refresh_expired")
      case Seal => s.state.SealFailed? && s.code == Some("seal_unreadable")
      case NoCause =>
        && !(refused && (s.code == Some("refresh_revoked") || s.code == Some("refresh_expired")))
        && !(s.state.SealFailed? && s.code == Some("seal_unreadable"))
  }

  /** A card stands if and only if the session was refused outside the overlay; a paired window's names no cause. */
  predicate CardSays(card: Option<SignInCause>, h: Health, v: View) {
    && (card.Some? <==> h.sessionExpired == Some(true) && !v.overlay)
    && (card.Some? ==> if v.paired then card.value == NoCause else CauseSays(card.value, h.session))
  }

  /** A reuse sweep's refusal says so, another revoke does not. */
  lemma CauseOfReuse(s: Session)
    requires (s.state.RefusedNow? || s.state.RefusedBefore?) && s.code == Some("refresh_revoked")
    ensures SignInCauseOf(Some(s)) == if s.reused then Reused else Revoked
  {
  }

  /** The mail, or what stands in its place while there is no client to draw it. */
  predicate MailSide(screen: Screen, st: EngineStatus, live: Option<Live>, v: View) {
    && (screen.OpeningFrame? || screen.Wordmark? || screen.Mail?)
    && (ServesItsClient(st, live) ==>
          if v.firstPaintAsking then screen == Wordmark else screen.Mail? && Some(screen.key) == st.mailboxId)
  }

  /** The screen a cloud door's answer comes to, read off the answer itself. */
  predicate ScreenSays(screen: Screen, h: Health, st: EngineStatus, live: Option<Live>, v: View) {
    if h.accountErased == Some(true) then screen == ErasedCard
    else if h.restartRequired == Some(true) then screen == RestartCard
    else if h.signedIn == Some(false) && h.sessionExpired != Some(true) then
      if v.paired then screen == NotPairedCard else screen.SignIn? && CauseSays(screen.cause, h.session)
    else if SessionRevoked(h) then screen.RemovedCard? && CardSays(screen.card, h, v)
    else MailSide(screen, st, live, v) && (screen.Mail? ==> CardSays(screen.card, h, v))
  }

  /** What an answer says is what is drawn. */
  lemma ScreenOfAnswer(st: EngineStatus, key: nat, a: HostedAuth, h: Health, due: bool, live: Option<Live>, v: View)
    requires Says(a, h, due) && a.key == key && Reached(st, v)
    ensures ScreenSays(ScreenFor(Some(Status(st)), Some(key), Some(a), live, v), h, st, live, v)
  {
    assert CopyRemovedBy(a.session) <==> SessionRevoked(h);
    assert CauseSays(SignInCauseOf(a.session), h.session);
    hide SignInCauseOf, CauseSays;
  }

  /** What stands before the session's own screens. */
  lemma ScreenBeforeTheSession(shell: Shell, authKey: Option<nat>, auth: Option<HostedAuth>, live: Option<Live>, v: View)
    requires !(shell.Status? && Reached(shell.status, v))
    ensures ScreenFor(None, authKey, auth, live, v) == if v.accessRefused then AccessLock else FirstFrame
    ensures ScreenFor(Some(shell), authKey, auth, live, v) ==
            if v.accessRefused then AccessLock
            else if !v.pairingHeld
                    && (shell.Unreachable?
                        || (shell.Status? && (shell.status.state.AbsentEngine? || shell.status.state.NoKey? || shell.status.state.FailedEngine?)))
            then NoticeCard
            else Chooser
  {
  }

  /** A door with no hosted session waits for none: its mail is drawn as soon as there is a client for it. */
  lemma ScreenWithoutSession(st: EngineStatus, auth: Option<HostedAuth>, live: Option<Live>, v: View)
    requires Reached(st, v)
    ensures var screen := ScreenFor(Some(Status(st)), None, auth, live, v);
            MailSide(screen, st, live, v) && (screen.Mail? ==> screen.card.None?)
  {
  }

  /** A cloud door with no believed answer draws nothing but the wait for one. */
  lemma ScreenWithoutAnswer(st: EngineStatus, key: nat, auth: Option<HostedAuth>, live: Option<Live>, v: View)
    requires Reached(st, v) && (auth.Some? ==> auth.value.key != key)
    ensures ScreenFor(Some(Status(st)), Some(key), auth, live, v) == AuthPending
  {
  }

  /** Two statuses have one mark if and only if they agree on every field that makes a run what it is. */
  lemma SameMarkIff(a: EngineStatus, b: EngineStatus)
    ensures LifecycleMark(Status(a)) == LifecycleMark(Status(b)) <==>
            && a.state == b.state && a.mode == b.mode && a.flavor == b.flavor && a.mailboxId == b.mailboxId
            && a.credentialState == b.credentialState && a.baseUrl == b.baseUrl && a.cloudUrl == b.cloudUrl
    ensures LifecycleMark(Status(a)) != LifecycleMark(NoShell)
    ensures forall reason :: LifecycleMark(Unreachable(reason)) != LifecycleMark(Status(a))
                             && LifecycleMark(Unreachable(reason)) != LifecycleMark(NoShell)
  {
  }

  /** A session reading without its cause. */
  function Forget(a: HostedAuth): HostedAuth {
    if a.session.Some? then a.(session := Some(a.session.value.(reused := false))) else a
  }

  lemma SameSession(a: HostedAuth, b: HostedAuth)
    ensures StateOf(a.session) == StateOf(b.session) && CodeOf(a.session) == CodeOf(b.session) && SinceOf(a.session) == SinceOf(b.session)
            <==> Forget(a).session == Forget(b).session
  {
  }

  /** Exactly what keeps the held answer: the two agree on everything but the cause of a refusal. */
  lemma SameButForTheCause(a: HostedAuth, b: HostedAuth)
    ensures SameHostedAuth(Some(a), b) <==> Forget(a) == Forget(b)
  {
    assert StateOf(a.session) == StateOf(b.session) && CodeOf(a.session) == CodeOf(b.session) && SinceOf(a.session) == SinceOf(b.session)
           <==> Forget(a).session == Forget(b).session by { SameSession(a, b); }
  }

  /**
   * So, of any two answers at all, one kept for a newer that says "the same" picks the same screen for
   * every window, but for one word of a sign-in card: revoked against reused.
   */
  lemma KeptAnswerDrawsTheSame(a: HostedAuth, b: HostedAuth, shell: Option<Shell>, authKey: Option<nat>, live: Option<Live>, v: View)
    requires SameHostedAuth(Some(a), b)
    ensures var kept, newer := ScreenFor(shell, authKey, Some(a), live, v), ScreenFor(shell, authKey, Some(b), live, v);
            || kept == newer
            || (kept.SignIn? && newer.SignIn? && {kept.cause, newer.cause} == {Revoked, Reused})
            || (kept.RemovedCard? && newer.RemovedCard? && {kept.card, newer.card} == {Some(Revoked), Some(Reused)})
  {
    SameButForTheCause(a, b);
    assert StateOf(a.session) == StateOf(b.session) && CodeOf(a.session) == CodeOf(b.session);
    assert SignInCauseOf(a.session) == SignInCauseOf(b.session)
           || {SignInCauseOf(a.session), SignInCauseOf(b.session)} == {Revoked, Reused};
  }
}
