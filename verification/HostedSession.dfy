/**
 * The engine's side of `/health.session` (apps/sidecar/src/cloud-auth.ts and
 * apps/sidecar/src/cloud-engine.ts): the reading each session keeps and stamps, the one the engine
 * answers with past a refusal's teardown, and the refusal kept on disk for the next launch.
 *
 * The window keeps the answer it holds when a newer one agrees on everything but a refusal's cause. Why
 * that is exact is here: a state and its cause are stamped together, so no two readings this engine
 * ever answers differ in the cause alone.
 */
module HostedSession {
  import opened Prelude
  import opened DesktopGate

  const ACCOUNT_ERASED := "account_erased"

  const REFUSAL_CODES := {"refresh_missing", "refresh_expired", "refresh_revoked", "unauthorized"}

  /** One session opened in this process: its reading, whether its refusal was told, and whether it stopped. */
  datatype Opened = Opened(reading: Session, told: bool, stopped: bool)

  /** The refusal kept on disk. */
  datatype Kept = Kept(code: string, since: int, reused: bool)

  /** The engine and its directory; `log` holds every reading stamped or kept so far. */
  datatype Engine = Engine(
    clock: int, sessions: seq<Opened>, authed: Option<nat>, hosted: Option<Session>,
    kept: Option<Kept>, log: set<Session>)

  /** What a launch finds: a sealed pair, one it cannot open, or none; and whether the kept refusal reads. */
  datatype Seal = Sealed | Unreadable | NoSeal

  datatype Event =
    | Launched(at: int, seal: Seal, pending: bool, readable: bool, forgotten: bool)
    | SignedIn(at: int, forgotten: bool)
    | Minted(at: int, session: nat)
    | Faulted(at: int, session: nat, state: SessionState, fault: Option<string>)
    | RefusedBy(at: int, session: nat, code: string, reused: bool, toldAt: int, written: bool)
    | SignedOut(at: int, forgotten: bool)

  function FirstLaunch(at: int): Engine {
    Engine(at, [], None, None, None, {})
  }

  function Hosts(s: Engine, reading: Session): Engine {
    s.(hosted := Some(reading), log := s.log + {reading})
  }

  /** `activate`: a session of its own, live from now, and the kept refusal forgotten if the disk allows. */
  function Activate(s: Engine, at: int, forgotten: bool): Engine {
    var live := Session(SessionLive, None, at, false);
    Hosts(s.(sessions := s.sessions + [Opened(live, false, false)], authed := Some(|s.sessions|),
             kept := if forgotten then None else s.kept),
          live)
  }

  /** `report`: a new reading only where the state or the code changes, stamped with its cause in one piece. */
  function Report(s: Engine, i: nat, state: SessionState, code: Option<string>, retried: bool, reused: bool, at: int): Engine
    requires i < |s.sessions|
  {
    var was := s.sessions[i].reading;
    var changed := was.state != state || was.code != code;
    var reading := if changed then Session(state, code, at, reused) else was;
    if !changed && !retried then s
    else Hosts(s.(sessions := s.sessions[i := s.sessions[i].(reading := reading)]), reading)
  }

  /** `signOut`: the session in force is stopped, and there is none. */
  function SignOut(s: Engine): Engine {
    if s.authed.Some? && s.authed.value < |s.sessions| then
      var i := s.authed.value;
      s.(authed := None, sessions := s.sessions[i := s.sessions[i].(stopped := true)])
    else s.(authed := None)
  }

  /** `onSessionRefused`, once per session: a refusal of the door's own is kept, then the teardown. */
  function Tell(s: Engine, i: nat, code: string, reused: bool, at: int, written: bool): Engine
    requires i < |s.sessions|
  {
    if s.sessions[i].told then s
    else
      var t := s.(sessions := s.sessions[i := s.sessions[i].(told := true)]);
      var k := Kept(code, at, reused);
      SignOut(
        if code in REFUSAL_CODES && written then t.(kept := Some(k), log := t.log + {KeptReading(k)})
        else t)
  }

  /** What the next launch says of a kept refusal. */
  function KeptReading(k: Kept): Session {
    Session(RefusedBefore, Some(k.code), k.since, k.reused)
  }

  function Launch(s: Engine, seal: Seal, pending: bool, readable: bool, forgotten: bool): Engine {
    var t := s.(sessions := [], authed := None, hosted := None, kept := if readable then s.kept else None);
    if seal.Sealed? && !pending then Activate(t, s.clock, forgotten)
    else if seal.Unreadable? then Hosts(t, Session(SealFailed, Some("seal_unreadable"), s.clock, false))
    else if !pending && t.kept.Some? then Hosts(t, KeptReading(t.kept.value))
    else t
  }

  predicate Fault(state: SessionState) {
    state.Renewing? || state.UnreachableServer? || state.SealFailed?
  }

  /** A session that can still report: opened in this process and not stopped. */
  predicate Running(s: Engine, i: nat) {
    i < |s.sessions| && !s.sessions[i].stopped
  }

  function Step(s: Engine, e: Event): Engine {
    var c := s.(clock := if e.RefusedBy? then e.toldAt else e.at);
    match e
    case Launched(_, seal, pending, readable, forgotten) => Launch(c, seal, pending, readable, forgotten)
    case SignedIn(at, forgotten) => Activate(c, at, forgotten)
    case Minted(at, i) => if Running(c, i) then Report(c, i, SessionLive, None, false, false, at) else c
    case Faulted(at, i, state, code) =>
      if Running(c, i) && Fault(state) then Report(c, i, state, code, true, false, at) else c
    case RefusedBy(at, i, code, reused, toldAt, written) =>
      if !Running(c, i) then c
      else
        var cause := reused && code != ACCOUNT_ERASED;
        Tell(Report(c, i, RefusedNow, Some(code), false, cause, at), i, code, cause, toldAt, written)
    case SignedOut(_, forgotten) =>
      SignOut(c.(hosted := None, kept := if forgotten then None else c.kept))
  }

  function Run(s: Engine, es: seq<Event>): Engine
    decreases es
  {
    if es == [] then s else Run(Step(s, es[0]), es[1..])
  }

  /** The instant an event is stamped, and what it keeps, may be any; but no two refusals under one code share one. */
  predicate StampedApart(log: set<Session>, e: Event) {
    e.RefusedBy? ==>
      forall x :: x in log && x.code == Some(e.code) ==>
        (x.state.RefusedNow? ==> x.since != e.at) && (x.state.RefusedBefore? ==> x.since != e.toldAt)
  }

  predicate RefusedApart(s: Engine, es: seq<Event>)
    decreases es
  {
    es == [] || (StampedApart(s.log, es[0]) && RefusedApart(Step(s, es[0]), es[1..]))
  }

  // ---- One cause per stamp ----

  /** Alike but for the cause. */
  predicate Alike(x: Session, y: Session) {
    x.state == y.state && x.code == y.code && x.since == y.since
  }

  predicate NamesACause(state: SessionState) {
    state.RefusedNow? || state.RefusedBefore?
  }

  ghost predicate LogInv(log: set<Session>) {
    && (forall x :: x in log ==> x.reused ==> NamesACause(x.state))
    && (forall x, y :: x in log && y in log && Alike(x, y) ==> x == y)
  }

  ghost predicate Inv(s: Engine) {
    && LogInv(s.log)
    && (forall i :: 0 <= i < |s.sessions| ==> s.sessions[i].reading in s.log)
    && (s.hosted.Some? ==> s.hosted.value in s.log)
    && (s.kept.Some? ==> KeptReading(s.kept.value) in s.log)
  }

  /** A reading joins the log where it names no cause, or where the log has none like it. */
  lemma StampJoins(log: set<Session>, x: Session)
    requires LogInv(log)
    requires x in log || (if NamesACause(x.state) then forall y :: y in log ==> !Alike(x, y) else !x.reused)
    ensures LogInv(log + {x})
  {
  }

  /** The reading of a refusal, and then what is kept of it, join the log. */
  lemma RefusalJoins(log: set<Session>, e: Event)
    requires LogInv(log) && e.RefusedBy? && StampedApart(log, e)
    ensures var cause := e.reused && e.code != ACCOUNT_ERASED;
            var now, kept := Session(RefusedNow, Some(e.code), e.at, cause), KeptReading(Kept(e.code, e.toldAt, cause));
            LogInv(log + {now}) && LogInv(log + {kept}) && LogInv((log + {now}) + {kept})
  {
    var cause := e.reused && e.code != ACCOUNT_ERASED;
    var now, kept := Session(RefusedNow, Some(e.code), e.at, cause), KeptReading(Kept(e.code, e.toldAt, cause));
    StampJoins(log, now);
    StampJoins(log, kept);
    StampJoins(log + {now}, kept);
  }

  lemma ReportKeepsInv(s: Engine, i: nat, state: SessionState, code: Option<string>, retried: bool, reused: bool, at: int)
    requires Inv(s) && i < |s.sessions| && LogInv(s.log + {Session(state, code, at, reused)})
    ensures var t := Report(s, i, state, code, retried, reused, at);
            && Inv(t) && t.clock == s.clock && t.kept == s.kept && |t.sessions| == |s.sessions|
            && (t.log == s.log || t.log == s.log + {Session(state, code, at, reused)})
  {
    assert s.log + {s.sessions[i].reading} == s.log;
    hide LogInv;
  }

  lemma TellKeepsInv(s: Engine, i: nat, code: string, reused: bool, at: int, written: bool)
    requires Inv(s) && i < |s.sessions| && LogInv(s.log + {KeptReading(Kept(code, at, reused))})
    ensures var t := Tell(s, i, code, reused, at, written);
            Inv(t) && s.log <= t.log
  {
    hide LogInv;
  }

  lemma RefusalKeepsInv(s: Engine, e: Event)
    requires Inv(s) && e.RefusedBy? && Running(s, e.session) && StampedApart(s.log, e)
    ensures Inv(Step(s, e)) && s.log <= Step(s, e).log
  {
    RefusalJoins(s.log, e);
    var cause := e.reused && e.code != ACCOUNT_ERASED;
    var c := s.(clock := e.toldAt);
    assert Inv(c) by { hide LogInv; }
    hide LogInv, Inv, Report, Tell;
    ReportKeepsInv(c, e.session, RefusedNow, Some(e.code), false, cause, e.at);
    var r := Report(c, e.session, RefusedNow, Some(e.code), false, cause, e.at);
    TellKeepsInv(r, e.session, e.code, cause, e.toldAt, e.written);
  }

  lemma HostsKeepsInv(s: Engine, reading: Session)
    requires Inv(s) && LogInv(s.log + {reading})
    ensures Inv(Hosts(s, reading))
  {
    hide LogInv;
  }

  lemma ActivateKeepsInv(s: Engine, at: int, forgotten: bool)
    requires Inv(s)
    ensures Inv(Activate(s, at, forgotten)) && s.log <= Activate(s, at, forgotten).log
  {
    StampJoins(s.log, Session(SessionLive, None, at, false));
    hide LogInv;
  }

  lemma LaunchKeepsInv(s: Engine, seal: Seal, pending: bool, readable: bool, forgotten: bool)
    requires Inv(s)
    ensures var t := Launch(s, seal, pending, readable, forgotten); Inv(t) && s.log <= t.log
  {
    var t := s.(sessions := [], authed := None, hosted := None, kept := if readable then s.kept else None);
    var sealed := Session(SealFailed, Some("seal_unreadable"), s.clock, false);
    StampJoins(s.log, sealed);
    if t.kept.Some? { StampJoins(s.log, KeptReading(t.kept.value)); }
    assert Inv(t) by { hide LogInv; }
    hide LogInv, Inv, Activate;
    ActivateKeepsInv(t, s.clock, forgotten);
    HostsKeepsInv(t, sealed);
    if t.kept.Some? { HostsKeepsInv(t, KeptReading(t.kept.value)); }
  }

  lemma StepKeepsInv(s: Engine, e: Event)
    requires Inv(s) && StampedApart(s.log, e)
    ensures Inv(Step(s, e)) && s.log <= Step(s, e).log
  {
    hide LogInv, Launch, Activate, Tell, SignOut, StampedApart;
    var c := s.(clock := if e.RefusedBy? then e.toldAt else e.at);
    match e
    case RefusedBy(_, i, _, _, _, _) => if Running(s, i) { RefusalKeepsInv(s, e); }
    case Launched(_, seal, pending, readable, forgotten) => LaunchKeepsInv(c, seal, pending, readable, forgotten);
    case SignedIn(at, forgotten) => ActivateKeepsInv(c, at, forgotten);
    case Minted(at, i) =>
      StampJoins(c.log, Session(SessionLive, None, at, false));
      if Running(s, i) { ReportKeepsInv(c, i, SessionLive, None, false, false, at); }
    case Faulted(at, i, state, code) =>
      if Running(s, i) && Fault(state) {
        StampJoins(c.log, Session(state, code, at, false));
        ReportKeepsInv(c, i, state, code, true, false, at);
      }
    case SignedOut(_, forgotten) => SignOutKeepsInv(c.(hosted := None, kept := if forgotten then None else c.kept));
  }

  lemma SignOutKeepsInv(s: Engine)
    requires Inv(s)
    ensures Inv(SignOut(s)) && SignOut(s).log == s.log
  {
    hide LogInv;
  }

  lemma {:induction false} RunKeepsInv(s: Engine, es: seq<Event>)
    requires Inv(s) && RefusedApart(s, es)
    ensures Inv(Run(s, es)) && s.log <= Run(s, es).log
    decreases es
  {
    hide Inv, Step, StampedApart;
    if es != [] {
      StepKeepsInv(s, es[0]);
      RunKeepsInv(Step(s, es[0]), es[1..]);
    }
  }

  // ---- What the window keeps ----

  /** `/health` as this engine answers it; the rest of the answer is the caller's. */
  function HealthOf(s: Engine, rest: Health): Health {
    rest.(signedIn := Some(s.authed.Some?),
          sessionExpired := Some(s.hosted.Some? && s.hosted.value.state.RefusedNow? && s.hosted.value.code != Some(ACCOUNT_ERASED)),
          session := s.hosted)
  }

  /**
   * Two readings of one install's engine, any number of sign-ins, refusals, sign-outs and relaunches
   * apart, that agree on state, code and instant are one reading.
   */
  lemma AlikeIsTheSame(at: int, es: seq<Event>, fs: seq<Event>)
    requires RefusedApart(FirstLaunch(at), es) && RefusedApart(Run(FirstLaunch(at), es), fs)
    ensures var s := Run(FirstLaunch(at), es);
            var t := Run(s, fs);
            s.hosted.Some? && t.hosted.Some? && Alike(s.hosted.value, t.hosted.value) ==> s.hosted == t.hosted
  {
    RunKeepsInv(FirstLaunch(at), es);
    RunKeepsInv(Run(FirstLaunch(at), es), fs);
  }

  /**
   * A kept answer is exact, on any clock that does not stamp two refusals under one code in one
   * millisecond. Whatever two answers this engine gives, at whatever two points of any run,
   * and whichever of them the window holds, `sameHostedAuth` keeps the held one if and only if the
   * two are equal in every field, the cause it does not compare among them.
   */
  lemma KeptAnswerIsExact(
    at: int, es: seq<Event>, fs: seq<Event>, key: nat, laterKey: nat, rest: Health, laterRest: Health, due: bool, laterDue: bool)
    requires RefusedApart(FirstLaunch(at), es) && RefusedApart(Run(FirstLaunch(at), es), fs)
    ensures var s := Run(FirstLaunch(at), es);
            var a := HostedAuthOf(key, HealthOf(s, rest), due);
            var b := HostedAuthOf(laterKey, HealthOf(Run(s, fs), laterRest), laterDue);
            (SameHostedAuth(Some(a), b) <==> a == b) && (SameHostedAuth(Some(b), a) <==> a == b)
  {
    AlikeIsTheSame(at, es, fs);
    var s := Run(FirstLaunch(at), es);
    var a := HostedAuthOf(key, HealthOf(s, rest), due);
    var b := HostedAuthOf(laterKey, HealthOf(Run(s, fs), laterRest), laterDue);
    assert a.session == s.hosted && b.session == Run(s, fs).hosted;
    hide Run, HealthOf, HostedAuthOf;
    SameButForTheCause(a, b);
    SameButForTheCause(b, a);
    if a.session.Some? && b.session.Some? && Forget(a) == Forget(b) {
      assert Forget(a).session.value == Forget(b).session.value;
      assert Alike(a.session.value, b.session.value);
    }
  }

  /** And no further: two sign-ins refused in one millisecond, for two causes, give two answers taken for the same. */
  lemma OneMillisecondTwoCauses(at: int, key: nat, rest: Health, due: bool)
    ensures var s := Run(FirstLaunch(at), [SignedIn(at, true), RefusedBy(at, 0, "refresh_revoked", false, at, true)]);
            var t := Run(s, [SignedIn(at, true), RefusedBy(at, 1, "refresh_revoked", true, at, true)]);
            var a, b := HostedAuthOf(key, HealthOf(s, rest), due), HostedAuthOf(key, HealthOf(t, rest), due);
            SameHostedAuth(Some(a), b) && SignInCauseOf(a.session) == Revoked && SignInCauseOf(b.session) == Reused
  {
    var e, f := RefusedBy(at, 0, "refresh_revoked", false, at, true), RefusedBy(at, 1, "refresh_revoked", true, at, true);
    var signed := SignedIn(at, true);
    RunTwo(FirstLaunch(at), signed, e);
    var s1 := Step(FirstLaunch(at), signed);
    assert |s1.sessions| == 1 && !s1.sessions[0].stopped;
    var s := Step(s1, e);
    assert s.hosted == Some(Session(RefusedNow, Some("refresh_revoked"), at, false)) && s.authed == None && |s.sessions| == 1;
    RunTwo(s, signed, f);
    var t1 := Step(s, signed);
    assert |t1.sessions| == 2 && t1.sessions[1] == Opened(Session(SessionLive, None, at, false), false, false);
    var t := Step(t1, f);
    assert t.hosted == Some(Session(RefusedNow, Some("refresh_revoked"), at, true)) && t.authed == None;
  }

  lemma RunTwo(s: Engine, e: Event, f: Event)
    ensures Run(s, [e, f]) == Step(Step(s, e), f)
  {
    assert [e, f][1..] == [f] && [f][1..] == [];
    var t := Step(s, e);
    hide Step;
    assert Run(s, [e, f]) == Run(t, [f]) && Run(t, [f]) == Run(Step(t, f), []);
  }

  // ---- What each event makes of the answer ----

  /** The session in force runs, was not refused, and is the one opened last by a sign-in. */
  ghost predicate InForce(s: Engine) {
    && (forall i :: 0 <= i < |s.sessions| ==> Plain(s.sessions[i].reading))
    && (s.authed.Some? ==>
          && Running(s, s.authed.value) && !s.sessions[s.authed.value].told
          && !s.sessions[s.authed.value].reading.state.RefusedNow?)
  }

  /** A live reading has no code, and only a refused one a cause. */
  predicate Plain(r: Session) {
    (r.state.SessionLive? ==> r.code == None) && (!r.state.RefusedNow? ==> !r.reused)
  }

  lemma {:induction false} RunKeepsInForce(s: Engine, es: seq<Event>)
    requires InForce(s)
    ensures InForce(Run(s, es))
    decreases es
  {
    if es != [] {
      StepKeepsInForce(s, es[0]);
      hide InForce, Step;
      RunKeepsInForce(Step(s, es[0]), es[1..]);
    }
  }

  lemma ReportKeepsInForce(s: Engine, i: nat, state: SessionState, code: Option<string>, retried: bool, at: int)
    requires InForce(s) && i < |s.sessions| && !state.RefusedNow? && (state.SessionLive? ==> code == None)
    ensures InForce(Report(s, i, state, code, retried, false, at))
  {
  }

  lemma RefusalKeepsInForce(s: Engine, i: nat, code: string, reused: bool, at: int, toldAt: int, written: bool)
    requires InForce(s) && Running(s, i)
    ensures InForce(Tell(Report(s, i, RefusedNow, Some(code), false, reused, at), i, code, reused, toldAt, written))
  {
  }

  lemma StepKeepsInForce(s: Engine, e: Event)
    requires InForce(s)
    ensures InForce(Step(s, e))
  {
    var c := s.(clock := if e.RefusedBy? then e.toldAt else e.at);
    match e
    case Minted(at, i) => if Running(s, i) { ReportKeepsInForce(c, i, SessionLive, None, false, at); }
    case Faulted(at, i, state, code) =>
      if Running(s, i) && Fault(state) { ReportKeepsInForce(c, i, state, code, true, at); }
      hide Report;
    case RefusedBy(at, i, code, reused, toldAt, written) =>
      if Running(s, i) { RefusalKeepsInForce(c, i, code, reused && code != ACCOUNT_ERASED, at, toldAt, written); }
      hide Report, Tell;
    case SignedIn(_, _) =>
    case SignedOut(_, _) =>
    case Launched(_, _, _, _, _) =>
  }

  /** What `/health` says once an event has come, to the session in force where it is about one. */
  predicate AnswersTo(e: Event, before: Health, h: Health, kept: Option<Kept>) {
    match e
    case SignedIn(at, _) =>
      h.signedIn == Some(true) && h.sessionExpired == Some(false) && h.session == Some(Session(SessionLive, None, at, false))
    case Minted(_, _) =>
      && h.signedIn == Some(true)
      && (h == before
          || (h.sessionExpired == Some(false) && h.session.Some?
              && h.session.value.state == SessionLive && h.session.value.code == None && !h.session.value.reused))
    case Faulted(_, _, state, fault) =>
      && h.signedIn == Some(true) && h.sessionExpired == Some(false)
      && h.session.Some? && h.session.value.state == state && h.session.value.code == fault && !h.session.value.reused
    case RefusedBy(at, _, code, reused, _, _) =>
      && h.signedIn == Some(false) && h.sessionExpired == Some(code != "account_erased")
      && h.session == Some(Session(RefusedNow, Some(code), at, reused && code != "account_erased"))
    case SignedOut(_, _) => h.signedIn == Some(false) && h.sessionExpired == Some(false) && h.session == None
    case Launched(at, seal, pending, readable, _) =>
      && h.sessionExpired == Some(false)
      && (h.signedIn == Some(true) <==> seal.Sealed? && !pending)
      && h.session ==
         if seal.Sealed? && !pending then Some(Session(SessionLive, None, at, false))
         else if seal.Unreadable? then Some(Session(SealFailed, Some("seal_unreadable"), at, false))
         else if !pending && readable && kept.Some?
         then Some(Session(RefusedBefore, Some(kept.value.code), kept.value.since, kept.value.reused))
         else None
  }

  /** The event is about the session in force, where it is about one. */
  predicate AboutInForce(s: Engine, e: Event) {
    && (e.Minted? || e.Faulted? || e.RefusedBy? ==> s.authed == Some(e.session))
    && (e.Faulted? ==> Fault(e.state))
  }

  /** Wherever a run has come, each event is answered for: a sign-in, a renewal, a fault, a refusal, a sign-out, a launch. */
  lemma HealthFollows(at: int, es: seq<Event>, e: Event, rest: Health)
    requires AboutInForce(Run(FirstLaunch(at), es), e)
    ensures var s := Run(FirstLaunch(at), es);
            AnswersTo(e, HealthOf(s, rest), HealthOf(Step(s, e), rest), s.kept)
  {
    RunKeepsInForce(FirstLaunch(at), es);
  }

  /** A renewal after a fault of the session in force is told: the answer is live again. */
  lemma MintIsTold(at: int, es: seq<Event>, e: Event)
    requires e.Minted? && Run(FirstLaunch(at), es).authed == Some(e.session)
    ensures var s := Run(FirstLaunch(at), es);
            && e.session < |s.sessions|
            && (s.sessions[e.session].reading.state != SessionLive ==>
                  Step(s, e).hosted == Some(Session(SessionLive, None, e.at, false)))
  {
    RunKeepsInForce(FirstLaunch(at), es);
  }

  /** A fault says since when it is one: a state or a code that is new is stamped now, one that goes on keeps its stamp. */
  lemma FaultKeepsItsStart(at: int, es: seq<Event>, e: Event)
    requires e.Faulted? && Fault(e.state) && Run(FirstLaunch(at), es).authed == Some(e.session)
    ensures var s := Run(FirstLaunch(at), es);
            && e.session < |s.sessions|
            && var was := s.sessions[e.session].reading;
               Step(s, e).hosted ==
               if was.state == e.state && was.code == e.fault then Some(was) else Some(Session(e.state, e.fault, e.at, false))
  {
    RunKeepsInForce(FirstLaunch(at), es);
  }

  /** The event is an answer that session `i` heard. */
  predicate HeardBy(e: Event, i: nat) {
    (e.Minted? || e.Faulted? || e.RefusedBy?) && e.session == i
  }

  lemma {:induction false} StoppedSaysNothing(s: Engine, es: seq<Event>, i: nat)
    requires i < |s.sessions| && s.sessions[i].stopped
    requires forall k :: 0 <= k < |es| ==> HeardBy(es[k], i)
    ensures var t := Run(s, es); t == s.(clock := t.clock)
    decreases es
  {
    if es != [] {
      assert HeardBy(es[0], i);
      var t := Step(s, es[0]);
      assert t == s.(clock := t.clock);
      hide Step;
      StoppedSaysNothing(t, es[1..], i);
    }
  }

  /**
   * A session that was refused or signed out of has said its last: whatever it still hears, a refusal among
   * it, changes neither what is answered nor what is kept.
   */
  lemma LateAnswersSayNothing(at: int, es: seq<Event>, e: Event, late: seq<Event>, rest: Health)
    requires var s := Run(FirstLaunch(at), es);
             && s.authed.Some? && (e.SignedOut? || (e.RefusedBy? && e.session == s.authed.value))
             && forall k :: 0 <= k < |late| ==> HeardBy(late[k], s.authed.value)
    ensures var s := Run(FirstLaunch(at), es);
            var t := Step(s, e);
            HealthOf(Run(t, late), rest) == HealthOf(t, rest) && Run(t, late).kept == t.kept
  {
    RunKeepsInForce(FirstLaunch(at), es);
    var s := Run(FirstLaunch(at), es);
    EndStops(s, e);
    hide InForce, Step;
    StoppedSaysNothing(Step(s, e), late, s.authed.value);
  }

  lemma EndStops(s: Engine, e: Event)
    requires InForce(s) && s.authed.Some? && (e.SignedOut? || (e.RefusedBy? && e.session == s.authed.value))
    ensures var t := Step(s, e); s.authed.value < |t.sessions| && t.sessions[s.authed.value].stopped
  {
  }

  /** Only a refusal of the refresh door's own is kept: the erasure of an account is not. */
  lemma OnlyRefusalsAreKept(s: Engine, e: Event)
    requires e.RefusedBy? && e.code !in {"refresh_missing", "refresh_expired", "refresh_revoked", "unauthorized"}
    ensures Step(s, e).kept == s.kept
  {
  }

  /** A launch that opens no session and leaves the kept refusal readable. */
  predicate LaunchesWithout(e: Event) {
    e.Launched? && !e.seal.Sealed? && e.readable
  }

  lemma {:induction false} LaunchesKeep(s: Engine, launches: seq<Event>)
    requires forall k :: 0 <= k < |launches| ==> LaunchesWithout(launches[k])
    ensures Run(s, launches).kept == s.kept
    decreases launches
  {
    if launches != [] {
      assert LaunchesWithout(launches[0]);
      LaunchesKeep(Step(s, launches[0]), launches[1..]);
    }
  }

  /**
   * A refusal kept on disk is told at every later launch that has no session, however many there are, with
   * its own code, instant and cause, until a session or the person's sign-out forgets it.
   */
  lemma KeptRefusalIsTold(at: int, es: seq<Event>, e: Event, launches: seq<Event>, last: Event, rest: Health)
    requires e.RefusedBy? && e.code in REFUSAL_CODES && e.written && Run(FirstLaunch(at), es).authed == Some(e.session)
    requires forall k :: 0 <= k < |launches| ==> LaunchesWithout(launches[k])
    requires LaunchesWithout(last) && last.seal.NoSeal? && !last.pending
    ensures var t := Step(Run(Step(Run(FirstLaunch(at), es), e), launches), last);
            var h := HealthOf(t, rest);
            && h.signedIn == Some(false) && h.sessionExpired == Some(false)
            && h.session == Some(Session(RefusedBefore, Some(e.code), e.toldAt, e.reused))
  {
    RunKeepsInForce(FirstLaunch(at), es);
    var refused := Step(Run(FirstLaunch(at), es), e);
    RefusalIsKept(Run(FirstLaunch(at), es), e);
    hide InForce;
    LaunchesKeep(refused, launches);
    LaunchTells(Run(refused, launches), last, rest);
    hide Run, Step, HealthOf;
  }

  lemma RefusalIsKept(s: Engine, e: Event)
    requires InForce(s) && e.RefusedBy? && e.code in REFUSAL_CODES && e.written && s.authed == Some(e.session)
    ensures Step(s, e).kept == Some(Kept(e.code, e.toldAt, e.reused))
  {
  }

  lemma LaunchTells(s: Engine, e: Event, rest: Health)
    requires LaunchesWithout(e) && e.seal.NoSeal? && !e.pending && s.kept.Some?
    ensures var h := HealthOf(Step(s, e), rest);
            && h.signedIn == Some(false) && h.sessionExpired == Some(false)
            && h.session == Some(Session(RefusedBefore, Some(s.kept.value.code), s.kept.value.since, s.kept.value.reused))
  {
  }

  /** A session or a sign-out that the disk lets forget the refusal leaves none to tell. */
  lemma ForgottenRefusalIsNotTold(s: Engine, e: Event)
    requires (e.SignedIn? || e.SignedOut?) && e.forgotten
    ensures Step(s, e).kept == None
  {
  }
}
