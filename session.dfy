/** The session part of one polling tick: probe whether the browser is logged
    in, log in when it is not, and recover from a dead browser session by
    quitting the driver, building a new one and logging in once more. The
    browser's answers are inputs. */
module Session {
  import opened Wrappers

  /** An exception a browser call raises: the driver's session id is no longer
      valid, or anything else (a missing element, a network error, ...). */
  datatype Failure = InvalidSessionId | OtherError

  /** Loading a page either works or raises. */
  datatype LoadOutcome = Loaded | LoadRaises(failure: Failure)

  /** Waiting up to ten seconds for the username field: it shows up, the wait
      times out, or some other exception is raised inside the wait. */
  datatype WaitOutcome = UsernameShown | TimedOut | WaitRaises

  /** What the browser does during the login probe. */
  datatype ProbeOutcome = ProbeOutcome(load: LoadOutcome, wait: WaitOutcome)

  /** Logging in either completes or raises. */
  datatype LoginOutcome = LoginDone | LoginRaises(failure: Failure)

  /** The probe's answer: whether the browser is logged in, or the exception
      the probe's page load raised. */
  datatype Answer = Known(loggedIn: bool) | Raised(failure: Failure)

  /** The steps a tick takes, in order. */
  datatype Step = Probe | Login | Quit | Setup | Scan

  /** The steps of a tick and the exception, if any, that escapes it before
      the scan starts. */
  datatype TickPlan = TickPlan(steps: seq<Step>, escaped: Option<Failure>)

  /** The login probe: logged out exactly when the username field appears
      within the wait; a time-out or any exception inside the wait counts as
      logged in. Only the page load before the wait can raise. */
  function ProbeAnswer(p: ProbeOutcome): (r: Answer)
    ensures r.Raised? <==> p.load.LoadRaises?
    ensures p.load.LoadRaises? ==> r == Raised(p.load.failure)
    ensures r == Known(false) <==> p.load == Loaded && p.wait == UsernameShown
    ensures r == Known(true) <==> p.load == Loaded && p.wait != UsernameShown
  {
    match p.load
    case LoadRaises(f) => Raised(f)
    case Loaded => Known(p.wait != UsernameShown)
  }

  /** Whether an InvalidSessionId escapes the guarded part of the tick (the
      probe's page load, or the login the probe asked for). */
  predicate Recovers(probe: ProbeOutcome, login: LoginOutcome)
  {
    || ProbeAnswer(probe) == Raised(InvalidSessionId)
    || (ProbeAnswer(probe) == Known(false) && login == LoginRaises(InvalidSessionId))
  }

  /** The steps of the recovery path: quit, a new driver, one login, then the
      scan when that login completes. */
  function RecoveryTail(relogin: LoginOutcome): seq<Step>
  {
    [Quit, Setup, Login] + (if relogin.LoginDone? then [Scan] else [])
  }

  /** One tick's session handling followed by the scan. `login` is what the
      first login attempt does, `relogin` what the login after a rebuild does. */
  function PlanTick(probe: ProbeOutcome, login: LoginOutcome, relogin: LoginOutcome): (r: TickPlan)
    // the scan runs exactly when no exception escapes the session handling
    ensures Scan in r.steps <==> r.escaped.None?
    // what escapes: a non-session exception before the scan, or any exception from the second login
    ensures r.escaped.Some? <==>
      || ProbeAnswer(probe) == Raised(OtherError)
      || (ProbeAnswer(probe) == Known(false) && login == LoginRaises(OtherError))
      || (Recovers(probe, login) && relogin.LoginRaises?)
  {
    match ProbeAnswer(probe)
    case Raised(InvalidSessionId) =>
      if relogin.LoginDone? then TickPlan([Probe, Quit, Setup, Login, Scan], None)
      else TickPlan([Probe, Quit, Setup, Login], Some(relogin.failure))
    case Raised(OtherError) => TickPlan([Probe], Some(OtherError))
    case Known(true) => TickPlan([Probe, Scan], None)
    case Known(false) =>
      match login
      case LoginDone => TickPlan([Probe, Login, Scan], None)
      case LoginRaises(InvalidSessionId) =>
        if relogin.LoginDone? then TickPlan([Probe, Login, Quit, Setup, Login, Scan], None)
        else TickPlan([Probe, Login, Quit, Setup, Login], Some(relogin.failure))
      case LoginRaises(OtherError) => TickPlan([Probe, Login], Some(OtherError))
  }

  /** The exception, if any, that escapes the `try` block around the probe
      and the login it asks for. */
  function TryRaised(probe: ProbeOutcome, login: LoginOutcome): Option<Failure>
  {
    match ProbeAnswer(probe)
    case Raised(f) => Some(f)
    case Known(loggedIn) => if !loggedIn && login.LoginRaises? then Some(login.failure) else None
  }

  /** The steps of the `try` block: the probe, and a login when the probe saw
      the login form. */
  function TrySteps(probe: ProbeOutcome): seq<Step>
  {
    if ProbeAnswer(probe) == Known(false) then [Probe, Login] else [Probe]
  }

  /** A tick is its `try` block, then by what escaped it: the recovery after
      InvalidSessionId, the tick's end for any other exception, or the scan. */
  lemma PlanTickByTry(probe: ProbeOutcome, login: LoginOutcome, relogin: LoginOutcome)
    ensures Recovers(probe, login) <==> TryRaised(probe, login) == Some(InvalidSessionId)
    ensures PlanTick(probe, login, relogin) ==
      if TryRaised(probe, login) == Some(InvalidSessionId) then
        TickPlan(TrySteps(probe) + RecoveryTail(relogin), if relogin.LoginDone? then None else Some(relogin.failure))
      else if TryRaised(probe, login).Some? then TickPlan(TrySteps(probe), TryRaised(probe, login))
      else TickPlan(TrySteps(probe) + [Scan], None)
  {
    match ProbeAnswer(probe)
    case Raised(f) =>
    case Known(loggedIn) =>
      if !loggedIn {
        assert TrySteps(probe) == [Probe, Login];
      }
  }

  /** The probe runs first and exactly once: the recovery does not probe again. */
  lemma ProbeFirstAndOnce(probe: ProbeOutcome, login: LoginOutcome, relogin: LoginOutcome)
    ensures var r := PlanTick(probe, login, relogin);
      |r.steps| >= 1 && r.steps[0] == Probe && Probe !in r.steps[1..]
  {
  }

  /** When the scan runs, it is the last step and runs once. */
  lemma ScanRunsLast(probe: ProbeOutcome, login: LoginOutcome, relogin: LoginOutcome)
    ensures var r := PlanTick(probe, login, relogin);
      r.escaped.None? ==> r.steps[|r.steps| - 1] == Scan && Scan !in r.steps[..|r.steps| - 1]
  {
  }

  /** A login follows the probe directly exactly when the probe saw the login
      form; a logged-in probe goes straight to the scan; without a dead session
      there is at most one login and no new driver. */
  lemma LoginOnlyWhenLoggedOut(probe: ProbeOutcome, login: LoginOutcome, relogin: LoginOutcome)
    ensures var r := PlanTick(probe, login, relogin);
      && ((|r.steps| > 1 && r.steps[1] == Login) <==> ProbeAnswer(probe) == Known(false))
      && (ProbeAnswer(probe) == Known(true) ==> r.steps == [Probe, Scan])
      && (!Recovers(probe, login) ==> Setup !in r.steps && (|r.steps| <= 2 || Login !in r.steps[2..]))
  {
    var r := PlanTick(probe, login, relogin);
    match ProbeAnswer(probe)
    case Raised(f) =>
      if f == OtherError {
        assert r.steps == [Probe];
      }
    case Known(true) =>
      assert r.steps == [Probe, Scan];
    case Known(false) =>
      if login == LoginDone {
        assert r.steps == [Probe, Login, Scan];
      } else if login == LoginRaises(OtherError) {
        assert r.steps == [Probe, Login];
      }
  }

  /** The driver is quit only after a dead session. */
  lemma QuitOnlyOnDeadSession(probe: ProbeOutcome, login: LoginOutcome, relogin: LoginOutcome)
    ensures Quit in PlanTick(probe, login, relogin).steps <==> Recovers(probe, login)
  {
  }

  /** A dead session (InvalidSessionId from the probe's page load or from the
      first login) is recovered by quit, a new driver and one more login, in
      that order, each once. */
  lemma RecoveryOrder(probe: ProbeOutcome, login: LoginOutcome, relogin: LoginOutcome)
    requires Recovers(probe, login)
    ensures var r := PlanTick(probe, login, relogin);
      && |r.steps| >= |RecoveryTail(relogin)|
      && r.steps[|r.steps| - |RecoveryTail(relogin)|..] == RecoveryTail(relogin)
      && Quit !in r.steps[..|r.steps| - |RecoveryTail(relogin)|]
      && Setup !in r.steps[..|r.steps| - |RecoveryTail(relogin)|]
  {
    PlanTickByTry(probe, login, relogin);
    var head, tail := TrySteps(probe), RecoveryTail(relogin);
    var s := head + tail;
    assert PlanTick(probe, login, relogin).steps == s;
    assert s[|s| - |tail|..] == tail;
    assert s[..|s| - |tail|] == head;
  }
}
