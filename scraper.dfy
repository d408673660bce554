/** The scraper object: its browser driver (a generation counter standing for
    the Selenium session it holds), the configured recipient numbers, and the
    logs of what one or more ticks did. Each method does what the source's
    method of the same name does, with the browser and the SMS provider
    replaced by their outcomes, and is proved against the specification
    functions of SlotScan, Session and Notify. */
module Scraper {
  import opened Wrappers
  import opened Templates
  import opened Notify
  import opened SlotScan
  import Session

  /** `sendTextMessage` never returns normally: it ends with the provider's
      exception, or with the `SystemExit` that `exit(1)` raises. */
  datatype SendEnd = ProviderRaised | SystemExit

  class TescoScraper {
    /** `phone_numbers`, the comma-split of the configured list. */
    const phoneNumbers: seq<string>
    /** How many drivers `setupSelenium` has built; 0 before the first. */
    var driver: nat
    /** The session and scan steps taken, in order. */
    var steps: seq<Session.Step>
    /** The addresses the scan handed the browser, in order. */
    var visited: seq<string>
    /** The text messages the provider accepted, in order. */
    var sent: seq<Sms>
    /** Whether the latest scan pass ended early. */
    var cutShort: bool

    constructor (phoneConfig: string)
      ensures phoneNumbers == Split(phoneConfig)
      ensures driver == 0 && steps == [] && visited == [] && sent == [] && !cutShort
    {
      phoneNumbers := Split(phoneConfig);
      driver := 0;
      steps := [];
      visited := [];
      sent := [];
      cutShort := false;
    }

    /** `setupSelenium`: a new driver replaces the old one. */
    method SetupSelenium()
      modifies this`driver, this`steps
      ensures driver == old(driver) + 1
      ensures steps == old(steps) + [Session.Setup]
    {
      driver := driver + 1;
      steps := steps + [Session.Setup];
    }

    /** `driver.quit()`. */
    method QuitDriver()
      modifies this`steps
      ensures steps == old(steps) + [Session.Quit]
    {
      steps := steps + [Session.Quit];
    }

    /** `sendTextMessage`: build the body, send it to each number in order,
        then `exit(1)`. The first refusal raises out of the loop, so later
        numbers get nothing; the date argument is not used. */
    method SendTextMessage(collectionOrDelivery: string, location: string, date: string,
                           buttonDetails: string, accepts: Provider) returns (raised: SendEnd)
      modifies this`sent
      ensures sent == old(sent) + Delivered(phoneNumbers, SmsBody(collectionOrDelivery, location, buttonDetails), accepts)
      ensures raised == SystemExit <==> forall i :: 0 <= i < |phoneNumbers| ==>
        accepts(phoneNumbers[i], SmsBody(collectionOrDelivery, location, buttonDetails))
    {
      var body := SmsBody(collectionOrDelivery, location, buttonDetails);
      for i := 0 to |phoneNumbers|
        invariant sent == old(sent) + SmsTo(phoneNumbers[..i], body)
        invariant forall j :: 0 <= j < i ==> accepts(phoneNumbers[j], body)
      {
        if !accepts(phoneNumbers[i], body) {
          RefusalSkipsTheRest(phoneNumbers, body, accepts, i);
          return ProviderRaised;
        }
        assert SmsTo(phoneNumbers[..i + 1], body) == SmsTo(phoneNumbers[..i], body) + [Sms(phoneNumbers[i], body)];
        sent := sent + [Sms(phoneNumbers[i], body)];
      }
      AllAccepted(phoneNumbers, body, accepts);
      assert phoneNumbers[..|phoneNumbers|] == phoneNumbers;
      return SystemExit;
    }

    /** `is_logged_id`: load the login page, then wait for the username
        field. */
    method IsLoggedId(probe: Session.ProbeOutcome) returns (answer: Session.Answer)
      modifies this`steps
      ensures steps == old(steps) + [Session.Probe]
      ensures answer == Session.ProbeAnswer(probe)
    {
      steps := steps + [Session.Probe];
      if probe.load.LoadRaises? {
        return Session.Raised(probe.load.failure);
      }
      if probe.wait == Session.UsernameShown {
        return Session.Known(false);
      }
      return Session.Known(true);
    }

    /** `loginToTesco`: completes, or raises what the browser raised. */
    method LoginToTesco(outcome: Session.LoginOutcome) returns (raised: Option<Session.Failure>)
      modifies this`steps
      ensures steps == old(steps) + [Session.Login]
      ensures raised.Some? <==> outcome.LoginRaises?
      ensures outcome.LoginRaises? ==> raised.value == outcome.failure
    {
      steps := steps + [Session.Login];
      if outcome.LoginRaises? {
        return Some(outcome.failure);
      }
      return None;
    }

    /** One guarded query of `scanForSlots`: load the address; a failed load
        tells the caller to return; otherwise, when slot buttons render, take
        the last one's text and send the alert. Whatever the alert routine
        raises (the provider's error or `SystemExit`) the bare `except:` drops. */
    method TryQuery(q: Query, w: World) returns (loaded: bool)
      modifies this`visited, this`sent
      ensures Trace(visited, sent, !loaded) == Visit(Trace(old(visited), old(sent), false), q, w, phoneNumbers)
    {
      var url := Url(q);
      visited := visited + [url];
      var page := w.page(url);
      if page.NavFail? {
        return false;
      }
      if page.Slots? && page.texts != [] {
        var buttonDetails := page.texts[|page.texts| - 1];
        assert SlotShown(w, q) && buttonDetails == LastSlotText(w, q);
        var ignored;
        match q {
          case Collection(date, locationId) =>
            ignored := SendTextMessage(locationId, "Collection", date, buttonDetails, w.accepts);
          case Delivery(date, _) =>
            ignored := SendTextMessage("Home Delivery", "Delivery", date, buttonDetails, w.accepts);
        }
        assert sent == old(sent) + Notices(q, w, phoneNumbers);
      } else {
        assert Notices(q, w, phoneNumbers) == [];
      }
      return true;
    }

    /** The body of `scanForSlots`'s date loop for one date: the four stores
        in table order, then delivery in slot group 4 and in slot group 1. A
        failed load makes the caller return at once. */
    method ScanDate(date: string, w: World) returns (loaded: bool)
      modifies this`visited, this`sent
      ensures Trace(visited, sent, !loaded)
        == ScanQueries(Trace(old(visited), old(sent), false), DayQueries(date), w, phoneNumbers)
    {
      ghost var final := ScanQueries(Trace(visited, sent, false), DayQueries(date), w, phoneNumbers);
      ghost var todo := DayQueries(date);
      for j := 0 to |Locations|
        invariant todo == DayQueries(date)[j..]
        invariant ScanQueries(Trace(visited, sent, false), todo, w, phoneNumbers) == final
      {
        DayQueryAt(date, j);
        ghost var here := Trace(visited, sent, false);
        ScanFirst(here, todo, w, phoneNumbers);
        loaded := TryQuery(Collection(date, Locations[j]), w);
        if !loaded {
          CutShortStays(Trace(visited, sent, true), todo[1..], w, phoneNumbers);
          return;
        }
        todo := todo[1..];
      }
      assert todo == [Delivery(date, 4), Delivery(date, 1)];
      ScanFirst(Trace(visited, sent, false), todo, w, phoneNumbers);
      loaded := TryQuery(Delivery(date, 4), w);
      if !loaded {
        CutShortStays(Trace(visited, sent, true), [Delivery(date, 1)], w, phoneNumbers);
        return;
      }
      ScanFirst(Trace(visited, sent, false), [Delivery(date, 1)], w, phoneNumbers);
      loaded := TryQuery(Delivery(date, 1), w);
    }

    /** `scanForSlots`: the landing page, then for each date the four stores
        and the two delivery slot groups; a failed query load returns at once. */
    method ScanForSlots(today: string, nextWeek: string, fortnight: string, w: World)
      returns (raised: Option<Session.Failure>)
      modifies this`visited, this`sent, this`cutShort, this`steps
      ensures steps == old(steps) + [Session.Scan]
      ensures Trace(visited, sent, cutShort)
        == ScanPass(Trace(old(visited), old(sent), old(cutShort)), today, nextWeek, fortnight, w, phoneNumbers)
      ensures raised == if w.landing.LoadRaises? then Some(w.landing.failure) else None
    {
      steps := steps + [Session.Scan];
      visited := visited + [CollectionLanding];
      if w.landing.LoadRaises? {
        cutShort := true;
        return Some(w.landing.failure);
      }
      cutShort := false;
      var dates := [today, nextWeek, fortnight];
      ghost var final := ScanQueries(Trace(visited, sent, false), Queries(dates), w, phoneNumbers);
      assert dates[0..] == dates;
      for i := 0 to |dates|
        invariant steps == old(steps) + [Session.Scan]
        invariant !cutShort
        invariant ScanQueries(Trace(visited, sent, false), Queries(dates[i..]), w, phoneNumbers) == final
      {
        ghost var before := Trace(visited, sent, false);
        assert dates[i..][1..] == dates[i + 1..];
        ScanAppend(before, DayQueries(dates[i]), Queries(dates[i + 1..]), w, phoneNumbers);
        var loaded := ScanDate(dates[i], w);
        if !loaded {
          CutShortStays(Trace(visited, sent, true), Queries(dates[i + 1..]), w, phoneNumbers);
          cutShort := true;
          return None;
        }
      }
      assert dates[|dates|..] == [];
      return None;
    }

    /** The `try` block of `run`: the probe, then a login when the probe saw
        the login form. Returns what escapes it. */
    method TryLogin(probe: Session.ProbeOutcome, login: Session.LoginOutcome)
      returns (tryRaised: Option<Session.Failure>)
      modifies this`steps
      ensures steps == old(steps) + Session.TrySteps(probe)
      ensures tryRaised == Session.TryRaised(probe, login)
    {
      tryRaised := None;
      var answer := IsLoggedId(probe);
      if answer.Raised? {
        tryRaised := Some(answer.failure);
      } else if !answer.loggedIn {
        tryRaised := LoginToTesco(login);
      }
    }

    /** The `except InvalidSessionIdException` block of `run`: quit the
        driver, build a new one and log in once more. */
    method Recover(relogin: Session.LoginOutcome) returns (raised: Option<Session.Failure>)
      modifies this`driver, this`steps
      ensures driver == old(driver) + 1
      ensures steps == old(steps) + [Session.Quit, Session.Setup, Session.Login]
      ensures raised == if relogin.LoginDone? then None else Some(relogin.failure)
    {
      QuitDriver();
      SetupSelenium();
      raised := LoginToTesco(relogin);
    }

    /** `run`, one tick: the `try` block; on InvalidSessionId the recovery;
        then the scan. Other exceptions from the `try` block, and any from the
        login of the recovery, escape the tick before the scan. */
    method Run(probe: Session.ProbeOutcome, login: Session.LoginOutcome, relogin: Session.LoginOutcome,
               today: string, nextWeek: string, fortnight: string, w: World)
      returns (escaped: Option<Session.Failure>)
      modifies this`driver, this`steps, this`visited, this`sent, this`cutShort
      ensures steps == old(steps) + Session.PlanTick(probe, login, relogin).steps
      ensures driver == old(driver) + (if Session.Recovers(probe, login) then 1 else 0)
      ensures Session.PlanTick(probe, login, relogin).escaped.Some? ==>
        && escaped == Session.PlanTick(probe, login, relogin).escaped
        && visited == old(visited) && sent == old(sent) && cutShort == old(cutShort)
      ensures Session.PlanTick(probe, login, relogin).escaped.None? ==>
        && Trace(visited, sent, cutShort)
           == ScanPass(Trace(old(visited), old(sent), old(cutShort)), today, nextWeek, fortnight, w, phoneNumbers)
        && escaped == if w.landing.LoadRaises? then Some(w.landing.failure) else None
    {
      Session.PlanTickByTry(probe, login, relogin);
      var tryRaised := TryLogin(probe, login);
      ghost var sessionSteps := Session.TrySteps(probe);
      if tryRaised == Some(Session.InvalidSessionId) {
        var raised := Recover(relogin);
        AppendAssoc(old(steps), sessionSteps, [Session.Quit, Session.Setup, Session.Login]);
        sessionSteps := sessionSteps + [Session.Quit, Session.Setup, Session.Login];
        if raised.Some? {
          return raised;
        }
      } else if tryRaised.Some? {
        return tryRaised;
      }
      escaped := ScanForSlots(today, nextWeek, fortnight, w);
      AppendAssoc(old(steps), sessionSteps, [Session.Scan]);
    }
  }
}
