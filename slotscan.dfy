/** One scan pass over the search space, as a function of what the site and
    the SMS provider do. The pass loads the collection landing page, then for
    each of the three dates queries collection at the four stores, then
    delivery in slot group 4 and in slot group 1. A failed page load ends the
    pass; a query without slot buttons is skipped; a query with slot buttons
    sends an alert with the last button's text, and the pass goes on, because
    the exit that ends the alert routine is caught by the query's bare
    `except:`. */
module SlotScan {
  import opened Templates
  import opened Notify
  import Session

  /** The store ids, in the order the location table lists them. */
  const Locations: seq<string> := ["7268", "7615", "7214", "7275"]

  /** One query of the search space. */
  datatype Query = Collection(date: string, locationId: string) | Delivery(date: string, slotGroup: nat)

  /** What loading a query page shows: the load raised, no
      `available-slot--button` rendered within the wait, or the texts of the
      buttons that did render, in page order. An empty list of buttons keeps
      the wait going, so it reads as no slot. */
  datatype PageOutcome = NavFail | NoSlots | Slots(texts: seq<string>)

  /** The outside world of one pass: whether the landing page loads, what each
      query address shows, and what the SMS provider accepts. */
  datatype World = World(landing: Session.LoadOutcome, page: string -> PageOutcome, accepts: Provider)

  /** What a pass leaves behind: the addresses handed to the browser, in
      order, the messages the provider accepted, in order, and whether the
      pass was cut short. */
  datatype Trace = Trace(visited: seq<string>, sent: seq<Sms>, cutShort: bool)

  function Url(q: Query): string
  {
    match q
    case Collection(date, locationId) => CollectionUrl(date, locationId)
    case Delivery(date, slotGroup) => DeliveryUrl(date, slotGroup)
  }

  /** The alert text for a slot found by `q`. A collection alert passes the
      store id where the channel label goes and "Collection" where the store
      goes; a delivery alert passes "Home Delivery" and "Delivery". */
  function NoticeBody(q: Query, slotText: string): string
  {
    match q
    case Collection(_, locationId) => SmsBody(locationId, "Collection", slotText)
    case Delivery(_, _) => SmsBody("Home Delivery", "Delivery", slotText)
  }

  predicate NavFails(w: World, q: Query)
  {
    w.page(Url(q)).NavFail?
  }

  /** Whether slot buttons render for `q`. */
  predicate SlotShown(w: World, q: Query)
  {
    w.page(Url(q)).Slots? && w.page(Url(q)).texts != []
  }

  /** The text of the last rendered slot button: the one clicked. */
  function LastSlotText(w: World, q: Query): string
    requires SlotShown(w, q)
  {
    var texts := w.page(Url(q)).texts;
    texts[|texts| - 1]
  }

  /** The messages a query produces when its page loads. */
  function Notices(q: Query, w: World, numbers: seq<string>): seq<Sms>
  {
    if SlotShown(w, q) then Delivered(numbers, NoticeBody(q, LastSlotText(w, q)), w.accepts) else []
  }

  /** One query: nothing once the pass is cut short; otherwise load the
      address, and either stop there or send what the page calls for. */
  function Visit(t: Trace, q: Query, w: World, numbers: seq<string>): Trace
  {
    if t.cutShort then t
    else Trace(t.visited + [Url(q)],
               t.sent + (if NavFails(w, q) then [] else Notices(q, w, numbers)),
               NavFails(w, q))
  }

  /** The queries in order, one after the other. */
  function ScanQueries(t: Trace, qs: seq<Query>, w: World, numbers: seq<string>): Trace
    decreases |qs|
  {
    if qs == [] then t else ScanQueries(Visit(t, qs[0], w, numbers), qs[1..], w, numbers)
  }

  /** The queries of one date: collection at each store, then delivery in
      slot group 4 and in slot group 1. */
  function DayQueries(date: string): seq<Query>
  {
    [Collection(date, Locations[0]), Collection(date, Locations[1]),
     Collection(date, Locations[2]), Collection(date, Locations[3]),
     Delivery(date, 4), Delivery(date, 1)]
  }

  lemma DayQueryAt(date: string, j: nat)
    requires j < |Locations|
    ensures DayQueries(date)[j] == Collection(date, Locations[j])
  {
  }

  /** The whole search space, date by date. */
  function Queries(dates: seq<string>): seq<Query>
    decreases |dates|
  {
    if dates == [] then [] else DayQueries(dates[0]) + Queries(dates[1..])
  }

  /** One pass: the landing page, then the queries for today, next week and
      the week after. A failing landing page raises out of the pass. */
  function ScanPass(t: Trace, today: string, nextWeek: string, fortnight: string, w: World, numbers: seq<string>): Trace
  {
    var start := Trace(t.visited + [CollectionLanding], t.sent, false);
    if w.landing.LoadRaises? then Trace(start.visited, start.sent, true)
    else ScanQueries(start, Queries([today, nextWeek, fortnight]), w, numbers)
  }

  function Urls(qs: seq<Query>): seq<string>
    decreases |qs|
  {
    if qs == [] then [] else [Url(qs[0])] + Urls(qs[1..])
  }

  function AllNotices(qs: seq<Query>, w: World, numbers: seq<string>): seq<Sms>
    decreases |qs|
  {
    if qs == [] then [] else Notices(qs[0], w, numbers) + AllNotices(qs[1..], w, numbers)
  }

  // ---------------------------------------------------------------------------
  // Properties of a pass

  /** Regrouping a concatenation, as a separate step: proving it inside the
      scan lemmas, next to their other sequence facts, costs the solver far more. */
  lemma AppendAssoc<T>(a: seq<T>, b: seq<T>, c: seq<T>)
    ensures a + (b + c) == (a + b) + c
  {
  }

  /** A list of queries is its first query, then the rest. */
  lemma ScanFirst(t: Trace, qs: seq<Query>, w: World, numbers: seq<string>)
    requires qs != []
    ensures ScanQueries(t, qs, w, numbers) == ScanQueries(Visit(t, qs[0], w, numbers), qs[1..], w, numbers)
  {
  }

  /** Once cut short, a pass loads and sends nothing more. */
  lemma {:induction false} CutShortStays(t: Trace, qs: seq<Query>, w: World, numbers: seq<string>)
    requires t.cutShort
    ensures ScanQueries(t, qs, w, numbers) == t
    decreases |qs|
  {
    if qs != [] {
      CutShortStays(t, qs[1..], w, numbers);
    }
  }

  /** Without a failed load every query is loaded, in order, and every query
      that shows slots alerts, whatever earlier queries sent: an alert does not
      end the pass. */
  lemma {:induction false} ScanWithoutNavFail(t: Trace, qs: seq<Query>, w: World, numbers: seq<string>)
    requires !t.cutShort
    requires forall i :: 0 <= i < |qs| ==> !NavFails(w, qs[i])
    ensures ScanQueries(t, qs, w, numbers)
      == Trace(t.visited + Urls(qs), t.sent + AllNotices(qs, w, numbers), false)
    decreases |qs|
  {
    if qs != [] {
      var u, n := Url(qs[0]), Notices(qs[0], w, numbers);
      var t1 := Visit(t, qs[0], w, numbers);
      assert t1 == Trace(t.visited + [u], t.sent + n, false) by {
        assert !NavFails(w, qs[0]);
      }
      var rest := qs[1..];
      assert forall i :: 0 <= i < |rest| ==> !NavFails(w, rest[i]) by {
        forall i | 0 <= i < |rest| ensures !NavFails(w, rest[i]) {
          assert rest[i] == qs[i + 1];
        }
      }
      ScanWithoutNavFail(t1, rest, w, numbers);
      var us, ns := Urls(rest), AllNotices(rest, w, numbers);
      assert Urls(qs) == [u] + us;
      assert AllNotices(qs, w, numbers) == n + ns;
      AppendAssoc(t.visited, [u], us);
      AppendAssoc(t.sent, n, ns);
    }
  }

  /** Scanning two lists of queries is scanning the first, then the second. */
  lemma {:induction false} ScanAppend(t: Trace, a: seq<Query>, b: seq<Query>, w: World, numbers: seq<string>)
    ensures ScanQueries(t, a + b, w, numbers) == ScanQueries(ScanQueries(t, a, w, numbers), b, w, numbers)
    decreases |a|
  {
    if a != [] {
      assert (a + b)[0] == a[0];
      assert (a + b)[1..] == a[1..] + b;
      ScanAppend(Visit(t, a[0], w, numbers), a[1..], b, w, numbers);
    } else {
      assert a + b == b;
    }
  }

  /** The first failed load ends the pass: the queries before it are loaded
      and alert as usual, its own address is the last one loaded, and nothing
      after it is loaded or sent. */
  lemma ScanStopsAtFirstNavFail(t: Trace, qs: seq<Query>, w: World, numbers: seq<string>, k: nat)
    requires !t.cutShort
    requires k < |qs| && NavFails(w, qs[k])
    requires forall i :: 0 <= i < k ==> !NavFails(w, qs[i])
    ensures ScanQueries(t, qs, w, numbers)
      == Trace(t.visited + Urls(qs[..k]) + [Url(qs[k])], t.sent + AllNotices(qs[..k], w, numbers), true)
  {
    var before, after := qs[..k], qs[k..];
    assert qs == before + after;
    ScanAppend(t, before, after, w, numbers);
    assert forall i :: 0 <= i < |before| ==> !NavFails(w, before[i]) by {
      forall i | 0 <= i < |before| ensures !NavFails(w, before[i]) {
        assert before[i] == qs[i];
      }
    }
    ScanWithoutNavFail(t, before, w, numbers);
    var reached := ScanQueries(t, before, w, numbers);
    assert after[0] == qs[k];
    var stopped := Visit(reached, after[0], w, numbers);
    assert stopped == Trace(reached.visited + [Url(qs[k])], reached.sent, true);
    CutShortStays(stopped, after[1..], w, numbers);
  }

  /** A pass is cut short exactly when some query's page load fails. */
  lemma {:induction false} CutShortIffNavFail(t: Trace, qs: seq<Query>, w: World, numbers: seq<string>)
    requires !t.cutShort
    ensures ScanQueries(t, qs, w, numbers).cutShort <==> exists i :: 0 <= i < |qs| && NavFails(w, qs[i])
    decreases |qs|
  {
    if qs != [] {
      var t1 := Visit(t, qs[0], w, numbers);
      if NavFails(w, qs[0]) {
        CutShortStays(t1, qs[1..], w, numbers);
      } else {
        CutShortIffNavFail(t1, qs[1..], w, numbers);
        if exists i :: 0 <= i < |qs| && NavFails(w, qs[i]) {
          var i :| 0 <= i < |qs| && NavFails(w, qs[i]);
          assert qs[1..][i - 1] == qs[i];
        }
        if exists i :: 0 <= i < |qs[1..]| && NavFails(w, qs[1..][i]) {
          var i :| 0 <= i < |qs[1..]| && NavFails(w, qs[1..][i]);
          assert qs[i + 1] == qs[1..][i];
        }
      }
    }
  }

  /** The search space of a pass: eighteen queries, date-major, and for each
      date the four stores in table order, then slot group 4, then slot group 1. */
  lemma QueryOrder(today: string, nextWeek: string, fortnight: string)
    ensures Queries([today, nextWeek, fortnight]) == [
      Collection(today, "7268"), Collection(today, "7615"), Collection(today, "7214"), Collection(today, "7275"),
      Delivery(today, 4), Delivery(today, 1),
      Collection(nextWeek, "7268"), Collection(nextWeek, "7615"), Collection(nextWeek, "7214"), Collection(nextWeek, "7275"),
      Delivery(nextWeek, 4), Delivery(nextWeek, 1),
      Collection(fortnight, "7268"), Collection(fortnight, "7615"), Collection(fortnight, "7214"), Collection(fortnight, "7275"),
      Delivery(fortnight, 4), Delivery(fortnight, 1)]
  {
    var dates := [today, nextWeek, fortnight];
    assert dates[1..] == [nextWeek, fortnight];
    assert dates[1..][1..] == [fortnight];
    assert dates[1..][1..][1..] == [];
    assert Queries(dates[1..][1..][1..]) == [];
    assert Queries(dates[1..][1..]) == DayQueries(fortnight) + [];
    assert Queries(dates[1..]) == DayQueries(nextWeek) + Queries(dates[1..][1..]);
    assert Queries(dates) == DayQueries(today) + Queries(dates[1..]);
  }

  /** The addresses of the search space, in order. */
  lemma PassUrls(today: string, nextWeek: string, fortnight: string)
    ensures Urls(Queries([today, nextWeek, fortnight])) == [
        CollectionUrl(today, "7268"), CollectionUrl(today, "7615"), CollectionUrl(today, "7214"), CollectionUrl(today, "7275"),
        DeliveryUrl(today, 4), DeliveryUrl(today, 1),
        CollectionUrl(nextWeek, "7268"), CollectionUrl(nextWeek, "7615"), CollectionUrl(nextWeek, "7214"), CollectionUrl(nextWeek, "7275"),
        DeliveryUrl(nextWeek, 4), DeliveryUrl(nextWeek, 1),
        CollectionUrl(fortnight, "7268"), CollectionUrl(fortnight, "7615"), CollectionUrl(fortnight, "7214"), CollectionUrl(fortnight, "7275"),
        DeliveryUrl(fortnight, 4), DeliveryUrl(fortnight, 1)]
  {
    var dates := [today, nextWeek, fortnight];
    assert dates[1..] == [nextWeek, fortnight];
    assert dates[1..][1..] == [fortnight];
    assert dates[1..][1..][1..] == [];
    assert Queries(dates[1..][1..][1..]) == [];
    var q3 := Queries(dates[1..][1..]);
    var q2 := Queries(dates[1..]);
    assert q3 == DayQueries(fortnight) + [];
    assert q2 == DayQueries(nextWeek) + q3;
    assert Queries(dates) == DayQueries(today) + q2;
    DayUrls(today);
    DayUrls(nextWeek);
    DayUrls(fortnight);
    UrlsAppend(DayQueries(fortnight), []);
    UrlsAppend(DayQueries(nextWeek), q3);
    UrlsAppend(DayQueries(today), q2);
  }

  /** The addresses of one date's queries, in order. */
  lemma DayUrls(date: string)
    ensures Urls(DayQueries(date)) == [
      CollectionUrl(date, "7268"), CollectionUrl(date, "7615"), CollectionUrl(date, "7214"), CollectionUrl(date, "7275"),
      DeliveryUrl(date, 4), DeliveryUrl(date, 1)]
  {
    UrlsAt(DayQueries(date));
  }

  lemma {:induction false} UrlsAppend(a: seq<Query>, b: seq<Query>)
    ensures Urls(a + b) == Urls(a) + Urls(b)
    decreases |a|
  {
    if a == [] {
      assert a + b == b;
    } else {
      assert (a + b)[1..] == a[1..] + b;
      UrlsAppend(a[1..], b);
      AppendAssoc([Url(a[0])], Urls(a[1..]), Urls(b));
    }
  }
  /** With every page loading, one pass hands the browser exactly nineteen
      addresses: the landing page, then per date the four store collection
      pages and the two delivery pages. */
  lemma NineteenUrlsWhenNothingFails(t: Trace, today: string, nextWeek: string, fortnight: string, w: World, numbers: seq<string>)
    requires w.landing == Session.Loaded
    requires forall i :: 0 <= i < |Queries([today, nextWeek, fortnight])| ==> !NavFails(w, Queries([today, nextWeek, fortnight])[i])
    ensures var r := ScanPass(t, today, nextWeek, fortnight, w, numbers);
      && !r.cutShort
      && r.visited == t.visited + [CollectionLanding] + [
        CollectionUrl(today, "7268"), CollectionUrl(today, "7615"), CollectionUrl(today, "7214"), CollectionUrl(today, "7275"),
        DeliveryUrl(today, 4), DeliveryUrl(today, 1),
        CollectionUrl(nextWeek, "7268"), CollectionUrl(nextWeek, "7615"), CollectionUrl(nextWeek, "7214"), CollectionUrl(nextWeek, "7275"),
        DeliveryUrl(nextWeek, 4), DeliveryUrl(nextWeek, 1),
        CollectionUrl(fortnight, "7268"), CollectionUrl(fortnight, "7615"), CollectionUrl(fortnight, "7214"), CollectionUrl(fortnight, "7275"),
        DeliveryUrl(fortnight, 4), DeliveryUrl(fortnight, 1)]
      && r.sent == t.sent + AllNotices(Queries([today, nextWeek, fortnight]), w, numbers)
  {
    var qs := Queries([today, nextWeek, fortnight]);
    var start := Trace(t.visited + [CollectionLanding], t.sent, false);
    ScanWithoutNavFail(start, qs, w, numbers);
    PassUrls(today, nextWeek, fortnight);
  }

  lemma {:induction false} UrlsAt(qs: seq<Query>)
    ensures |Urls(qs)| == |qs| && forall i :: 0 <= i < |qs| ==> Urls(qs)[i] == Url(qs[i])
    decreases |qs|
  {
    if qs != [] {
      var rest := qs[1..];
      UrlsAt(rest);
      assert Urls(qs) == [Url(qs[0])] + Urls(rest);
      forall i | 0 <= i < |qs|
        ensures Urls(qs)[i] == Url(qs[i])
      {
        if i > 0 {
          assert qs[i] == rest[i - 1];
        }
      }
    }
  }

  /** A query whose page shows slot buttons alerts with the text of the last
      button, in list order of the numbers, stopping at the first number the
      provider refuses; a query without buttons sends nothing. */
  lemma SlotAlertUsesLastButton(q: Query, w: World, numbers: seq<string>, i: nat)
    requires i < |Notices(q, w, numbers)|
    ensures SlotShown(w, q)
    ensures Notices(q, w, numbers)[i] == Sms(numbers[i], NoticeBody(q, LastSlotText(w, q)))
  {
  }

  /** The alert names neither the date nor, for delivery, the slot group:
      alerts for the same store on different dates, and all delivery alerts,
      read the same for the same slot text. */
  lemma NoticeBodyIgnoresDate(q1: Query, q2: Query, slotText: string)
    requires || (q1.Collection? && q2.Collection? && q1.locationId == q2.locationId)
             || (q1.Delivery? && q2.Delivery?)
    ensures NoticeBody(q1, slotText) == NoticeBody(q2, slotText)
  {
  }

  /** Different queries load different addresses (dates hold no '?'), so the
      order of loaded addresses is the order of queries. */
  lemma UrlDeterminesQuery(q1: Query, q2: Query)
    requires '?' !in q1.date && '?' !in q2.date
    requires Url(q1) == Url(q2)
    ensures q1 == q2
  {
    match q1
    case Collection(d1, l1) =>
      CollectionUrlRoundTrip(d1, l1);
      if q2.Collection? {
        CollectionUrlRoundTrip(q2.date, q2.locationId);
      } else {
        CollectionIsNotDelivery(d1, l1);
        DeliveryUrlRoundTrip(q2.date, q2.slotGroup);
      }
    case Delivery(d1, g1) =>
      DeliveryUrlRoundTrip(d1, g1);
      if q2.Collection? {
        CollectionIsNotDelivery(q2.date, q2.locationId);
      } else {
        DeliveryUrlRoundTrip(q2.date, q2.slotGroup);
      }
  }
}
