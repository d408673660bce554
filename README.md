# Tesco slot scraper: a Dafny model of one polling tick

`tesco-scraper.py` watches the Tesco grocery site for a free collection or
home-delivery slot and texts a list of phone numbers when one shows up. Every
ten minutes a tick runs:

- it checks that the browser is logged in, and logs in when it is not;
- it recovers from a dead browser session by quitting the driver, building a
  new one and logging in once more;
- it then runs one scan pass. The pass loads the collection landing page.
  Then, for today, next week and the week after, it queries collection at
  four stores (7268, 7615, 7214, 7275, in table order), then delivery in slot
  group 4 and in slot group 1.

For each query:

- a page load that raises ends the pass;
- a page with no `available-slot--button` is skipped;
- a page with slot buttons clicks the last one and texts its label to each
  configured number in turn, until the provider refuses one.

This project models that tick. The browser and the SMS provider become
inputs:

- `World.page` maps each address to what loading it shows: the load raises,
  no slot buttons, or the button texts in page order;
- `World.landing` says whether the landing page loads;
- `World.accepts` says whether the provider accepts a message for a number;
- the probe, the first login and the recovery login are enumerated outcomes.

The project has six modules:

- `Wrappers` holds the `Option` type.
- `Templates` holds the pure string builders: the query addresses, the SMS
  body and the comma split of the recipient list. Each comes with a
  round-trip or framing lemma.
- `Notify` is the specification of the recipient loop.
- `Session` is the specification of the tick's session handling, as the list
  of steps it takes and the exception that escapes it.
- `SlotScan` is the specification of one scan pass as a fold over the
  query list. The scan's properties are proved here.
- `Scraper` holds the class `TescoScraper`. Its fields are the recipient list,
  the driver (a generation counter), the log of steps, the log of visited
  addresses, the log of accepted messages and the cut-short flag. Its
  methods do what the Python methods do. Each method's `ensures` ties the new
  state to the specification functions above.

The model follows the code where it departs from the evident design:

- `sendTextMessage` ends with `exit(1)`. The `SystemExit` this raises is
  caught by the query's bare `except:`. So a notification does not end the
  pass: later queries still load and can text again (`ScanWithoutNavFail`).
- A provider error for one number skips every later number
  (`RefusalSkipsTheRest`). The bare `except:` swallows that error too.
- Collection alerts pass the store id where the channel label goes and
  "Collection" where the store goes (`NoticeBody`).
- The landing page load (line 124) is not guarded. When it raises, the
  exception leaves `scanForSlots` and the tick (`ScanForSlots` returns it).
- A load of the login page that raises anything other than
  InvalidSessionId escapes the tick, so no scan runs then. So does any
  exception from the first login other than InvalidSessionId. The same goes
  for any exception from the login after a rebuild (`PlanTick`). The scan
  therefore does not always run.

## Model

| member | source | states |
|---|---|---|
| Templates.CollectionUrl | tesco-scraper.py:35 | the collection address: the collection base, the date, `?locationId=`, the store id, then `&postcode=&slotGroup=4` (its properties are the round-trip and shape lemmas) |
| Templates.DeliveryUrl | tesco-scraper.py:34 | the delivery address: the delivery base, the date, `?slotGroup=`, then the group in decimal |
| Templates.Decimal | tesco-scraper.py:34 | `%s` of a non-negative group number: a non-empty string of decimal digits with no leading zero unless the number is 0 |
| Templates.SmsBody | tesco-scraper.py:75 | the text of the alert, built from its first, second and fourth arguments; the date is not used |
| Templates.DecimalRoundTrip | tesco-scraper.py:34 | `%s` renders the slot group in decimal digits, and reading those digits gives the group back |
| Templates.CollectionUrlRoundTrip | tesco-scraper.py:35 | the collection address substitutes the date, then the store id; both are read back from it when the date holds no '?' |
| Templates.DeliveryUrlRoundTrip | tesco-scraper.py:34 | the delivery address substitutes the date, then the slot group; both are read back from it |
| Templates.UrlShapes | tesco-scraper.py:34-35 | a collection address starts with the collection base and always ends `&postcode=&slotGroup=4`; a delivery address starts with the delivery base and ends with the group in decimal |
| Templates.DeliveryGroups | tesco-scraper.py:152-170 | the two delivery addresses of a date end `?slotGroup=4` and `?slotGroup=1` |
| Templates.CollectionIsNotDelivery | tesco-scraper.py:34-35 | no collection address parses as a delivery address |
| Templates.SmsBodyFrame | tesco-scraper.py:75 | the SMS body is, in order and with nothing between, the first argument, "Tesco Slot Available @ ", the second argument, " at date " and the slot text |
| Templates.Split | tesco-scraper.py:29 | `split(",")` gives one piece more than there are commas, no piece holds a comma, and joining the pieces with commas gives the string back |
| Templates.SplitJoin | tesco-scraper.py:29 | splitting the comma-join of comma-free numbers gives the same list |
| Notify.Delivered | tesco-scraper.py:78-84 | the accepted messages are those for a prefix of the numbers, in list order, each with the same body; if the prefix stops short, the provider refused the next number |
| Notify.RefusalSkipsTheRest | tesco-scraper.py:78-84 | when the provider refuses number k, exactly the numbers before k get the message |
| Notify.AllAccepted | tesco-scraper.py:78-84 | when every send succeeds, every number gets the message, in order |
| Session.ProbeAnswer | tesco-scraper.py:88-95 | the probe says logged out exactly when the username field appears within the wait; a time-out or any exception in the wait says logged in; only the page load raises, and it raises that load's own exception unchanged |
| Session.PlanTick | tesco-scraper.py:195-207 | the scan runs exactly when nothing escapes the session handling; a non-session exception from the probe or the first login, or any exception from the recovery login, escapes |
| Session.Recovers | tesco-scraper.py:197-200 | the `except InvalidSessionIdException` guard: InvalidSessionId from the probe's page load, or from the login the probe asked for |
| Session.TryRaised | tesco-scraper.py:197-200 | what escapes the `try` block: the probe's load exception, or the first login's exception when the probe saw the login form |
| Session.TrySteps | tesco-scraper.py:197-199 | the steps of the `try` block: the probe, then a login when the probe saw the login form |
| Session.RecoveryTail | tesco-scraper.py:200-207 | the steps after InvalidSessionId: quit, rebuild, login, then the scan when that login completes |
| Session.PlanTickByTry | tesco-scraper.py:197-207 | a tick is its `try` block, then the recovery on InvalidSessionId, the end on any other exception, or the scan; recovery happens exactly on InvalidSessionId from the `try` block |
| Session.ProbeFirstAndOnce | tesco-scraper.py:197-205 | the probe is the first step and is never repeated, including during recovery |
| Session.ScanRunsLast | tesco-scraper.py:207 | when the scan runs, it is the last step and runs once |
| Session.LoginOnlyWhenLoggedOut | tesco-scraper.py:198-199 | a login directly follows the probe exactly when the probe saw the login form; a logged-in probe goes straight to the scan; without a dead session there is no rebuild and at most one login |
| Session.QuitOnlyOnDeadSession | tesco-scraper.py:200-202 | the driver is quit exactly when InvalidSessionId comes from the probe's page load or from the first login |
| Session.RecoveryOrder | tesco-scraper.py:200-207 | a dead session ends the tick with quit, rebuild, one login, then the scan when that login completes; there is no quit or rebuild before that |
| SlotScan.Url | tesco-scraper.py:130-170 | the address of a query: the collection template with date and store id, or the delivery template with date and slot group |
| SlotScan.SlotShown | tesco-scraper.py:140-142 | the wait for `available-slot--button` ends with a non-empty list of buttons |
| SlotScan.LastSlotText | tesco-scraper.py:143-144 | the text of the last rendered button, the one clicked |
| SlotScan.Notices | tesco-scraper.py:140-145 | the messages a loaded query sends: the alert for the last button's text when buttons render, to the numbers until the first refusal; nothing otherwise |
| SlotScan.NoticeBody | tesco-scraper.py:145-183 | the alert text of a query: a collection alert passes the store id first and "Collection" second; a delivery alert passes "Home Delivery" and "Delivery" |
| SlotScan.Visit | tesco-scraper.py:132-147 | one guarded query: nothing once the pass has returned; otherwise the address is loaded, a raising load ends the pass, and a page with slot buttons sends the alert for the last button |
| SlotScan.DayQueries | tesco-scraper.py:128-175 | one date's queries: collection at the four stores in table order, then delivery in slot group 4 and slot group 1 |
| SlotScan.Queries | tesco-scraper.py:126 | the search space, date by date |
| SlotScan.ScanQueries | tesco-scraper.py:126-185 | the queries run one after the other over the logs |
| SlotScan.ScanPass | tesco-scraper.py:117-185 | one pass: the landing page, whose failing load ends the pass, then the queries for the three dates |
| SlotScan.CutShortStays | tesco-scraper.py:138 | once the pass has returned, later queries load and send nothing |
| SlotScan.ScanWithoutNavFail | tesco-scraper.py:140-147 | without a failed load every query is loaded in order and every query showing slots alerts; an alert does not stop the pass |
| SlotScan.ScanStopsAtFirstNavFail | tesco-scraper.py:132-138 | the first failed load ends the pass: earlier queries load and alert, its address is the last loaded, and nothing after it is loaded or sent |
| SlotScan.CutShortIffNavFail | tesco-scraper.py:132-175 | the pass is cut short exactly when some query's page load raises |
| SlotScan.QueryOrder | tesco-scraper.py:126-170 | the search space is eighteen queries: per date, the four stores in table order, then slot group 4, then slot group 1 |
| SlotScan.DayUrls | tesco-scraper.py:128-170 | the addresses of one date's queries, in order |
| SlotScan.PassUrls | tesco-scraper.py:126-170 | the eighteen addresses of a pass, in order |
| SlotScan.NineteenUrlsWhenNothingFails | tesco-scraper.py:124-185 | with every page loading, the pass loads exactly nineteen addresses (the landing page, then the eighteen queries) and sends the alerts of every query that shows slots |
| SlotScan.SlotAlertUsesLastButton | tesco-scraper.py:140-145 | a query that sends anything showed slot buttons, and it sends the last button's text to the numbers in list order |
| SlotScan.NoticeBodyIgnoresDate | tesco-scraper.py:145 | the alert names neither the date nor the slot group; collection alerts for one store, and all delivery alerts, read the same for the same slot text |
| SlotScan.UrlDeterminesQuery | tesco-scraper.py:130 | two queries with the same address are the same query |
| Scraper.TescoScraper.constructor | tesco-scraper.py:29 | the recipient list is the comma-split of the configured string; no driver and empty logs |
| Scraper.TescoScraper.SetupSelenium | tesco-scraper.py:40-50 | a new driver replaces the old one |
| Scraper.TescoScraper.QuitDriver | tesco-scraper.py:202 | the driver quit is logged as a step |
| Scraper.TescoScraper.SendTextMessage | tesco-scraper.py:70-86 | the accepted messages grow by `Delivered` for the built body; it ends with `SystemExit` exactly when every number was accepted, otherwise with the provider's error |
| Scraper.TescoScraper.IsLoggedId | tesco-scraper.py:88-95 | logs a probe and answers `ProbeAnswer` |
| Scraper.TescoScraper.LoginToTesco | tesco-scraper.py:97-115 | logs a login and raises exactly what the login raised |
| Scraper.TescoScraper.TryQuery | tesco-scraper.py:132-185 | one guarded query (lines 132-147 for a store, 151-167 and 169-185 for the two delivery groups): the visited and sent logs and the stop signal are one `Visit` step |
| Scraper.TescoScraper.ScanDate | tesco-scraper.py:128-185 | one date's six queries leave the logs as the specification scan of that date's queries does |
| Scraper.TescoScraper.ScanForSlots | tesco-scraper.py:117-185 | the logs and the cut-short flag end as `ScanPass` says; the landing page's exception is returned |
| Scraper.TescoScraper.TryLogin | tesco-scraper.py:197-199 | the `try` block logs `TrySteps` and returns `TryRaised` |
| Scraper.TescoScraper.Recover | tesco-scraper.py:200-205 | quit, a new driver, one login, and whatever that login raises |
| Scraper.TescoScraper.Run | tesco-scraper.py:195-207 | the steps are `PlanTick`'s steps; the driver is rebuilt exactly on a dead session; when something escapes, the scan logs are unchanged, and otherwise they end as `ScanPass` says |

## Left out

- Building the Chrome driver, its options and its path (lines 40-50): `SetupSelenium` only counts drivers.
- Finding elements, typing the credentials and clicking: `LoginToTesco` takes the login's outcome as an input. A click that raises inside a query's `try` is caught like a missing button, so it is read as no slot.
- The Twilio and SendGrid clients (lines 52-67, 72-73, 79-84): a send is only "accepted" or "raises", through `World.accepts`. `sendEmail` and its startup call (line 192) are not modelled.
- `time.sleep` and the `WebDriverWait` lengths: each wait is only found or timed out.
- The Timeloop scheduler (lines 16, 194, 210-211): one tick is modelled, with the logs carried across calls of `Run`.
- Date arithmetic (lines 120-122): the three date strings are inputs.
- Environment reads and `print`s (lines 20-31, 53, 72, 76, 85, 118). The recipient string is a constructor argument, so an unset variable (where `split` fails on `None`) is not modelled.
- The unused `unavail_status` list and the store display names (lines 24-27, 36): only the store ids, in table order, are kept.
- Failures of `driver.quit()` or of building a driver during recovery are not modelled: both always complete.
- The loads of the login page made by the probe and by the login appear as `Probe` and `Login` steps, not in the visited-address log, which holds the scan's loads only.
- Page contents are a function of the address, so two loads of one address in a pass show the same thing. The provider's answer is a function of the number and the body, so it does not change over time.
- The startup `setupSelenium()` call (line 191) is not part of `Run`: in the source every tick runs with a driver, and the model expects `SetupSelenium` to be called once before the first `Run`. `Run` itself does not require it, so it can start from the constructor's state with no driver.
- `Run` is a method of the scraper object, where the source has a module-level function acting on the one global scraper.
