/** The strings the scraper builds: the addresses of the pages it loads, the
    text of the alert it sends, and the recipient list it reads from its
    configuration. Everything here is an expression in the source (Python `%`
    formatting, `+` concatenation and `str.split(",")`). */
module Templates {
  import opened Wrappers

  /** The page the scan loads once before its first query. */
  const CollectionLanding: string := "https://www.tesco.com/groceries/en-GB/slots/collection"

  const CollectionBase: string := "https://www.tesco.com/groceries/en-GB/slots/collection/"
  const CollectionKey: string := "?locationId="
  const CollectionSuffix: string := "&postcode=&slotGroup=4"

  const DeliveryBase: string := "https://www.tesco.com/groceries/en-GB/slots/delivery/"
  const DeliveryKey: string := "?slotGroup="

  /** `collection_url_with_date % (date, location_id)`. */
  function CollectionUrl(date: string, locationId: string): string
  {
    CollectionBase + date + CollectionKey + locationId + CollectionSuffix
  }

  /** `delivery_url_with_date_and_slot_group % (date, group)`; `%s` renders the
      integer group in decimal. */
  function DeliveryUrl(date: string, slotGroup: nat): string
  {
    DeliveryBase + date + DeliveryKey + Decimal(slotGroup)
  }

  // ---------------------------------------------------------------------------
  // Decimal rendering of a group number, and reading it back

  predicate IsDigit(c: char)
  {
    '0' as int <= c as int <= '9' as int
  }

  function DigitChar(d: nat): (c: char)
    requires d < 10
    ensures IsDigit(c) && c as int - '0' as int == d
  {
    ('0' as int + d) as char
  }

  /** Python's `str(n)` for a non-negative integer: digits only, and no
      leading zero except in "0" itself. */
  function Decimal(n: nat): (r: string)
    ensures r != [] && forall i :: 0 <= i < |r| ==> IsDigit(r[i])
    ensures r[0] == '0' ==> n == 0
    decreases n
  {
    if n < 10 then [DigitChar(n)]
    else
      var front := Decimal(n / 10);
      assert (front + [DigitChar(n % 10)])[0] == front[0];
      front + [DigitChar(n % 10)]
  }

  function DigitsValue(s: string): nat
    requires forall i :: 0 <= i < |s| ==> IsDigit(s[i])
    decreases |s|
  {
    if s == [] then 0 else DigitsValue(s[..|s| - 1]) * 10 + DigitValue(s[|s| - 1])
  }

  function DigitValue(c: char): (d: nat)
    requires IsDigit(c)
    ensures d < 10
  {
    c as int - '0' as int
  }

  function ParseDecimal(s: string): Option<nat>
  {
    if s != [] && forall i :: 0 <= i < |s| ==> IsDigit(s[i]) then Some(DigitsValue(s)) else None
  }

  lemma {:induction false} DecimalRoundTrip(n: nat)
    ensures ParseDecimal(Decimal(n)) == Some(n)
    decreases n
  {
    var r := Decimal(n);
    if n >= 10 {
      DecimalRoundTrip(n / 10);
      var front := Decimal(n / 10);
      assert r[..|r| - 1] == front;
      assert DigitsValue(r) == DigitsValue(front) * 10 + n % 10;
    }
  }

  // ---------------------------------------------------------------------------
  // Reading a query address back into its parameters

  function FirstIndex(s: string, c: char): (r: Option<nat>)
    ensures r.Some? ==> r.value < |s| && s[r.value] == c && c !in s[..r.value]
    ensures r.None? ==> c !in s
  {
    if s == [] then None
    else if s[0] == c then Some(0)
    else match FirstIndex(s[1..], c)
      case None => None
      case Some(k) =>
        assert s[..k + 1] == [s[0]] + s[1..][..k];
        Some(k + 1)
  }

  lemma FirstIndexAt(a: string, c: char, b: string)
    requires c !in a
    ensures FirstIndex(a + [c] + b, c) == Some(|a|)
  {
    var s := a + [c] + b;
    assert s[|a|] == c;
    assert s[..|a|] == a;
  }

  /** The date and location id a collection address carries, when the
      address has the collection shape. */
  function ParseCollectionUrl(u: string): Option<(string, string)>
  {
    if |u| < |CollectionBase| + |CollectionSuffix|
       || u[..|CollectionBase|] != CollectionBase
       || u[|u| - |CollectionSuffix|..] != CollectionSuffix
    then None
    else
      var mid := u[|CollectionBase|..|u| - |CollectionSuffix|];
      match FirstIndex(mid, '?')
      case None => None
      case Some(k) =>
        if |mid| - k < |CollectionKey| || mid[k..k + |CollectionKey|] != CollectionKey then None
        else Some((mid[..k], mid[k + |CollectionKey|..]))
  }

  /** The date and slot group a delivery address carries. */
  function ParseDeliveryUrl(u: string): Option<(string, nat)>
  {
    if |u| < |DeliveryBase| || u[..|DeliveryBase|] != DeliveryBase then None
    else
      var rest := u[|DeliveryBase|..];
      match FirstIndex(rest, '?')
      case None => None
      case Some(k) =>
        if |rest| - k < |DeliveryKey| || rest[k..k + |DeliveryKey|] != DeliveryKey then None
        else match ParseDecimal(rest[k + |DeliveryKey|..])
          case None => None
          case Some(g) => Some((rest[..k], g))
  }

  /** The collection address substitutes the date and then the location id,
      and both can be read back from it (an ISO date holds no '?'). */
  lemma CollectionUrlRoundTrip(date: string, locationId: string)
    requires '?' !in date
    ensures ParseCollectionUrl(CollectionUrl(date, locationId)) == Some((date, locationId))
  {
    var u := CollectionUrl(date, locationId);
    var tail := CollectionKey[1..] + locationId;
    var mid := date + ['?'] + tail;
    assert u == CollectionBase + mid + CollectionSuffix;
    assert u[..|CollectionBase|] == CollectionBase;
    assert u[|u| - |CollectionSuffix|..] == CollectionSuffix;
    assert u[|CollectionBase|..|u| - |CollectionSuffix|] == mid;
    FirstIndexAt(date, '?', tail);
    assert mid[..|date|] == date;
    assert mid[|date|..|date| + |CollectionKey|] == CollectionKey;
    assert mid[|date| + |CollectionKey|..] == locationId;
  }

  /** The delivery address substitutes the date and then the slot group, and
      both can be read back from it. */
  lemma DeliveryUrlRoundTrip(date: string, slotGroup: nat)
    requires '?' !in date
    ensures ParseDeliveryUrl(DeliveryUrl(date, slotGroup)) == Some((date, slotGroup))
  {
    var u := DeliveryUrl(date, slotGroup);
    var digits := Decimal(slotGroup);
    var tail := DeliveryKey[1..] + digits;
    var rest := date + ['?'] + tail;
    assert u == DeliveryBase + rest;
    assert u[..|DeliveryBase|] == DeliveryBase;
    assert u[|DeliveryBase|..] == rest;
    FirstIndexAt(date, '?', tail);
    assert rest[..|date|] == date;
    assert rest[|date|..|date| + |DeliveryKey|] == DeliveryKey;
    assert rest[|date| + |DeliveryKey|..] == digits;
    DecimalRoundTrip(slotGroup);
  }

  /** Every collection address starts with the collection base and ends with
      the fixed `&postcode=&slotGroup=4` tail; every delivery address starts
      with the delivery base and ends with the group number in decimal. */
  lemma UrlShapes(date: string, locationId: string, slotGroup: nat)
    ensures var c := CollectionUrl(date, locationId);
      && c[..|CollectionBase|] == CollectionBase
      && c[|c| - |CollectionSuffix|..] == CollectionSuffix
    ensures var d := DeliveryUrl(date, slotGroup);
      && d[..|DeliveryBase|] == DeliveryBase
      && d[|d| - |Decimal(slotGroup)|..] == Decimal(slotGroup)
  {
    var c := CollectionUrl(date, locationId);
    assert c == CollectionBase + (date + CollectionKey + locationId) + CollectionSuffix;
    HeadAndTail(CollectionBase, date + CollectionKey + locationId, CollectionSuffix);
    var d := DeliveryUrl(date, slotGroup);
    assert d == DeliveryBase + (date + DeliveryKey) + Decimal(slotGroup);
    HeadAndTail(DeliveryBase, date + DeliveryKey, Decimal(slotGroup));
  }

  /** The fixed head and tail of a three-part string, proved once for any parts. */
  lemma HeadAndTail(head: string, middle: string, tail: string)
    ensures var s := head + middle + tail;
      s[..|head|] == head && s[|s| - |tail|..] == tail
  {
  }

  /** The two delivery addresses a scan loads for a date end in the literal
      group numbers. */
  lemma DeliveryGroups(date: string)
    ensures DeliveryUrl(date, 4) == DeliveryBase + date + "?slotGroup=4"
    ensures DeliveryUrl(date, 1) == DeliveryBase + date + "?slotGroup=1"
  {
  }

  /** A collection address is never a delivery address. */
  lemma CollectionIsNotDelivery(date: string, locationId: string)
    ensures ParseDeliveryUrl(CollectionUrl(date, locationId)) == None
  {
    var u := CollectionUrl(date, locationId);
    assert u[44] == 'c';
    assert DeliveryBase[44] == 'd';
  }

  // ---------------------------------------------------------------------------
  // The alert text

  /** The text message: the first argument, then the banner, then the second
      argument, then " at date " and the slot text. The date itself is not part
      of it. */
  function SmsBody(collectionOrDelivery: string, location: string, buttonDetails: string): string
  {
    collectionOrDelivery + "Tesco Slot Available @ " + location + " at date " + buttonDetails
  }

  /** The slot text is the tail of the message and its first argument the head. */
  lemma SmsBodyFrame(collectionOrDelivery: string, location: string, buttonDetails: string)
    ensures var body := SmsBody(collectionOrDelivery, location, buttonDetails);
      var a, l := |collectionOrDelivery|, |location|;
      && |body| == a + l + |buttonDetails| + 32
      && body[..a] == collectionOrDelivery
      && body[a..a + 23] == "Tesco Slot Available @ "
      && body[a + 23..a + 23 + l] == location
      && body[a + 23 + l..a + 32 + l] == " at date "
      && body[a + 32 + l..] == buttonDetails
  {
    var body := SmsBody(collectionOrDelivery, location, buttonDetails);
    assert body == collectionOrDelivery + "Tesco Slot Available @ " + location + " at date " + buttonDetails;
  }

  // ---------------------------------------------------------------------------
  // The recipient list: Python's `s.split(",")`

  function Occurrences(s: string, c: char): nat
  {
    if s == [] then 0 else (if s[0] == c then 1 else 0) + Occurrences(s[1..], c)
  }

  /** `",".join(parts)`. */
  function Join(parts: seq<string>): string
    requires |parts| >= 1
  {
    if |parts| == 1 then parts[0] else parts[0] + "," + Join(parts[1..])
  }

  /** `s.split(",")`: one more piece than there are commas (so "" gives [""]),
      no piece holds a comma, and joining the pieces gives `s` back. */
  function Split(s: string): (parts: seq<string>)
    ensures |parts| == Occurrences(s, ',') + 1
    ensures forall i :: 0 <= i < |parts| ==> ',' !in parts[i]
    ensures Join(parts) == s
  {
    if s == [] then [""]
    else
      var rest := Split(s[1..]);
      if s[0] == ',' then
        assert ([""] + rest)[1..] == rest;
        [""] + rest
      else
        var parts := [[s[0]] + rest[0]] + rest[1..];
        assert forall i :: 1 <= i < |parts| ==> parts[i] == rest[i];
        assert ',' !in parts[0];
        assert Join(parts) == s by {
          if |rest| > 1 {
            assert parts[1..] == rest[1..];
          }
        }
        parts
  }

  lemma {:induction false} SplitWithoutComma(s: string)
    requires ',' !in s
    ensures Split(s) == [s]
    decreases |s|
  {
    if s != [] {
      SplitWithoutComma(s[1..]);
      assert [s[0]] + s[1..] == s;
    }
  }

  lemma {:induction false} SplitAfterPiece(p: string, x: string)
    requires ',' !in p
    ensures Split(p + "," + x) == [p] + Split(x)
    decreases |p|
  {
    var s := p + "," + x;
    if p == [] {
      assert s[1..] == x;
    } else {
      assert s[1..] == p[1..] + "," + x;
      SplitAfterPiece(p[1..], x);
      assert [p[0]] + p[1..] == p;
    }
  }

  /** Splitting a comma-joined list of comma-free recipients gives the list back. */
  lemma {:induction false} SplitJoin(parts: seq<string>)
    requires |parts| >= 1
    requires forall i :: 0 <= i < |parts| ==> ',' !in parts[i]
    ensures Split(Join(parts)) == parts
    decreases |parts|
  {
    if |parts| == 1 {
      SplitWithoutComma(parts[0]);
    } else {
      SplitJoin(parts[1..]);
      SplitAfterPiece(parts[0], Join(parts[1..]));
    }
  }
}
