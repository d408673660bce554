/** The recipient loop of the alert: one message per configured number, in
    list order, through an SMS provider whose `create` call either accepts the
    message or raises. Nothing catches a raise inside the loop, so the first
    refusal ends it. */
module Notify {

  datatype Sms = Sms(to: string, body: string)

  /** The SMS provider: true when it accepts `body` for the number, false when
      its `create` call raises. */
  type Provider = (string, string) -> bool

  /** The messages the provider accepts when `body` goes to `numbers` in order:
      the longest prefix of the list whose sends succeed. */
  function Delivered(numbers: seq<string>, body: string, accepts: Provider): (r: seq<Sms>)
    ensures |r| <= |numbers|
    ensures forall i :: 0 <= i < |r| ==> r[i] == Sms(numbers[i], body) && accepts(numbers[i], body)
    ensures |r| < |numbers| ==> !accepts(numbers[|r|], body)
  {
    if numbers == [] then []
    else if accepts(numbers[0], body) then [Sms(numbers[0], body)] + Delivered(numbers[1..], body, accepts)
    else []
  }

  /** A refusal for one number means no later number is even tried: only the
      numbers before the first refusal get the message. */
  lemma RefusalSkipsTheRest(numbers: seq<string>, body: string, accepts: Provider, k: nat)
    requires k < |numbers| && !accepts(numbers[k], body)
    requires forall i :: 0 <= i < k ==> accepts(numbers[i], body)
    ensures Delivered(numbers, body, accepts) == SmsTo(numbers[..k], body)
  {
    var r := Delivered(numbers, body, accepts);
    assert |r| == k;
    assert r == SmsTo(numbers[..k], body);
  }

  /** When every send succeeds, every number gets the message, in list order. */
  lemma AllAccepted(numbers: seq<string>, body: string, accepts: Provider)
    requires forall i :: 0 <= i < |numbers| ==> accepts(numbers[i], body)
    ensures Delivered(numbers, body, accepts) == SmsTo(numbers, body)
  {
    var r := Delivered(numbers, body, accepts);
    assert |r| == |numbers|;
  }

  /** The same body addressed to each number of `numbers`, in order. */
  function SmsTo(numbers: seq<string>, body: string): (r: seq<Sms>)
    ensures |r| == |numbers|
    ensures forall i :: 0 <= i < |r| ==> r[i] == Sms(numbers[i], body)
  {
    seq(|numbers|, i requires 0 <= i < |numbers| => Sms(numbers[i], body))
  }
}
