/** `/api/batch-send` of server.js: sends `count` gift cards to one recipient, with the
    amounts cycling from 300.00 down to 250.00, and classifies each vendor reply. The
    requests run concurrently in the source; here they are a sequence in request order and
    the reply to request `k` is `replyTo(k)`. */
module BatchSend {
  import opened JsStrings
  import opened Vendor

  const DefaultSender: string := "Jenski Rende"
  const DefaultRecipient: string := "James Carl"
  const DefaultMessage: string :=
    "You're the light in the dark. You cheer me up when I'm down. Here are some drinks for you!"
  const PhoneRequired: string := "Recipient phone number is required"
  const MaxCount: int := 100

  /** `Math.min(Math.max(parseInt(count) || 100, 1), 100)`, with the result of `parseInt` as a
      parameter (None for NaN). */
  function NumCount(parsed: Option<int>): (n: int)
    ensures 1 <= n <= MaxCount
    ensures parsed == None || parsed == Some(0) ==> n == MaxCount
    ensures parsed.Some? && 1 <= parsed.value <= MaxCount ==> n == parsed.value
    ensures parsed.Some? && parsed.value > MaxCount ==> n == MaxCount
    ensures parsed.Some? && parsed.value < 0 ==> n == 1
  {
    var c := if parsed.None? || parsed.value == 0 then MaxCount else parsed.value;
    if c < 1 then 1 else if c > MaxCount then MaxCount else c
  }

  /** `i.toFixed(2)` for a whole number `i`. */
  function AmountText(i: nat): (t: string)
    ensures |t| >= 4 && t[|t| - 3..] == ".00"
  {
    NatToString(i) + ".00"
  }

  /** The number of amounts in the schedule: 300 down to 250. */
  const ScheduleLength: nat := 51

  /** The amount of request `k`: `amounts[k % amounts.length]`. */
  function ScheduledAmount(k: nat): string
  {
    AmountText(300 - k % ScheduleLength)
  }

  /** The schedule repeats every 51 requests, and request `k` of the first round asks for
      300 - k pesos. */
  lemma ScheduleCycles(k: nat)
    ensures ScheduledAmount(k + ScheduleLength) == ScheduledAmount(k)
    ensures k < ScheduleLength ==> ScheduledAmount(k) == AmountText(300 - k)
    ensures 250 <= 300 - k % ScheduleLength <= 300
  {
    var q := k / ScheduleLength;
    var m := k % ScheduleLength;
    assert k + ScheduleLength == (q + 1) * ScheduleLength + m;
    ModUnique(k + ScheduleLength, q + 1, m);
  }

  lemma ModUnique(x: nat, q: nat, m: nat)
    requires m < ScheduleLength && x == q * ScheduleLength + m
    ensures x % ScheduleLength == m
  {
  }

  /** The loop that fills `amounts`: 300.00, 299.00, ..., 250.00. */
  method Amounts() returns (amounts: seq<string>)
    ensures |amounts| == ScheduleLength
    ensures forall k :: 0 <= k < |amounts| ==> amounts[k] == AmountText(300 - k)
    ensures forall k: nat :: amounts[k % |amounts|] == ScheduledAmount(k)
  {
    amounts := [];
    var i := 300;
    while i >= 250
      invariant 249 <= i <= 300
      invariant |amounts| == 300 - i
      invariant forall k :: 0 <= k < |amounts| ==> amounts[k] == AmountText(300 - k)
    {
      amounts := amounts + [AmountText(i)];
      i := i - 1;
    }
  }

  /** How one reply is read: the verdict fields of a result item. */
  datatype Verdict = Verdict(
    success: bool, insufficient: bool, refId: Option<string>, error: Option<string>, stop: bool)

  /** Whether a lower-cased message reports an empty balance. */
  predicate ReportsNoBalance(msg: string)
  {
    Includes(msg, "insufficient balance") || Includes(msg, "insufficient funds") || Includes(msg, "balance!")
  }

  /** The `.then` callback of each request. */
  function Classify(r: Reply): (v: Verdict)
    ensures v.stop <==> v.insufficient
    ensures v.insufficient <==>
      Status(r) == 200 && BodyOf(r).Some? && ReportsNoBalance(ToLower(BodyOf(r).value.message))
    ensures v.success ==> v.refId.Some? && v.refId.value != "" && !v.stop
    ensures v.success <==> v.refId.Some?
    ensures v.error.Some? <==> !v.success && !v.insufficient
    ensures v.error.Some? ==> v.error.value != ""
    ensures !(Status(r) == 200 && BodyOf(r).Some?) ==> v.error == Some(HttpStatusText(Status(r)))
    ensures Status(r) == 200 && BodyOf(r).Some? && !v.success && !v.insufficient ==>
      v.error == Some(Or(BodyOf(r).value.message, "Unknown API response"))
  {
    if Status(r) == 200 && BodyOf(r).Some? then
      var body := BodyOf(r).value;
      if ReportsNoBalance(ToLower(body.message)) then
        Verdict(false, true, None, None, true)
      else if body.data.Some? && body.data.value.refId != "" then
        Verdict(true, false, Some(body.data.value.refId), None, false)
      else
        Verdict(false, false, None, Some(Or(body.message, "Unknown API response")), false)
    else
      Verdict(false, false, None, Some(HttpStatusText(Status(r))), false)
  }

  /** An insufficient-balance message wins over a reference id in the same reply. */
  lemma InsufficientBeforeRefId(r: Reply)
    requires Status(r) == 200 && BodyOf(r).Some?
    requires ReportsNoBalance(ToLower(BodyOf(r).value.message))
    ensures !Classify(r).success && Classify(r).refId.None? && Classify(r).stop
  {
  }

  /** A 200 reply with a reference id and no balance complaint is a success carrying that id. */
  lemma RefIdMeansSuccess(r: Reply)
    requires Status(r) == 200 && BodyOf(r).Some?
    requires !ReportsNoBalance(ToLower(BodyOf(r).value.message))
    requires DataOf(r).Some? && DataOf(r).value.refId != ""
    ensures Classify(r) == Verdict(true, false, Some(DataOf(r).value.refId), None, false)
  {
  }

  /** The form data and headers of one request. */
  datatype SendRequest = SendRequest(
    templateId: string, amount: string, paymentMethod: string, senderName: string,
    recipientName: string, message: string, recipientPhone: string, authorization: Option<string>)

  /** One element of the JSON array the handler returns. */
  datatype SendItem = SendItem(
    index: nat, success: bool, insufficient: bool, status: nat, amount: string, refId: Option<string>,
    senderName: string, recipientName: string, recipientPhone: string, error: Option<string>, stop: bool)

  function RequestFor(k: nat, bearer: string, senderName: string, recipientName: string,
                      recipientPhone: string, message: string): SendRequest
  {
    SendRequest("1", ScheduledAmount(k), "99", Or(senderName, DefaultSender), Or(recipientName, DefaultRecipient),
                Or(message, DefaultMessage), recipientPhone, if bearer != "" then Some("Bearer " + bearer) else None)
  }

  function ItemFor(k: nat, senderName: string, recipientName: string, recipientPhone: string, r: Reply): SendItem
  {
    var v := Classify(r);
    SendItem(k, v.success, v.insufficient, Status(r), ScheduledAmount(k), v.refId,
             Or(senderName, DefaultSender), Or(recipientName, DefaultRecipient), recipientPhone, v.error, v.stop)
  }

  /** The handler. Without a recipient phone nothing is sent; otherwise exactly `numCount`
      requests go out and item `k` describes the reply to request `k`. */
  method Send(bearer: string, senderName: string, recipientName: string, recipientPhone: string,
              message: string, count: Option<int>, replyTo: nat -> Reply)
    returns (result: Result<seq<SendItem>, string>, sent: seq<SendRequest>)
    ensures recipientPhone == "" ==> result == Failure(PhoneRequired) && sent == []
    ensures recipientPhone != "" ==> result.Success?
    ensures result.Success? ==>
      var items := result.value;
      && |items| == |sent| == NumCount(count)
      && (forall k :: 0 <= k < |items| ==>
            items[k] == ItemFor(k, senderName, recipientName, recipientPhone, replyTo(k)))
      && (forall k :: 0 <= k < |sent| ==>
            sent[k] == RequestFor(k, bearer, senderName, recipientName, recipientPhone, message))
  {
    if recipientPhone == "" {
      return Failure(PhoneRequired), [];
    }
    var numCount := NumCount(count);
    var amounts := Amounts();
    var items: seq<SendItem> := [];
    sent := [];
    var i := 0;
    while i < numCount
      invariant 0 <= i <= numCount
      invariant |items| == |sent| == i
      invariant forall k :: 0 <= k < i ==> items[k] == ItemFor(k, senderName, recipientName, recipientPhone, replyTo(k))
      invariant forall k :: 0 <= k < i ==> sent[k] == RequestFor(k, bearer, senderName, recipientName, recipientPhone, message)
    {
      var amount := amounts[i % |amounts|];
      var headers: Option<string> := None;
      if bearer != "" {
        headers := Some("Bearer " + bearer);
      }
      var request := SendRequest("1", amount, "99", Or(senderName, DefaultSender), Or(recipientName, DefaultRecipient),
                                 Or(message, DefaultMessage), recipientPhone, headers);
      var reply := replyTo(i);
      var v := Classify(reply);
      var item := SendItem(i, v.success, v.insufficient, Status(reply), amount, v.refId,
                           Or(senderName, DefaultSender), Or(recipientName, DefaultRecipient), recipientPhone, v.error, v.stop);
      sent := sent + [request];
      items := items + [item];
      i := i + 1;
    }
    result := Success(items);
  }
}
