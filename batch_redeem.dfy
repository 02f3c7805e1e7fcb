/** `/api/batch-redeem` of server.js: parses a list of gift-card codes and redeems each one.
    The requests run concurrently in the source; here they are a sequence in list order and
    the reply to the request for code `k` is `replyTo(k)`. */
module BatchRedeem {
  import opened JsStrings
  import opened Vendor
  import CodeList
  import ServerSessions

  const Required: string := "Bearer token and codes are required"
  const NoCodes: string := "No valid gift card codes found"

  /** One element of the JSON array the handler returns. */
  datatype RedeemItem = RedeemItem(
    index: nat, code: string, success: bool, amount: string, newPromotionalBalance: string,
    description: string, balanceLogRefNo: string, error: Option<string>)

  /** The `.then` callback for the code at position `index`. */
  function RedeemResult(index: nat, code: string, r: Reply): (item: RedeemItem)
    ensures item.index == index && item.code == code
    ensures item.success <==> Status(r) == 200 && DataOf(r).Some?
    ensures item.success ==> item.error.None? && item.amount != "" && item.newPromotionalBalance != ""
    ensures item.success ==>
      var d := DataOf(r).value;
      && item.amount == Or(d.amount, "0.00") && item.newPromotionalBalance == Or(d.newPromotionalBalance, "0")
      && item.description == d.description && item.balanceLogRefNo == d.balanceLogRefNo
    ensures !item.success ==>
      && item.amount == "0.00" && item.newPromotionalBalance == "0"
      && item.description == "" && item.balanceLogRefNo == ""
      && item.error == Some(MessageOr(r, HttpStatusText(Status(r))))
  {
    if Status(r) == 200 && DataOf(r).Some? then
      var d := DataOf(r).value;
      RedeemItem(index, code, true, Or(d.amount, "0.00"), Or(d.newPromotionalBalance, "0"),
                 d.description, d.balanceLogRefNo, None)
    else
      RedeemItem(index, code, false, "0.00", "0", "", "", Some(MessageOr(r, HttpStatusText(Status(r)))))
  }

  /** `codeList.map((code, index) => ...)`. */
  function RedeemAll(codes: seq<string>, replyTo: nat -> Reply): (items: seq<RedeemItem>)
    ensures |items| == |codes|
    ensures forall k :: 0 <= k < |items| ==> items[k].index == k && items[k].code == codes[k]
    ensures forall k :: 0 <= k < |items| ==> items[k] == RedeemResult(k, codes[k], replyTo(k))
  {
    var items := seq(|codes|, k requires 0 <= k < |codes| => RedeemResult(k, codes[k], replyTo(k)));
    assert forall k :: 0 <= k < |items| ==> items[k] == RedeemResult(k, codes[k], replyTo(k));
    items
  }

  /** A failed code never reports money: its amount is "0.00" whatever the vendor said. */
  lemma FailuresCarryNoAmount(codes: seq<string>, replyTo: nat -> Reply, k: nat)
    requires k < |codes|
    requires !(Status(replyTo(k)) == 200 && DataOf(replyTo(k)).Some?)
    ensures !RedeemAll(codes, replyTo)[k].success
    ensures RedeemAll(codes, replyTo)[k].amount == "0.00"
    ensures RedeemAll(codes, replyTo)[k].error.Some? && RedeemAll(codes, replyTo)[k].error.value != ""
  {
  }

  /** The handler. Missing input or a list with no codes is answered without any request;
      otherwise the default session is fetched (and created if need be) and every parsed code
      is redeemed once, in list order. */
  method Handle(table: ServerSessions.SessionTable, bearer: string, codes: string, freshDeviceId: string,
                replyTo: nat -> Reply)
    returns (result: Result<seq<RedeemItem>, string>)
    modifies table
    ensures bearer == "" || codes == "" ==> result == Failure(Required) && table.sessions == old(table.sessions)
    ensures bearer != "" && codes != "" && CodeList.ParseCodes(codes) == [] ==>
      result == Failure(NoCodes) && table.sessions == old(table.sessions)
    ensures bearer != "" && codes != "" && CodeList.ParseCodes(codes) != [] ==>
      && result == Success(RedeemAll(CodeList.ParseCodes(codes), replyTo))
      && table.sessions == ServerSessions.GetOrCreate(old(table.sessions), "default", freshDeviceId)
  {
    if bearer == "" || codes == "" {
      return Failure(Required);
    }
    var codeList := CodeList.ParseCodes(codes);
    if |codeList| == 0 {
      return Failure(NoCodes);
    }
    var session := table.GetSession("default", freshDeviceId);
    result := Success(RedeemAll(codeList, replyTo));
  }
}
