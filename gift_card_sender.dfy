/** src/components/GiftCardSender.js: the main form. It sends the batch of gift cards and
    shows the successful ones, activates the wallet balance once per new token, and shows the
    balance. The React state is the fields of a class; each handler is a method that takes the
    server's reply as a parameter. */
module GiftCardSender {
  import opened JsStrings
  import opened ClientApi
  import opened ResultLists
  import IndexOrder
  import BatchSend
  import Cycle
  import Generators
  import NameGenerator
  import MessageGenerator

  type SendItem = BatchSend.SendItem

  /** `(a.index || 0)`: the sort key. */
  function Index(item: SendItem): int
  {
    item.index
  }

  function IsSuccess(item: SendItem): bool
  {
    item.success
  }

  function IsStop(item: SendItem): bool
  {
    item.stop
  }

  /** The entries of the results list. The summary's total amount is a floating-point sum
      and is not modelled. */
  datatype Row =
    | LoadingRow(message: string)
    | Summary(successCount: nat)
    | SentRow(item: SendItem)
    | StoppedRow(message: string)
    | ErrorRow(message: string)

  const PhoneAlert: string := "Please enter a recipient phone number"
  const SendingMessage: string := "Sending 100 requests in parallel (FAST like Python!)..."
  const StoppedMessage: string := "Stopped: Insufficient balance detected"

  /** The list for the successful items `ok`: the summary, one entry per item, and the
      stopped entry when `stop` holds. */
  function Rows(ok: seq<SendItem>, stop: bool): (rows: seq<Row>)
    ensures |rows| == 1 + |ok| + (if stop then 1 else 0)
    ensures rows[0] == Summary(|ok|)
    ensures forall k :: 0 <= k < |ok| ==> rows[k + 1] == SentRow(ok[k])
    ensures stop <==> rows[|rows| - 1].StoppedRow?
  {
    var body := seq(|ok|, k requires 0 <= k < |ok| => SentRow(ok[k]));
    [Summary(|ok|)] + body + (if stop then [StoppedRow(StoppedMessage)] else [])
  }

  /** What the list shows for the server's items: the summary counting every successful item,
      the successful items in index order, and one stopped entry exactly when some item asked
      to stop. */
  function Display(items: seq<SendItem>): (rows: seq<Row>)
    ensures var ok := Filter(IndexOrder.SortByIndex(items, Index), IsSuccess);
      && rows == Rows(ok, Any(items, IsStop))
      && (forall k :: 0 <= k < |ok| ==> ok[k].success)
      && IndexOrder.SortedBy(ok, Index)
      && |ok| == |Filter(items, IsSuccess)|
  {
    var sorted := IndexOrder.SortByIndex(items, Index);
    var ok := Filter(sorted, IsSuccess);
    IndexOrder.FilterKeepsOrder(sorted, Index, IsSuccess);
    FilterCountOfPermutation(sorted, items, IsSuccess);
    Rows(ok, Any(items, IsStop))
  }

  /** The `forEach` over the sorted results and the `filter` after it. */
  method Aggregate(sorted: seq<SendItem>) returns (successCount: nat, shouldStop: bool, filtered: seq<SendItem>)
    ensures filtered == Filter(sorted, IsSuccess)
    ensures successCount == |filtered|
    ensures shouldStop <==> Any(sorted, IsStop)
  {
    successCount := 0;
    shouldStop := false;
    var i := 0;
    while i < |sorted|
      invariant 0 <= i <= |sorted|
      invariant successCount == |Filter(sorted[..i], IsSuccess)|
      invariant shouldStop <==> Any(sorted[..i], IsStop)
    {
      assert sorted[..i + 1] == sorted[..i] + [sorted[i]];
      FilterAppend(sorted[..i], [sorted[i]], IsSuccess);
      AnySnoc(sorted[..i], sorted[i], IsStop);
      if sorted[i].success {
        successCount := successCount + 1;
      }
      if sorted[i].stop {
        shouldStop := true;
      }
      i := i + 1;
    }
    assert sorted[..i] == sorted;
    filtered := Filter(sorted, IsSuccess);
  }

  /** The processing of a returned batch: sort by index, walk the results, keep the
      successful ones and add the stopped entry when needed. */
  method ProcessResults(items: seq<SendItem>) returns (rows: seq<Row>)
    ensures rows == Display(items)
  {
    var sorted := IndexOrder.SortByIndex(items, Index);
    var successCount, shouldStop, filtered := Aggregate(sorted);
    IndexOrder.AnyOfPermutation(sorted, items, IsStop);
    rows := Rows(filtered, shouldStop);
  }

  /** The body of the batch request the form sends. */
  datatype BatchRequest = BatchRequest(
    bearer: string, senderName: string, recipientName: string, recipientPhone: string,
    message: string, count: nat)

  /** The alerted text of the activation, within 50 characters. */
  const AlreadyActivated: string := "Balance already activated"
  const InvalidToken: string := "Invalid bearer token"
  const ActivationFailed: string := "Failed to activate balance"
  const NetworkFailure: string := "Network error - check connection"
  const Activating: string := "Activating wallet balance..."
  const Activated: string := "Balance activated successfully!"

  /** The keywords that mean the balance is already active. */
  predicate SaysAlreadyActive(errorMsg: string)
  {
    var low := ToLower(errorMsg);
    Includes(low, "already") || Includes(low, "activated") || Includes(low, "exist")
  }

  /** The keywords that mean the token was refused. */
  predicate SaysBadToken(errorMsg: string)
  {
    var low := ToLower(errorMsg);
    Includes(low, "unauthorized") || Includes(low, "invalid token")
  }

  /** The keywords that mean the call never reached the server. */
  predicate SaysNetwork(errorMsg: string)
  {
    var low := ToLower(errorMsg);
    Includes(low, "network") || Includes(low, "fetch")
  }

  /** A message shown as it is unless it is longer than 50 characters. */
  function ShortOrGeneric(errorMsg: string): (d: string)
    ensures |d| <= 50
  {
    if |errorMsg| > 50 then ActivationFailed else errorMsg
  }

  /** The status shown when the server refuses the activation, in precedence order. */
  function ActivationDisplay(errorMsg: string): (d: string)
    ensures |d| <= 50
    ensures errorMsg != "" ==> d != ""
    ensures SaysAlreadyActive(errorMsg) ==> d == AlreadyActivated
    ensures !SaysAlreadyActive(errorMsg) && SaysBadToken(errorMsg) ==> d == InvalidToken
    ensures !SaysAlreadyActive(errorMsg) && !SaysBadToken(errorMsg) ==>
      d == (if |errorMsg| > 50 then ActivationFailed else errorMsg)
    ensures d == AlreadyActivated || d == InvalidToken || d == ActivationFailed || d == errorMsg
  {
    if SaysAlreadyActive(errorMsg) then AlreadyActivated
    else if SaysBadToken(errorMsg) then InvalidToken
    else ShortOrGeneric(errorMsg)
  }

  /** The status shown when the activation call throws. */
  function CatchDisplay(errorMsg: string): (d: string)
    ensures |d| <= 50
    ensures errorMsg != "" ==> d != ""
    ensures SaysNetwork(errorMsg) ==> d == NetworkFailure
    ensures !SaysNetwork(errorMsg) ==> d == (if |errorMsg| > 50 then ActivationFailed else errorMsg)
    ensures d == NetworkFailure || d == ActivationFailed || d == errorMsg
  {
    if SaysNetwork(errorMsg) then NetworkFailure
    else ShortOrGeneric(errorMsg)
  }

  /** A message that trips none of the keyword tests is shown as it is exactly when it is at
      most 50 characters long; a longer one is replaced by the generic text. */
  lemma ShortMessagesShown(errorMsg: string)
    requires !SaysAlreadyActive(errorMsg) && !SaysBadToken(errorMsg)
    ensures ActivationDisplay(errorMsg) == errorMsg <==> |errorMsg| <= 50
    ensures |errorMsg| > 50 ==> ActivationDisplay(errorMsg) == ActivationFailed
  {
  }

  /** The same for a thrown error that names neither the network nor a fetch. */
  lemma ShortCatchMessagesShown(errorMsg: string)
    requires !SaysNetwork(errorMsg)
    ensures CatchDisplay(errorMsg) == errorMsg <==> |errorMsg| <= 50
    ensures |errorMsg| > 50 ==> CatchDisplay(errorMsg) == ActivationFailed
  {
  }


  /** The token guard shared by the balance fetch and the activation: longer than 20. */
  predicate UsableToken(token: string)
  {
    token != "" && |token| > 20
  }

  /** The condition of the auto-activation effect. */
  predicate ShouldActivate(token: string, attempted: set<string>, activating: bool)
  {
    UsableToken(token) && token !in attempted && !activating
  }

  /** Once a token is recorded as attempted it never starts another activation. */
  lemma ActivateOnce(token: string, attempted: set<string>, later: set<string>, activating: bool)
    requires token in attempted && attempted <= later
    ensures !ShouldActivate(token, later, activating)
  {
  }

  /** The balance figures the server reports, kept as the strings it sends. */
  datatype Balance = Balance(balance: string, promotionalBalance: string, total: string)
  datatype BalanceReply = BalanceReply(success: bool, balance: Balance)

  class GiftCardSender {
    var senderName: string
    var recipientName: string
    var recipientPhone: string
    var message: string
    var results: seq<Row>
    var isLoading: bool
    var isActivatingBalance: bool
    var activateBalanceStatus: string
    var attemptedTokens: set<string>
    var balance: Option<Balance>

    constructor ()
      ensures senderName == "" && recipientName == "" && recipientPhone == "" && message == ""
      ensures results == [] && !isLoading && !isActivatingBalance && activateBalanceStatus == ""
      ensures attemptedTokens == {} && balance == None
    {
      senderName, recipientName, recipientPhone, message := "", "", "", "";
      results := [];
      isLoading := false;
      isActivatingBalance := false;
      activateBalanceStatus := "";
      attemptedTokens := {};
      balance := None;
    }

    /** `handleGenerateAll`: an error from the generators is alerted and changes no field. */
    method HandleGenerateAll(names: NameGenerator.NameGenerator, messages: MessageGenerator.MessageGenerator)
      returns (alert: Option<string>)
      requires names.Valid() && messages.Valid()
      modifies this, names, messages
      ensures names.Valid() && messages.Valid()
      ensures !(names.AreNamesLoaded() && messages.AreMessagesLoaded()) ==>
        alert == Some(Generators.StillLoading)
        && senderName == old(senderName) && recipientName == old(recipientName) && message == old(message)
        && names.nameIndex == old(names.nameIndex) && messages.msgIndex == old(messages.msgIndex)
      ensures names.AreNamesLoaded() && messages.AreMessagesLoaded() ==>
        alert == None
        && senderName == NameGenerator.FullNameAt(names.firstNames, names.lastNames, old(names.nameIndex))
        && recipientName == NameGenerator.FullNameAt(names.firstNames, names.lastNames,
                                                     Cycle.Step(NameGenerator.Max(|names.firstNames|, |names.lastNames|), old(names.nameIndex)))
        && message == messages.messages[old(messages.msgIndex)]
        && names.nameIndex == Cycle.CursorAfter(NameGenerator.Max(|names.firstNames|, |names.lastNames|), old(names.nameIndex), 2)
        && messages.msgIndex == Cycle.Step(|messages.messages|, old(messages.msgIndex))
      ensures recipientPhone == old(recipientPhone) && results == old(results)
      ensures attemptedTokens == old(attemptedTokens) && balance == old(balance)
      ensures isLoading == old(isLoading) && isActivatingBalance == old(isActivatingBalance)
      ensures activateBalanceStatus == old(activateBalanceStatus)
    {
      var generated := Generators.GenerateAll(names, messages);
      if generated.LoadingError? {
        return Some(generated.error);
      }
      senderName := generated.senderName;
      recipientName := generated.recipientName;
      message := generated.message;
      alert := None;
    }

    /** `sendRequests`. A blank phone is alerted and nothing is sent; otherwise one batch of
        100 is requested with the default names and message filled in, and the results list
        shows what `Display` describes, or the error when the call throws. */
    method SendRequests(bearerToken: string, reply: Call<seq<SendItem>>)
      returns (alert: Option<string>, sent: Option<BatchRequest>, refreshBalance: bool)
      modifies this
      ensures refreshBalance <==> sent.Some? && reply.Returned?
      ensures IsBlank(recipientPhone) ==>
        alert == Some(PhoneAlert) && sent.None? && results == old(results) && isLoading == old(isLoading)
      ensures !IsBlank(recipientPhone) ==>
        && alert.None?
        && sent == Some(BatchRequest(bearerToken, Or(senderName, BatchSend.DefaultSender),
                                     Or(recipientName, BatchSend.DefaultRecipient), recipientPhone,
                                     Or(message, BatchSend.DefaultMessage), 100))
        && (reply.Threw? ==> results == [ErrorRow("ERROR: " + reply.message)])
        && (reply.Returned? ==> results == Display(reply.value))
        && !isLoading
      ensures senderName == old(senderName) && recipientName == old(recipientName)
      ensures recipientPhone == old(recipientPhone) && message == old(message)
      ensures attemptedTokens == old(attemptedTokens) && balance == old(balance)
      ensures isActivatingBalance == old(isActivatingBalance) && activateBalanceStatus == old(activateBalanceStatus)
    {
      var blank := IsBlank(recipientPhone);
      if blank {
        return Some(PhoneAlert), None, false;
      }
      sent, refreshBalance := SendBatch(bearerToken, reply);
      alert := None;
    }

    /** The part of `sendRequests` after the phone check: the loading row is shown, the batch
        goes out, and the reply replaces the loading row. */
    method SendBatch(bearerToken: string, reply: Call<seq<SendItem>>)
      returns (sent: Option<BatchRequest>, refreshBalance: bool)
      modifies this
      ensures refreshBalance <==> reply.Returned?
      ensures sent == Some(BatchRequest(bearerToken, Or(senderName, BatchSend.DefaultSender),
                                        Or(recipientName, BatchSend.DefaultRecipient), recipientPhone,
                                        Or(message, BatchSend.DefaultMessage), 100))
      ensures reply.Threw? ==> results == [ErrorRow("ERROR: " + reply.message)]
      ensures reply.Returned? ==> results == Display(reply.value)
      ensures !isLoading
      ensures senderName == old(senderName) && recipientName == old(recipientName)
      ensures recipientPhone == old(recipientPhone) && message == old(message)
      ensures attemptedTokens == old(attemptedTokens) && balance == old(balance)
      ensures isActivatingBalance == old(isActivatingBalance) && activateBalanceStatus == old(activateBalanceStatus)
    {
      isLoading := true;
      results := [LoadingRow(SendingMessage)];
      sent := Some(BatchRequest(bearerToken, Or(senderName, BatchSend.DefaultSender),
                                Or(recipientName, BatchSend.DefaultRecipient), recipientPhone,
                                Or(message, BatchSend.DefaultMessage), 100));
      if reply.Threw? {
        results := [ErrorRow("ERROR: " + reply.message)];
        refreshBalance := false;
      } else {
        results := ProcessResults(reply.value);
        refreshBalance := true;
      }
      isLoading := false;
    }

    /** The auto-activation effect, run whenever the token, the attempted set or the
        activating flag changes. A token starts an activation at most once: it is added to
        the attempted set before anything else happens. */
    method OnTokenChange(bearerToken: string) returns (startsActivation: bool)
      modifies this
      ensures startsActivation <==> ShouldActivate(bearerToken, old(attemptedTokens), old(isActivatingBalance))
      ensures attemptedTokens == old(attemptedTokens) + (if startsActivation then {bearerToken} else {})
      ensures !UsableToken(bearerToken) ==> activateBalanceStatus == "" && !isActivatingBalance
      ensures UsableToken(bearerToken) ==>
        activateBalanceStatus == old(activateBalanceStatus) && isActivatingBalance == old(isActivatingBalance)
      ensures senderName == old(senderName) && recipientName == old(recipientName)
      ensures recipientPhone == old(recipientPhone) && message == old(message)
      ensures results == old(results) && isLoading == old(isLoading) && balance == old(balance)
    {
      startsActivation := false;
      if bearerToken != "" && |bearerToken| > 20 && bearerToken !in attemptedTokens && !isActivatingBalance {
        attemptedTokens := attemptedTokens + {bearerToken};
        startsActivation := true;
      }
      if bearerToken == "" || |bearerToken| <= 20 {
        activateBalanceStatus := "";
        isActivatingBalance := false;
      }
    }

    /** The activation after its two-second delay: the flag and the status are set. */
    method BeginActivation()
      modifies this
      ensures isActivatingBalance && activateBalanceStatus == Activating
      ensures attemptedTokens == old(attemptedTokens) && results == old(results) && balance == old(balance)
      ensures senderName == old(senderName) && recipientName == old(recipientName)
      ensures recipientPhone == old(recipientPhone) && message == old(message) && isLoading == old(isLoading)
    {
      isActivatingBalance := true;
      activateBalanceStatus := Activating;
    }

    /** The activation's reply. Success asks for a balance refresh; a refusal or a thrown
        error is shown through the mappings above. The flag is cleared in every case. */
    method FinishActivation(reply: Call<Json>) returns (refreshBalance: bool)
      modifies this
      ensures !isActivatingBalance
      ensures refreshBalance <==> reply.Returned? && reply.value.success
      ensures refreshBalance ==> activateBalanceStatus == Activated
      ensures reply.Returned? && !reply.value.success ==>
        activateBalanceStatus == ActivationDisplay(Or(reply.value.error, Or(reply.value.message, ActivationFailed)))
      ensures reply.Threw? ==> activateBalanceStatus == CatchDisplay(Or(reply.message, "Network error"))
      ensures activateBalanceStatus != "" && |activateBalanceStatus| <= 50
      ensures attemptedTokens == old(attemptedTokens) && results == old(results) && balance == old(balance)
      ensures senderName == old(senderName) && recipientName == old(recipientName)
      ensures recipientPhone == old(recipientPhone) && message == old(message) && isLoading == old(isLoading)
    {
      match reply {
        case Returned(data) =>
          if data.success {
            activateBalanceStatus := Activated;
            refreshBalance := true;
          } else {
            var errorMsg := Or(data.error, Or(data.message, ActivationFailed));
            activateBalanceStatus := ActivationDisplay(errorMsg);
            refreshBalance := false;
          }
        case Threw(m) =>
          activateBalanceStatus := CatchDisplay(Or(m, "Network error"));
          refreshBalance := false;
      }
      isActivatingBalance := false;
    }

    /** The three-second timeout that clears the activation status. */
    method ClearActivationStatus()
      modifies this
      ensures activateBalanceStatus == ""
      ensures isActivatingBalance == old(isActivatingBalance) && attemptedTokens == old(attemptedTokens)
      ensures results == old(results) && balance == old(balance) && isLoading == old(isLoading)
      ensures senderName == old(senderName) && recipientName == old(recipientName)
      ensures recipientPhone == old(recipientPhone) && message == old(message)
    {
      activateBalanceStatus := "";
    }

    /** `fetchBalance`: nothing is requested for a token of 20 characters or fewer, and the
        balance is cleared; a successful reply replaces the balance, anything else keeps it. */
    method FetchBalance(bearerToken: string, reply: Call<BalanceReply>) returns (requested: bool)
      modifies this
      ensures requested <==> UsableToken(bearerToken)
      ensures !requested ==> balance == None
      ensures requested && reply.Returned? && reply.value.success ==> balance == Some(reply.value.balance)
      ensures requested && !(reply.Returned? && reply.value.success) ==> balance == old(balance)
      ensures attemptedTokens == old(attemptedTokens) && results == old(results)
      ensures isActivatingBalance == old(isActivatingBalance) && activateBalanceStatus == old(activateBalanceStatus)
      ensures senderName == old(senderName) && recipientName == old(recipientName)
      ensures recipientPhone == old(recipientPhone) && message == old(message) && isLoading == old(isLoading)
    {
      if bearerToken == "" || |bearerToken| <= 20 {
        balance := None;
        return false;
      }
      requested := true;
      if reply.Returned? && reply.value.success {
        balance := Some(reply.value.balance);
      }
    }
  }
}
