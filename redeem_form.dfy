/** src/components/RedeemForm.js: redeems the gift-card codes typed into the form, one code
    through the single endpoint and several as one batch, or fetches every incoming gift card
    page by page and redeems all their codes. The React state is the fields of a class; each
    handler is a method that takes the server's replies as parameters. */
module RedeemForm {
  import opened JsStrings
  import opened ClientApi
  import opened ResultLists
  import IndexOrder
  import CodeList
  import Progress
  import BatchRedeem

  type RedeemItem = BatchRedeem.RedeemItem

  /** `(a.index || 0)`: the sort key. */
  function Index(item: RedeemItem): int
  {
    item.index
  }

  function IsRedeemed(item: RedeemItem): bool
  {
    item.success
  }

  const NeedBearer: string := "Please enter Bearer token first"
  const NeedCodes: string := "Please enter at least one gift card code"
  const NoCodes: string := "No valid gift card codes found"
  const RedeemFailed: string := "Failed to redeem gift card"
  const NoGiftCards: string := "No incoming gift cards found"
  const NoRedemptionCodes: string := "No valid redemption codes found"
  const FetchFailed: string := "Failed to fetch gift cards"

  /** The status line. The batch summary's total is a floating-point sum and is not
      modelled; the other parts of the text are kept as fields. */
  datatype Status =
    | Text(text: string)
    | Redeeming(count: nat)
    | SingleSuccess(amount: string, balance: string)
    | BatchSummary(successCount: nat, count: nat, lastBalance: string)

  // ---------------------------------------------------------------------------
  // Tallying a batch reply

  /** `lastBalance` after the `forEach`: the balance of the last successful item, with "0"
      when that balance is empty and when no item succeeded. */
  function LastBalance(items: seq<RedeemItem>): string
  {
    if items == [] then "0"
    else if items[|items| - 1].success then Or(items[|items| - 1].newPromotionalBalance, "0")
    else LastBalance(items[..|items| - 1])
  }

  /** The last balance is read off the last successful item and is never empty. */
  lemma {:induction false} LastBalanceOfLastSuccess(items: seq<RedeemItem>)
    ensures var ok := Filter(items, IsRedeemed);
      LastBalance(items) == if ok == [] then "0" else Or(ok[|ok| - 1].newPromotionalBalance, "0")
    ensures LastBalance(items) != ""
  {
    if items != [] {
      var n := |items| - 1;
      assert items == items[..n] + [items[n]];
      FilterAppend(items[..n], [items[n]], IsRedeemed);
      LastBalanceOfLastSuccess(items[..n]);
    }
  }

  /** The `forEach` over the sorted results: the number of successes and the last balance. */
  method Tally(sorted: seq<RedeemItem>) returns (successCount: nat, lastBalance: string)
    ensures successCount == |Filter(sorted, IsRedeemed)|
    ensures lastBalance == LastBalance(sorted)
  {
    successCount := 0;
    lastBalance := "0";
    var i := 0;
    while i < |sorted|
      invariant 0 <= i <= |sorted|
      invariant successCount == |Filter(sorted[..i], IsRedeemed)|
      invariant lastBalance == LastBalance(sorted[..i])
    {
      assert sorted[..i + 1] == sorted[..i] + [sorted[i]];
      FilterAppend(sorted[..i], [sorted[i]], IsRedeemed);
      if sorted[i].success {
        successCount := successCount + 1;
        lastBalance := Or(sorted[i].newPromotionalBalance, "0");
      }
      i := i + 1;
    }
    assert sorted[..i] == sorted;
  }

  /** The summary shown for a batch reply: every success counted, out of all items, and the
      balance of the last success in index order. */
  function BatchStatus(items: seq<RedeemItem>): (s: Status)
    ensures s.BatchSummary? && s.count == |items| && s.lastBalance != ""
    ensures s.successCount == |Filter(items, IsRedeemed)|
    ensures var ok := Filter(IndexOrder.SortByIndex(items, Index), IsRedeemed);
      s.lastBalance == if ok == [] then "0" else Or(ok[|ok| - 1].newPromotionalBalance, "0")
  {
    var sorted := IndexOrder.SortByIndex(items, Index);
    FilterCountOfPermutation(sorted, items, IsRedeemed);
    LastBalanceOfLastSuccess(sorted);
    BatchSummary(|Filter(sorted, IsRedeemed)|, |sorted|, LastBalance(sorted))
  }

  // ---------------------------------------------------------------------------
  // Single or batch

  /** What the redeem button asks the server for. */
  datatype RedeemRequest = Single(code: string) | Batch(codes: string)

  /** One code goes to the single endpoint; several are joined by newlines into one batch. */
  function RequestFor(list: seq<string>): (r: RedeemRequest)
    requires |list| >= 1
    requires forall k :: 0 <= k < |list| ==> CodeList.IsCleanCode(list[k])
    ensures |list| == 1 <==> r.Single?
    ensures r.Single? ==> r.code == list[0]
    ensures r.Batch? ==> CodeList.ParseCodes(r.codes) == list
  {
    if |list| == 1 then Single(list[0])
    else
      CodeList.ParseJoinRoundTrip(list);
      Batch(Join(list, "\n"))
  }

  /** The entry shown for a successful single redemption. */
  function SingleItem(code: string, data: Json): RedeemItem
  {
    BatchRedeem.RedeemItem(0, code, true, data.amount, data.newPromotionalBalance, "", "", None)
  }

  // ---------------------------------------------------------------------------
  // Fetching every page of incoming gift cards

  datatype Card = Card(redemptionCode: string)

  /** One page of `getIncomingGiftCards`; an absent or non-array card list is empty and an
      absent last page is 0. */
  datatype Page = Page(success: bool, error: string, giftCards: seq<Card>, lastPage: int)

  /** `fetchData.last_page || 1`. */
  function LastPageOf(p: Page): (n: int)
    ensures n != 0
    ensures p.lastPage != 0 ==> n == p.lastPage
  {
    if p.lastPage == 0 then 1 else p.lastPage
  }

  /** No page claims more than `bound` pages: the loop then stops. */
  ghost predicate PagesBounded(pageAt: nat -> Call<Page>, bound: nat)
  {
    forall k: nat :: pageAt(k).Returned? ==> LastPageOf(pageAt(k).value) <= bound
  }

  function Prepend(cards: seq<Card>, r: Result<seq<Card>, string>): Result<seq<Card>, string>
  {
    match r
    case Success(rest) => Success(cards + rest)
    case Failure(e) => Failure(e)
  }

  /** The do-while from page `current` on: the cards of this page and the pages after it, or
      the message of the first page that throws or is unsuccessful. */
  function FetchFrom(pageAt: nat -> Call<Page>, current: nat, bound: nat): Result<seq<Card>, string>
    requires PagesBounded(pageAt, bound)
    decreases bound + 1 - current
  {
    match pageAt(current)
    case Threw(m) => Failure(m)
    case Returned(p) =>
      if !p.success then Failure(Or(p.error, FetchFailed))
      else if current + 1 <= LastPageOf(p) then Prepend(p.giftCards, FetchFrom(pageAt, current + 1, bound))
      else Success(p.giftCards)
  }

  function CardsOf(r: Call<Page>): seq<Card>
  {
    if r.Returned? then r.value.giftCards else []
  }

  /** The cards of pages `current` to `last`, in page order. */
  function Concat(pageAt: nat -> Call<Page>, current: nat, last: nat): seq<Card>
    decreases last + 1 - current
  {
    if current > last then [] else CardsOf(pageAt(current)) + Concat(pageAt, current + 1, last)
  }

  /** When pages `current` to `n` all succeed and all report `n` pages, the fetch returns
      their cards concatenated in page order. */
  lemma {:induction false} FetchConcatenates(pageAt: nat -> Call<Page>, bound: nat, current: nat, n: nat)
    requires PagesBounded(pageAt, bound)
    requires 1 <= current <= n
    requires forall k :: current <= k <= n ==>
      pageAt(k).Returned? && pageAt(k).value.success && LastPageOf(pageAt(k).value) == n
    ensures FetchFrom(pageAt, current, bound) == Success(Concat(pageAt, current, n))
    decreases n - current
  {
    if current < n {
      FetchConcatenates(pageAt, bound, current + 1, n);
    } else {
      assert Concat(pageAt, current + 1, n) == [];
      assert CardsOf(pageAt(current)) + [] == CardsOf(pageAt(current));
    }
  }

  /** The first page that throws or is unsuccessful aborts the whole fetch, whatever the
      pages before it returned. */
  lemma {:induction false} FirstFailureAborts(pageAt: nat -> Call<Page>, bound: nat, current: nat, j: nat)
    requires PagesBounded(pageAt, bound)
    requires current <= j
    requires forall k :: current <= k < j ==>
      pageAt(k).Returned? && pageAt(k).value.success && LastPageOf(pageAt(k).value) > k
    requires pageAt(j).Threw? || !pageAt(j).value.success
    ensures FetchFrom(pageAt, current, bound).Failure?
    decreases j - current
  {
    if current < j {
      FirstFailureAborts(pageAt, bound, current + 1, j);
    }
  }

  /** The do-while loop: pages 1, 2, ... are requested in order, at least one, and the cards
      are concatenated until the page counter passes the last page or a page fails. */
  method FetchAllPages(pageAt: nat -> Call<Page>, ghost bound: nat)
    returns (outcome: Result<seq<Card>, string>, fetched: seq<nat>)
    requires PagesBounded(pageAt, bound)
    ensures outcome == FetchFrom(pageAt, 1, bound)
    ensures |fetched| >= 1
    ensures forall k :: 0 <= k < |fetched| ==> fetched[k] == k + 1
  {
    var allGiftCards: seq<Card> := [];
    var currentPage: nat := 1;
    var lastPage: int := 1;
    fetched := [];
    match FetchFrom(pageAt, 1, bound) {
      case Success(cards) => assert [] + cards == cards;
      case Failure(_) =>
    }
    while true
      invariant currentPage >= 1 && |fetched| == currentPage - 1
      invariant forall k :: 0 <= k < |fetched| ==> fetched[k] == k + 1
      invariant FetchFrom(pageAt, 1, bound) == Prepend(allGiftCards, FetchFrom(pageAt, currentPage, bound))
      decreases bound + 1 - currentPage
    {
      var reply := pageAt(currentPage);
      fetched := fetched + [currentPage];
      if reply.Threw? {
        return Failure(reply.message), fetched;
      }
      var fetchData := reply.value;
      if !fetchData.success {
        return Failure(Or(fetchData.error, FetchFailed)), fetched;
      }
      ghost var before := allGiftCards;
      allGiftCards := allGiftCards + fetchData.giftCards;
      lastPage := LastPageOf(fetchData);
      currentPage := currentPage + 1;
      if currentPage > lastPage {
        assert FetchFrom(pageAt, currentPage - 1, bound) == Success(fetchData.giftCards);
        break;
      }
      match FetchFrom(pageAt, currentPage, bound) {
        case Success(rest) => assert before + (fetchData.giftCards + rest) == allGiftCards + rest;
        case Failure(_) =>
      }
    }
    outcome := Success(allGiftCards);
  }

  /** The non-empty `redemption_code` of each card, in card order. */
  function RedemptionCodes(cards: seq<Card>): (codes: seq<string>)
    ensures |codes| <= |cards|
    ensures forall k :: 0 <= k < |codes| ==> codes[k] != ""
    ensures forall i :: 0 <= i < |cards| && cards[i].redemptionCode != "" ==> cards[i].redemptionCode in codes
    ensures forall k :: 0 <= k < |codes| ==> exists i :: 0 <= i < |cards| && cards[i].redemptionCode == codes[k]
  {
    if cards == [] then []
    else
      var rest := RedemptionCodes(cards[1..]);
      assert forall i :: 1 <= i < |cards| ==> cards[i] == cards[1..][i - 1];
      (if cards[0].redemptionCode != "" then [cards[0].redemptionCode] else []) + rest
  }

  /** The codes of two runs of cards are the codes of the first run followed by those of the
      second: the order of the pages is kept. */
  lemma {:induction false} RedemptionCodesAppend(a: seq<Card>, b: seq<Card>)
    ensures RedemptionCodes(a + b) == RedemptionCodes(a) + RedemptionCodes(b)
  {
    if a == [] {
      assert a + b == b;
    } else {
      assert (a + b)[1..] == a[1..] + b;
      RedemptionCodesAppend(a[1..], b);
    }
  }

  class RedeemForm {
    var codes: string
    var status: Status
    var results: seq<RedeemItem>
    var showResults: bool
    var isRedeemingAll: bool
    var progress: int

    constructor ()
      ensures codes == "" && status == Text("") && results == [] && !showResults
      ensures !isRedeemingAll && progress == 0
    {
      codes := "";
      status := Text("");
      results := [];
      showResults := false;
      isRedeemingAll := false;
      progress := 0;
    }

    /** A batch reply: the results in index order and their summary. */
    method ShowBatch(items: seq<RedeemItem>)
      modifies this
      ensures results == IndexOrder.SortByIndex(items, Index) && showResults
      ensures status == BatchStatus(items)
      ensures codes == old(codes) && isRedeemingAll == old(isRedeemingAll) && progress == old(progress)
    {
      var sortedResults := IndexOrder.SortByIndex(items, Index);
      var successCount, lastBalance := Tally(sortedResults);
      status := BatchSummary(successCount, |sortedResults|, lastBalance);
      results := sortedResults;
      showResults := true;
    }

    /** The single-code request of `redeemGiftCard` and its reply. */
    method RedeemSingle(code: string, single: Call<Json>) returns (refresh: bool)
      modifies this
      ensures single.Threw? ==>
        status == Text(ErrorStatus(single.message)) && results == [] && !showResults && !refresh
      ensures single.Returned? && single.value.success ==>
        && status == SingleSuccess(single.value.amount, single.value.newPromotionalBalance)
        && results == [SingleItem(code, single.value)] && showResults && refresh
      ensures single.Returned? && !single.value.success ==>
        status == Text(Or(single.value.error, RedeemFailed)) && results == [] && !showResults && !refresh
      ensures codes == old(codes) && isRedeemingAll == old(isRedeemingAll) && progress == old(progress)
    {
      showResults := false;
      results := [];
      refresh := false;
      match single
      case Threw(m) =>
        status := Text(ErrorStatus(m));
      case Returned(data) =>
        if data.success {
          status := SingleSuccess(data.amount, data.newPromotionalBalance);
          results := [SingleItem(code, data)];
          showResults := true;
          refresh := true;
        } else {
          status := Text(Or(data.error, RedeemFailed));
        }
    }

    /** The batch request of `redeemGiftCard` and its reply. */
    method RedeemBatch(batch: Call<seq<RedeemItem>>) returns (refresh: bool)
      modifies this
      ensures batch.Threw? ==>
        status == Text(ErrorStatus(batch.message)) && results == [] && !showResults && !refresh
      ensures batch.Returned? ==>
        && status == BatchStatus(batch.value) && results == IndexOrder.SortByIndex(batch.value, Index)
        && showResults && refresh
      ensures codes == old(codes) && isRedeemingAll == old(isRedeemingAll) && progress == old(progress)
    {
      showResults := false;
      results := [];
      match batch
      case Threw(m) =>
        status := Text(ErrorStatus(m));
        refresh := false;
      case Returned(allResults) =>
        ShowBatch(allResults);
        refresh := true;
    }

    /** `redeemGiftCard`. A missing token, blank input or input with no code is answered with
        a status and nothing is sent; otherwise the parsed codes go out: one code alone, several as one batch. */
    method RedeemGiftCard(bearerToken: string, single: Call<Json>, batch: Call<seq<RedeemItem>>)
      returns (sent: Option<RedeemRequest>, refresh: bool)
      modifies this
      ensures bearerToken == "" ==> status == Text(NeedBearer)
      ensures bearerToken != "" && IsBlank(codes) ==> status == Text(NeedCodes)
      ensures bearerToken != "" && !IsBlank(codes) && CodeList.ParseCodes(codes) == [] ==> status == Text(NoCodes)
      ensures sent.None? <==> bearerToken == "" || IsBlank(codes) || CodeList.ParseCodes(codes) == []
      ensures sent.None? ==> !refresh && results == old(results) && showResults == old(showResults)
      ensures sent.Some? ==> sent.value == RequestFor(CodeList.ParseCodes(codes))
      ensures sent.Some? && sent.value.Single? ==> (refresh <==> single.Returned? && single.value.success)
      ensures sent.Some? && sent.value.Single? && single.Threw? ==>
        status == Text(ErrorStatus(single.message)) && results == [] && !showResults
      ensures sent.Some? && sent.value.Single? && single.Returned? && !single.value.success ==>
        status == Text(Or(single.value.error, RedeemFailed)) && results == [] && !showResults
      ensures sent.Some? && sent.value.Batch? && batch.Threw? ==>
        status == Text(ErrorStatus(batch.message)) && results == [] && !showResults && !refresh
      ensures sent.Some? && sent.value.Batch? && batch.Returned? ==>
        && status == BatchStatus(batch.value) && results == IndexOrder.SortByIndex(batch.value, Index)
        && showResults && refresh
      ensures sent.Some? && sent.value.Single? && single.Returned? && single.value.success ==>
        && status == SingleSuccess(single.value.amount, single.value.newPromotionalBalance)
        && results == [SingleItem(sent.value.code, single.value)] && showResults && refresh
      ensures refresh ==> sent.Some? && showResults
      ensures codes == old(codes) && isRedeemingAll == old(isRedeemingAll) && progress == old(progress)
    {
      refresh := false;
      if bearerToken == "" {
        status := Text(NeedBearer);
        return None, false;
      }
      var blank := IsBlank(codes);
      if blank {
        status := Text(NeedCodes);
        return None, false;
      }
      var codeList := CodeList.ParseCodes(codes);
      if |codeList| == 0 {
        status := Text(NoCodes);
        return None, false;
      }
      status := Redeeming(|codeList|);
      sent := Some(RequestFor(codeList));
      if |codeList| == 1 {
        refresh := RedeemSingle(codeList[0], single);
      } else {
        refresh := RedeemBatch(batch);
      }
    }

    /** One tick of the redeem-all progress timer: steps of 5, parked at 90. */
    method ProgressTick()
      modifies this
      ensures progress == Progress.Tick(old(progress), 5)
      ensures 0 <= old(progress) <= Progress.Ceiling && old(progress) % 5 == 0 ==>
        0 <= progress <= Progress.Ceiling && progress % 5 == 0
      ensures codes == old(codes) && status == old(status) && results == old(results)
      ensures showResults == old(showResults) && isRedeemingAll == old(isRedeemingAll)
    {
      progress := Progress.Tick(progress, 5);
    }

    /** The redemption after the fetch: the codes are shown in the text area, sent as one
        batch, and the reply is shown as `ShowBatch` says. */
    method RedeemCodes(redemptionCodes: seq<string>, batch: Call<seq<RedeemItem>>) returns (refresh: bool)
      modifies this
      ensures codes == Join(redemptionCodes, "\n")
      ensures batch.Threw? ==> progress == 0 && status == Text(ErrorStatus(batch.message)) && !refresh
      ensures batch.Threw? ==> results == old(results) && showResults == old(showResults)
      ensures batch.Returned? ==>
        && progress == Progress.Done && refresh && showResults
        && status == BatchStatus(batch.value) && results == IndexOrder.SortByIndex(batch.value, Index)
      ensures isRedeemingAll == old(isRedeemingAll)
    {
      codes := Join(redemptionCodes, "\n");
      match batch
      case Threw(m) =>
        progress := 0;
        status := Text(ErrorStatus(m));
        refresh := false;
      case Returned(allResults) =>
        progress := Progress.Done;
        ShowBatch(allResults);
        refresh := true;
    }

    /** `redeemAllGiftCards`. Without a token only the status changes. Otherwise every page of
        incoming gift cards is fetched, and the non-empty redemption codes of their cards are
        redeemed as one batch; a failed page, no cards or no codes end the run with a status
        and redeem nothing. The busy flag is cleared in every case. */
    method RedeemAll(bearerToken: string, pageAt: nat -> Call<Page>, ghost bound: nat, batch: Call<seq<RedeemItem>>)
      returns (fetched: seq<nat>, sent: Option<string>, refresh: bool)
      requires PagesBounded(pageAt, bound)
      modifies this
      ensures bearerToken == "" ==>
        && status == Text(NeedBearer) && fetched == [] && sent.None? && !refresh
        && codes == old(codes) && results == old(results) && showResults == old(showResults)
        && progress == old(progress) && isRedeemingAll == old(isRedeemingAll)
      ensures bearerToken != "" ==>
        && |fetched| >= 1 && (forall k :: 0 <= k < |fetched| ==> fetched[k] == k + 1)
        && !isRedeemingAll
      ensures bearerToken != "" && FetchFrom(pageAt, 1, bound).Failure? ==>
        && status == Text(ErrorStatus(FetchFrom(pageAt, 1, bound).error)) && progress == 0
        && sent.None? && results == [] && !showResults
      ensures bearerToken != "" && FetchFrom(pageAt, 1, bound) == Success([]) ==>
        status == Text(NoGiftCards) && progress == 0 && sent.None? && results == [] && !showResults
      ensures bearerToken != "" && FetchFrom(pageAt, 1, bound).Success? && FetchFrom(pageAt, 1, bound).value != [] ==>
        var redemptionCodes := RedemptionCodes(FetchFrom(pageAt, 1, bound).value);
        && (redemptionCodes == [] ==>
              status == Text(NoRedemptionCodes) && progress == 0 && sent.None? && results == [] && !showResults)
        && (redemptionCodes != [] ==>
              && sent == Some(Join(redemptionCodes, "\n")) && codes == Join(redemptionCodes, "\n")
              && (batch.Threw? ==>
                    status == Text(ErrorStatus(batch.message)) && progress == 0 && results == [] && !showResults)
              && (batch.Returned? ==>
                    status == BatchStatus(batch.value) && results == IndexOrder.SortByIndex(batch.value, Index)
                    && progress == Progress.Done && showResults))
      ensures sent.None? ==> codes == old(codes)
      ensures refresh <==> sent.Some? && batch.Returned?
    {
      if bearerToken == "" {
        status := Text(NeedBearer);
        return [], None, false;
      }
      isRedeemingAll := true;
      status := Text("");
      showResults := false;
      results := [];
      progress := 0;
      sent := None;
      refresh := false;
      var outcome;
      outcome, fetched := FetchAllPages(pageAt, bound);
      if outcome.Failure? {
        progress := 0;
        status := Text(ErrorStatus(outcome.error));
      } else if |outcome.value| == 0 {
        progress := 0;
        status := Text(NoGiftCards);
      } else {
        var redemptionCodes := RedemptionCodes(outcome.value);
        if |redemptionCodes| == 0 {
          progress := 0;
          status := Text(NoRedemptionCodes);
        } else {
          sent := Some(Join(redemptionCodes, "\n"));
          refresh := RedeemCodes(redemptionCodes, batch);
        }
      }
      isRedeemingAll := false;
    }

    /** The half-second timeout after a redeem-all run. */
    method ResetProgress()
      modifies this
      ensures progress == 0
      ensures codes == old(codes) && status == old(status) && results == old(results)
      ensures showResults == old(showResults) && isRedeemingAll == old(isRedeemingAll)
    {
      progress := 0;
    }
  }
}
