/**
 * src/screens/admin/ShopCategoryAdmin.tsx: the admin screen that scrapes a
 * shop's category from its map page. One shop can be scraped by id and its
 * food kind replaced; a batch of shops can be scraped, the rows that found a
 * category ticked, and the ticked categories applied in one request.
 * Every request's reply is a parameter of the method that sends it.
 */
module ShopCategoryAdmin {
  import opened Wrappers
  import Text

  /** ScrapeResult (lines 7-16), without the optional error text. */
  datatype ScrapeResult = ScrapeResult(
    shopId: int,
    shopName: string,
    currentFoodKind: Option<string>,
    scrapedCategory: Option<string>,
    allCategories: seq<string>,
    scrapedShopName: Option<string>,
    scrapedAddress: Option<string>)

  datatype Status = Success | Failed | Skipped

  /** BatchResult (lines 18-25), one row of the batch table. */
  datatype BatchRow = BatchRow(shopId: int, shopName: string, oldFoodKind: Option<string>, newCategory: Option<string>, status: Status)

  /** BatchResponse (lines 27-35). */
  datatype Summary = Summary(total: int, success: int, failed: int, skipped: int)
  datatype BatchResponse = BatchResponse(summary: Summary, results: seq<BatchRow>)

  /** One entry of the apply-categories body. */
  datatype Update = Update(shopId: int, foodKind: string)

  /** The last request the screen sent. */
  datatype Request =
    | NoRequest
    | ScrapeCategory(shop: int)
    | PatchFoodKind(shop: int, foodKind: string)
    | ScrapeCategories(onlyGeneric: bool, limit: int)
    | ApplyCategories(updates: seq<Update>)

  /** The reply to a scrape of one shop: the result, a non-ok response with its error field, or a thrown error. */
  datatype ScrapeReply = Scraped(result: ScrapeResult) | ScrapeRejected(error: Option<string>) | ScrapeThrew(message: string)

  /** The reply to a batch scrape. */
  datatype BatchReply = BatchScraped(response: BatchResponse) | BatchRejected(error: Option<string>) | BatchThrew(message: string)

  /** The reply to a PATCH or apply request; `updated` is the count the apply endpoint reports. */
  datatype PostReply = Posted(updated: int) | PostRejected(error: Option<string>) | PostThrew(message: string)

  const MissingIdMessage: string := "Shop ID를 입력하세요."
  const NotNumericMessage: string := "Shop ID는 숫자여야 합니다."
  const NothingToApplyMessage: string := "적용할 항목이 없습니다."
  const DefaultBatchLimit: int := 20

  /** The outcome of the checks of lines 60-69. */
  datatype ShopIdCheck = MissingId | NotNumeric | ShopNumber(n: int)

  /** handleScrape's validation: an empty id, then an id parseInt reads as NaN, is refused. */
  function CheckShopId(shopId: string): (r: ShopIdCheck)
    ensures r.MissingId? <==> shopId == ""
    ensures r.NotNumeric? <==> shopId != "" && Text.ParseIntNoRadix(shopId).None?
    ensures r.ShopNumber? ==> Text.ParseIntNoRadix(shopId) == Some(r.n)
  {
    if shopId == "" then MissingId
    else match Text.ParseIntNoRadix(shopId)
      case None => NotNumeric
      case Some(n) => ShopNumber(n)
  }

  /** Every id typed as String(n) is accepted as n. */
  lemma CheckShopIdRoundTrip(n: int)
    ensures CheckShopId(Text.IntToString(n)) == ShopNumber(n)
  {
    Text.ParseIntNoRadixRoundTrip(n);
  }

  /** An id with no digit at all is refused, whatever else it holds. */
  lemma CheckShopIdNoDigit(shopId: string)
    requires shopId != ""
    requires forall i :: 0 <= i < |shopId| ==> !Text.IsDigit(shopId[i])
    ensures CheckShopId(shopId) == NotNumeric
  {
    var t := Text.TrimStart(shopId);
    var u := Text.Unsigned(t);
    assert t == shopId[|shopId| - |t|..];
    assert u == t || u == t[1..];
    if u != [] {
      assert !Text.IsDigit(u[0]);
      assert !Text.HexPrefixed(u);
    }
  }

  /** parseInt without a radix reads a `0x` id as hexadecimal, and refuses "0x" alone. */
  lemma CheckShopIdHex()
    ensures CheckShopId("0x1A") == ShopNumber(26)
    ensures CheckShopId("0x") == NotNumeric
  {
    Text.ParseIntNoRadixHex();
    Text.ParseIntNoRadixNaN();
  }

  /** The batch-size field's onChange (line 338): `parseInt(value) || 20`, so NaN and 0 both give 20. */
  function LimitOf(value: string): (limit: int)
    ensures limit != 0
  {
    match Text.ParseIntNoRadix(value)
    case None => DefaultBatchLimit
    case Some(n) => if n == 0 then DefaultBatchLimit else n
  }

  /** A typed number other than 0 becomes the limit; anything else falls back to 20. */
  lemma LimitOfSpec(n: int, value: string)
    ensures n != 0 ==> LimitOf(Text.IntToString(n)) == n
    ensures LimitOf("0") == DefaultBatchLimit
    ensures Text.ParseIntNoRadix(value).None? ==> LimitOf(value) == DefaultBatchLimit
  {
    Text.ParseIntNoRadixRoundTrip(n);
    Text.ParseIntNoRadixRoundTrip(0);
    assert Text.IntToString(0) == "0";
  }

  /** A hexadecimal entry sets the limit it denotes: "0x1A" gives 26. */
  lemma LimitOfHex()
    ensures LimitOf("0x1A") == 26
  {
    Text.ParseIntNoRadixHex();
  }

  /** `r.newCategory` is truthy: present and not empty. */
  predicate HasCategory(r: BatchRow)
  {
    r.newCategory.Some? && r.newCategory.value != ""
  }

  /** A row the batch can apply: scraped successfully with a category (the rows that get a checkbox, line 438). */
  predicate Selectable(r: BatchRow)
  {
    r.status == Success && HasCategory(r)
  }

  /** The filter of line 165: ticked and with a category. */
  predicate Chosen(r: BatchRow, selected: set<int>)
  {
    r.shopId in selected && HasCategory(r)
  }

  /** The map of lines 166-169. */
  function UpdateOf(r: BatchRow): Update
    requires HasCategory(r)
  {
    Update(r.shopId, r.newCategory.value)
  }

  /** u is the update of some chosen row. */
  predicate SentFor(rows: seq<BatchRow>, selected: set<int>, u: Update)
  {
    exists j :: 0 <= j < |rows| && Chosen(rows[j], selected) && u == UpdateOf(rows[j])
  }

  /** `updates` of handleApplySelected (lines 164-169): one update per chosen row, in row order. */
  function Updates(rows: seq<BatchRow>, selected: set<int>): (r: seq<Update>)
    ensures |r| <= |rows|
    ensures forall u :: u in r ==> SentFor(rows, selected, u)
    ensures forall j :: 0 <= j < |rows| && Chosen(rows[j], selected) ==> UpdateOf(rows[j]) in r
  {
    if rows == [] then []
    else
      var rest := Updates(rows[1..], selected);
      assert forall j :: 0 <= j < |rows[1..]| ==> rows[1..][j] == rows[j + 1];
      assert forall u :: SentFor(rows[1..], selected, u) ==> SentFor(rows, selected, u);
      if Chosen(rows[0], selected) then [UpdateOf(rows[0])] + rest else rest
  }

  /** The ids selectAll and a finished batch scrape tick (lines 147-152, 217-225). */
  function SuccessIds(rows: seq<BatchRow>): (ids: set<int>)
    ensures forall j :: 0 <= j < |rows| && Selectable(rows[j]) ==> rows[j].shopId in ids
    ensures forall id :: id in ids ==> exists j :: 0 <= j < |rows| && Selectable(rows[j]) && rows[j].shopId == id
  {
    set j | 0 <= j < |rows| && Selectable(rows[j]) :: rows[j].shopId
  }

  /** After selectAll, apply sends the update of every selectable row, and only updates for selectable ids. */
  lemma SelectAllSendsSuccesses(rows: seq<BatchRow>)
    ensures forall j :: 0 <= j < |rows| && Selectable(rows[j]) ==> UpdateOf(rows[j]) in Updates(rows, SuccessIds(rows))
    ensures forall u :: u in Updates(rows, SuccessIds(rows)) ==> u.shopId in SuccessIds(rows)
  {
    var ids := SuccessIds(rows);
    forall u | u in Updates(rows, ids)
      ensures u.shopId in ids
    {
      assert SentFor(rows, ids, u);
    }
  }

  /** A non-empty selection of selectable ids always has something to send, so the "nothing to apply" alert cannot show. */
  lemma SelectionSends(rows: seq<BatchRow>, selected: set<int>)
    requires selected <= SuccessIds(rows)
    ensures Updates(rows, selected) == [] <==> selected == {}
  {
    if selected != {} {
      var id :| id in selected;
      var j :| 0 <= j < |rows| && Selectable(rows[j]) && rows[j].shopId == id;
      assert UpdateOf(rows[j]) in Updates(rows, selected);
    }
  }

  /** The results after a successful apply (lines 192-200): each chosen row's old food kind becomes its new category. */
  function Applied(rows: seq<BatchRow>, selected: set<int>): seq<BatchRow>
  {
    if rows == [] then []
    else
      var r := rows[0];
      [if Chosen(r, selected) then r.(oldFoodKind := r.newCategory) else r] + Applied(rows[1..], selected)
  }

  /** Row by row, only the chosen rows change, and only in their old food kind. */
  lemma {:induction false} AppliedSpec(rows: seq<BatchRow>, selected: set<int>)
    ensures |Applied(rows, selected)| == |rows|
    ensures forall j :: 0 <= j < |rows| && Chosen(rows[j], selected) ==>
      Applied(rows, selected)[j] == rows[j].(oldFoodKind := rows[j].newCategory)
    ensures forall j :: 0 <= j < |rows| && !Chosen(rows[j], selected) ==> Applied(rows, selected)[j] == rows[j]
  {
    if rows != [] {
      AppliedSpec(rows[1..], selected);
    }
  }

  /** Every update sent is shown afterwards: its shop's row has the new food kind as its old one. */
  lemma AppliedShowsUpdates(rows: seq<BatchRow>, selected: set<int>)
    ensures forall u :: u in Updates(rows, selected) ==>
      exists j :: 0 <= j < |Applied(rows, selected)| && Applied(rows, selected)[j].shopId == u.shopId
                  && Applied(rows, selected)[j].oldFoodKind == Some(u.foodKind)
  {
    AppliedSpec(rows, selected);
    forall u | u in Updates(rows, selected)
      ensures exists j :: 0 <= j < |Applied(rows, selected)| && Applied(rows, selected)[j].shopId == u.shopId
                          && Applied(rows, selected)[j].oldFoodKind == Some(u.foodKind)
    {
      assert SentFor(rows, selected, u);
      var j :| 0 <= j < |rows| && Chosen(rows[j], selected) && u == UpdateOf(rows[j]);
      assert Applied(rows, selected)[j].shopId == u.shopId;
    }
  }

  /** Applying keeps every row's status and new category, so the same ids stay selectable, and applying again changes nothing. */
  lemma AppliedKeepsSelectable(rows: seq<BatchRow>, selected: set<int>)
    ensures SuccessIds(Applied(rows, selected)) == SuccessIds(rows)
    ensures Applied(Applied(rows, selected), selected) == Applied(rows, selected)
  {
    var a := Applied(rows, selected);
    AppliedSpec(rows, selected);
    AppliedSpec(a, selected);
    assert forall j :: 0 <= j < |rows| ==> a[j].shopId == rows[j].shopId && (Selectable(a[j]) <==> Selectable(rows[j]));
    assert forall j :: 0 <= j < |rows| ==> (Chosen(a[j], selected) <==> Chosen(rows[j], selected));
    assert Applied(a, selected) == a;
  }

  /** With nothing ticked nothing is sent. */
  lemma NothingSelectedNothingSent(rows: seq<BatchRow>)
    ensures Updates(rows, {}) == []
  {
  }

  /** toggleSelect's Set copy (lines 207-215): the id is added when absent and deleted when present. */
  function Flip(selected: set<int>, id: int): set<int>
  {
    if id in selected then selected - {id} else selected + {id}
  }

  /** Exactly the toggled id changes membership, and toggling twice restores the set. */
  lemma FlipSpec(selected: set<int>, id: int)
    ensures id in Flip(selected, id) <==> id !in selected
    ensures forall x :: x != id ==> (x in Flip(selected, id) <==> x in selected)
    ensures Flip(Flip(selected, id), id) == selected
  {
  }

  /** The screen's state (lines 40-54), plus the last request sent and the last alert shown. */
  class AdminState {
    var shopId: string
    var scrapeResult: Option<ScrapeResult>
    var scrapeLoading: bool
    var scrapeError: string
    var batchLimit: int
    var onlyGeneric: bool
    var batchResult: Option<BatchResponse>
    var batchLoading: bool
    var batchError: string
    var selected: set<int>
    var lastRequest: Request
    var lastAlert: Option<string>

    /** Only ids of selectable rows are ever ticked (the checkbox exists only on those rows). */
    predicate Valid()
      reads this
    {
      match batchResult
      case None => selected == {}
      case Some(response) => selected <= SuccessIds(response.results)
    }

    constructor()
      ensures Valid()
      ensures shopId == "" && scrapeResult.None? && !scrapeLoading && scrapeError == ""
      ensures batchLimit == DefaultBatchLimit && onlyGeneric && batchResult.None? && !batchLoading && batchError == ""
      ensures selected == {} && lastRequest == NoRequest && lastAlert.None?
    {
      shopId := "";
      scrapeResult := None;
      scrapeLoading := false;
      scrapeError := "";
      batchLimit := DefaultBatchLimit;
      onlyGeneric := true;
      batchResult := None;
      batchLoading := false;
      batchError := "";
      selected := {};
      lastRequest := NoRequest;
      lastAlert := None;
    }

    /** The shop-id field's onChange (line 254). */
    method TypeShopId(value: string)
      modifies this
      ensures shopId == value
      ensures scrapeResult == old(scrapeResult) && scrapeError == old(scrapeError) && lastRequest == old(lastRequest)
      ensures batchResult == old(batchResult) && selected == old(selected)
    {
      shopId := value;
    }

    /** The batch-size field's onChange (line 338). */
    method TypeBatchLimit(value: string)
      modifies this
      ensures batchLimit == LimitOf(value) && batchLimit != 0
      ensures onlyGeneric == old(onlyGeneric) && batchResult == old(batchResult) && selected == old(selected)
      ensures lastRequest == old(lastRequest)
    {
      batchLimit := LimitOf(value);
    }

    /** The "generic only" checkbox (line 348). */
    method SetOnlyGeneric(checked: bool)
      modifies this
      ensures onlyGeneric == checked
      ensures batchLimit == old(batchLimit) && batchResult == old(batchResult) && selected == old(selected)
      ensures lastRequest == old(lastRequest)
    {
      onlyGeneric := checked;
    }

    /**
     * handleScrape (lines 57-93). An empty or non-numeric id sets the error
     * and sends nothing; otherwise the shop is scraped and the result or the
     * error message is shown.
     */
    method Scrape(reply: ScrapeReply)
      modifies this
      ensures shopId == old(shopId) && batchResult == old(batchResult) && selected == old(selected)
      ensures CheckShopId(shopId).MissingId? ==>
        scrapeError == MissingIdMessage && scrapeResult == old(scrapeResult)
        && scrapeLoading == old(scrapeLoading) && lastRequest == old(lastRequest)
      ensures CheckShopId(shopId).NotNumeric? ==>
        scrapeError == NotNumericMessage && scrapeResult == old(scrapeResult)
        && scrapeLoading == old(scrapeLoading) && lastRequest == old(lastRequest)
      ensures CheckShopId(shopId).ShopNumber? ==>
        lastRequest == ScrapeCategory(CheckShopId(shopId).n) && !scrapeLoading
        && match reply
           case Scraped(result) => scrapeResult == Some(result) && scrapeError == ""
           case ScrapeRejected(error) => scrapeResult.None? && scrapeError == Text.OptOrElse(error, "Failed to scrape")
           case ScrapeThrew(message) => scrapeResult.None? && scrapeError == Text.OrElse(message, "Unknown error")
      ensures old(Valid()) ==> Valid()
    {
      var check := CheckShopId(shopId);
      match check {
        case MissingId =>
          scrapeError := MissingIdMessage;
          return;
        case NotNumeric =>
          scrapeError := NotNumericMessage;
          return;
        case ShopNumber(n) =>
          scrapeLoading := true;
          scrapeError := "";
          scrapeResult := None;
          lastRequest := ScrapeCategory(n);
          match reply {
            case Scraped(result) =>
              scrapeResult := Some(result);
            case ScrapeRejected(error) =>
              scrapeError := Text.OptOrElse(error, "Failed to scrape");
            case ScrapeThrew(message) =>
              scrapeError := Text.OrElse(message, "Unknown error");
          }
          scrapeLoading := false;
      }
    }

    /** handleApplySingle (lines 95-120): with a scrape result shown, PATCH its shop's food kind and show the new one. */
    method ApplySingle(newFoodKind: string, reply: PostReply)
      modifies this
      ensures scrapeResult.None? <==> old(scrapeResult).None?
      ensures old(scrapeResult).None? ==> lastRequest == old(lastRequest) && lastAlert == old(lastAlert)
      ensures old(scrapeResult).Some? ==>
        lastRequest == PatchFoodKind(old(scrapeResult).value.shopId, newFoodKind)
        && match reply
           case Posted(_) =>
             scrapeResult == Some(old(scrapeResult).value.(currentFoodKind := Some(newFoodKind)))
             && lastAlert == Some("업데이트 완료!")
           case PostRejected(error) =>
             scrapeResult == old(scrapeResult) && lastAlert == Some("업데이트 실패: " + Text.OptOrElse(error, "Failed to update"))
           case PostThrew(message) =>
             scrapeResult == old(scrapeResult) && lastAlert == Some("업데이트 실패: " + message)
      ensures batchResult == old(batchResult) && selected == old(selected) && scrapeError == old(scrapeError)
      ensures old(Valid()) ==> Valid()
    {
      if scrapeResult.None? {
        return;
      }
      var current := scrapeResult.value;
      lastRequest := PatchFoodKind(current.shopId, newFoodKind);
      match reply {
        case Posted(_) =>
          scrapeResult := Some(current.(currentFoodKind := Some(newFoodKind)));
          lastAlert := Some("업데이트 완료!");
        case PostRejected(error) =>
          lastAlert := Some("업데이트 실패: " + Text.OptOrElse(error, "Failed to update"));
        case PostThrew(message) =>
          lastAlert := Some("업데이트 실패: " + message);
      }
    }

    /** handleBatchScrape (lines 123-158): on success the selectable rows are ticked, otherwise nothing is. */
    method BatchScrape(reply: BatchReply)
      modifies this
      ensures lastRequest == ScrapeCategories(old(onlyGeneric), old(batchLimit))
      ensures !batchLoading
      ensures match reply
        case BatchScraped(response) =>
          batchResult == Some(response) && selected == SuccessIds(response.results) && batchError == ""
        case BatchRejected(error) =>
          batchResult.None? && selected == {} && batchError == Text.OptOrElse(error, "Batch scraping failed")
        case BatchThrew(message) =>
          batchResult.None? && selected == {} && batchError == Text.OrElse(message, "Unknown error")
      ensures scrapeResult == old(scrapeResult) && batchLimit == old(batchLimit) && onlyGeneric == old(onlyGeneric)
      ensures Valid()
    {
      batchLoading := true;
      batchError := "";
      batchResult := None;
      selected := {};
      lastRequest := ScrapeCategories(onlyGeneric, batchLimit);
      match reply {
        case BatchScraped(response) =>
          batchResult := Some(response);
          selected := SuccessIds(response.results);
        case BatchRejected(error) =>
          batchError := Text.OptOrElse(error, "Batch scraping failed");
        case BatchThrew(message) =>
          batchError := Text.OrElse(message, "Unknown error");
      }
      batchLoading := false;
    }

    /**
     * handleApplySelected (lines 161-205). Nothing happens without results or
     * with an empty selection; with nothing to send an alert says so; a
     * successful apply marks the sent rows and clears the selection.
     */
    method ApplySelected(reply: PostReply)
      modifies this
      ensures old(batchResult).None? || old(selected) == {} ==>
        batchResult == old(batchResult) && selected == old(selected)
        && lastRequest == old(lastRequest) && lastAlert == old(lastAlert)
      ensures old(batchResult).Some? && old(selected) != {} && Updates(old(batchResult).value.results, old(selected)) == [] ==>
        batchResult == old(batchResult) && selected == old(selected)
        && lastRequest == old(lastRequest) && lastAlert == Some(NothingToApplyMessage)
      ensures old(batchResult).Some? && old(selected) != {} && Updates(old(batchResult).value.results, old(selected)) != [] ==>
        var response := old(batchResult).value;
        lastRequest == ApplyCategories(Updates(response.results, old(selected)))
        && match reply
           case Posted(updated) =>
             batchResult == Some(response.(results := Applied(response.results, old(selected))))
             && selected == {} && lastAlert == Some(Text.IntToString(updated) + "개 업데이트 완료!")
           case PostRejected(error) =>
             batchResult == old(batchResult) && selected == old(selected)
             && lastAlert == Some("적용 실패: " + Text.OptOrElse(error, "Apply failed"))
           case PostThrew(message) =>
             batchResult == old(batchResult) && selected == old(selected)
             && lastAlert == Some("적용 실패: " + message)
      ensures scrapeResult == old(scrapeResult)
      ensures old(Valid()) ==> Valid()
    {
      if batchResult.None? || selected == {} {
        return;
      }
      var response := batchResult.value;
      var updates := Updates(response.results, selected);
      if |updates| == 0 {
        lastAlert := Some(NothingToApplyMessage);
        return;
      }
      lastRequest := ApplyCategories(updates);
      match reply {
        case Posted(updated) =>
          lastAlert := Some(Text.IntToString(updated) + "개 업데이트 완료!");
          batchResult := Some(response.(results := Applied(response.results, selected)));
          selected := {};
        case PostRejected(error) =>
          lastAlert := Some("적용 실패: " + Text.OptOrElse(error, "Apply failed"));
        case PostThrew(message) =>
          lastAlert := Some("적용 실패: " + message);
      }
    }

    /** toggleSelect (lines 207-215). */
    method ToggleSelect(id: int)
      modifies this
      ensures selected == Flip(old(selected), id)
      ensures batchResult == old(batchResult) && lastRequest == old(lastRequest)
      ensures old(Valid()) && batchResult.Some? && id in SuccessIds(batchResult.value.results) ==> Valid()
    {
      var next := selected;
      if id in next {
        next := next - {id};
      } else {
        next := next + {id};
      }
      selected := next;
    }

    /** selectAll (lines 217-225): without results nothing changes. */
    method SelectAll()
      modifies this
      ensures old(batchResult).None? ==> selected == old(selected)
      ensures old(batchResult).Some? ==> selected == SuccessIds(old(batchResult).value.results)
      ensures batchResult == old(batchResult) && lastRequest == old(lastRequest)
      ensures old(Valid()) ==> Valid()
    {
      if batchResult.None? {
        return;
      }
      selected := SuccessIds(batchResult.value.results);
    }

    /** deselectAll (lines 227-229). */
    method DeselectAll()
      modifies this
      ensures selected == {}
      ensures batchResult == old(batchResult) && lastRequest == old(lastRequest)
      ensures Valid()
    {
      selected := {};
    }
  }
}
