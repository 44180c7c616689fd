/** The five list pages (categories, products, shipping rates, promo codes
  * and orders). They share one scheme: the fetched list is paged ten at a
  * time, a row of numbered page buttons is shown through a sliding window,
  * and a search box filters the list by a case-insensitive substring. */
module ListPages {
  import opened Wrappers
  import opened Text
  import opened Records
  import opened Collections
  import opened Http
  import StorageService
  import ImagesDeleteRoute

  /** `pageLength`. */
  const PageLength: nat := 10

  /** `Math.ceil(n / pageLength)`: the fewest pages that hold `n` items. */
  function PageCount(n: nat): (pages: nat)
    ensures pages * PageLength >= n
    ensures pages > 0 ==> (pages - 1) * PageLength < n
    ensures pages == 0 <==> n == 0
  {
    (n + PageLength - 1) / PageLength
  }

  /** The page-button labels `1 .. pages`, in order. */
  predicate Numbered(buttons: seq<nat>, pages: nat)
  {
    |buttons| == pages && forall k :: 0 <= k < |buttons| ==> buttons[k] == k + 1
  }

  /** The fetch handler's loop `for (i = minPage; i <= limit; i++)`, with
    * `minPage` 1: one button per page. */
  method PageButtons(n: nat) returns (buttons: seq<nat>, pages: nat)
    ensures pages == PageCount(n)
    ensures Numbered(buttons, pages)
  {
    pages := PageCount(n);
    buttons := [];
    var i := 1;
    while i <= pages
      invariant 1 <= i <= pages + 1
      invariant |buttons| == i - 1
      invariant forall k :: 0 <= k < |buttons| ==> buttons[k] == k + 1
    {
      buttons := buttons + [i];
      i := i + 1;
    }
  }

  /** `items.filter((_, index) => index >= lo && index < hi)`, where the
    * first element of `s` has index `from`. */
  function KeepIndices<T>(s: seq<T>, from: int, lo: int, hi: int): (r: seq<T>)
    ensures |r| <= |s|
    decreases |s|
  {
    if |s| == 0 then []
    else (if lo <= from < hi then [s[0]] else []) + KeepIndices(s[1..], from + 1, lo, hi)
  }

  function Clamp(x: int, n: nat): (c: nat)
    ensures c <= n
  {
    if x < 0 then 0 else if x > n then n else x
  }

  /** The index filter keeps one contiguous stretch of the list. */
  lemma {:induction false} KeepIndicesIsSlice<T>(s: seq<T>, from: int, lo: int, hi: int)
    requires lo <= hi
    ensures KeepIndices(s, from, lo, hi) == s[Clamp(lo - from, |s|)..Clamp(hi - from, |s|)]
  {
    if |s| > 0 {
      var tail := s[1..];
      KeepIndicesIsSlice(tail, from + 1, lo, hi);
      var a, b := Clamp(lo - from - 1, |tail|), Clamp(hi - from - 1, |tail|);
      if lo <= from < hi {
        SliceFromFront(s, b);
      } else if from < lo {
        SliceOfTail(s, a, b);
      } else {
        assert Clamp(lo - from, |s|) == 0 && Clamp(hi - from, |s|) == 0;
      }
    }
  }

  lemma SliceFromFront<T>(s: seq<T>, b: nat)
    requires b < |s|
    ensures s[..b + 1] == [s[0]] + s[1..][..b]
  {
  }

  lemma SliceOfTail<T>(s: seq<T>, a: nat, b: nat)
    requires a <= b < |s|
    ensures s[a + 1..b + 1] == s[1..][a..b]
  {
  }

  /** The rows shown on page `p`: indices `[(p-1)*10, p*10)` of the
    * (possibly searched) list. */
  function Visible<T>(shown: seq<T>, p: int): seq<T>
  {
    KeepIndices(shown, 0, (p - 1) * PageLength, p * PageLength)
  }

  /** Page `p` is the `p`-th run of ten items, shorter at the end. */
  lemma VisibleIsPage<T>(shown: seq<T>, p: nat)
    requires p >= 1
    ensures var lo := if (p - 1) * PageLength <= |shown| then (p - 1) * PageLength else |shown|;
            var hi := if p * PageLength <= |shown| then p * PageLength else |shown|;
            Visible(shown, p) == shown[lo..hi]
    ensures |Visible(shown, p)| <= PageLength
  {
    KeepIndicesIsSlice(shown, 0, (p - 1) * PageLength, p * PageLength);
  }

  /** Every item is on exactly the page its index says, and that page has a
    * button. */
  lemma EveryItemHasAPage<T>(shown: seq<T>, i: nat)
    requires i < |shown|
    ensures var p := i / PageLength + 1;
            && 1 <= p <= PageCount(|shown|)
            && i % PageLength < |Visible(shown, p)|
            && Visible(shown, p)[i % PageLength] == shown[i]
  {
    var p := i / PageLength + 1;
    VisibleIsPage(shown, p);
    assert (p - 1) * PageLength + i % PageLength == i;
  }

  /** The pagination state: `currentPage`, `pages`, `pageElements` (the
    * buttons, by label) and `pageElementsCopy` (the buttons on show). */
  datatype Pager = Pager(current: nat, pages: nat, buttons: seq<nat>, window: seq<nat>)

  /** The current page is 1 before anything is fetched and between 1 and
    * `pages` after. The arrows keep this; a fetch rebuilds the pages but
    * keeps `current`, so a fetch that brings fewer pages can break it. */
  predicate InRange(s: Pager)
  {
    1 <= s.current && (s.current <= s.pages || s.current == 1)
  }

  /** The "next" arrow. The window slides only from a multiple of four.
    * (`currentPage % 100 % 4` is `currentPage % 4`.) */
  function Next(s: Pager): Pager
  {
    var window := if s.current % 4 == 0 && s.current + 1 <= s.pages then Slice(s.buttons, s.current, |s.buttons|) else s.window;
    s.(current := if s.current + 1 <= s.pages then s.current + 1 else s.current, window := window)
  }

  /** The "previous" arrow. `currentPage-1 % 100` parses as
    * `currentPage - (1 % 100)`, so the test is on `currentPage - 1`. */
  function Prev(s: Pager): Pager
  {
    var lastTwoDigits := s.current - 1;
    var window := if lastTwoDigits % 4 == 0 && s.current - 1 >= 1
                  then Slice(s.buttons, if s.current - 5 > 0 then s.current - 5 else 0, s.current - 1)
                  else s.window;
    s.(current := if s.current - 1 >= 1 then s.current - 1 else s.current, window := window)
  }

  /** Neither arrow leaves the range of pages. */
  lemma ArrowsStayInRange(s: Pager)
    requires InRange(s)
    ensures InRange(Next(s)) && InRange(Prev(s))
    ensures Next(s).current <= s.pages || Next(s).current == 1
  {
  }

  /** "previous" undoes "next" whenever "next" moved. */
  lemma PrevUndoesNext(s: Pager)
    requires 1 <= s.current < s.pages
    ensures Prev(Next(s)).current == s.current
    ensures Next(Prev(Next(s))).current == Next(s).current
  {
  }

  /** When "next" slides the window, the new window starts at the new page
    * and runs to the last one. */
  lemma NextWindowStartsAtNewPage(s: Pager)
    requires Numbered(s.buttons, s.pages) && InRange(s)
    requires s.current % 4 == 0 && s.current < s.pages
    ensures var t := Next(s);
            |t.window| == s.pages - s.current && t.window[0] == t.current
            && forall k :: 0 <= k < |t.window| ==> t.window[k] == s.current + 1 + k
  {
  }

  /** When "previous" slides the window, it shows at most four buttons and
    * ends at the new page. */
  lemma PrevWindowEndsAtNewPage(s: Pager)
    requires Numbered(s.buttons, s.pages) && InRange(s)
    requires (s.current - 1) % 4 == 0 && s.current >= 2
    ensures var t := Prev(s);
            1 <= |t.window| <= 4 && t.window[|t.window| - 1] == t.current
            && forall k :: 0 <= k < |t.window| ==> t.buttons[t.current - |t.window| + k] == t.window[k]
  {
  }

  /** A list page's data: the fetched list, the list on show (searched or
    * not) and the pager. */
  datatype ListPage<T> = ListPage(items: seq<T>, shown: seq<T>, pager: Pager)

  /** The fetch handler. A failed fetch changes nothing; a successful one
    * replaces both lists and rebuilds the buttons, but keeps the current
    * page. */
  method Load<T>(s: ListPage<T>, data: Option<seq<T>>) returns (t: ListPage<T>)
    ensures data.None? ==> t == s
    ensures data.Some? ==>
      && t.items == data.value && t.shown == data.value
      && t.pager.pages == PageCount(|data.value|) && Numbered(t.pager.buttons, t.pager.pages)
      && t.pager.window == t.pager.buttons && t.pager.current == s.pager.current
  {
    if data.None? {
      return s;
    }
    var buttons, limit := PageButtons(|data.value|);
    t := ListPage(data.value, data.value, s.pager.(pages := limit, buttons := buttons, window := buttons));
  }

  /** `key.toLowerCase().includes(searchText.toLowerCase())`. */
  predicate Matches(key: string, text: string)
  {
    Contains(Lower(key), Lower(text))
  }

  /** The search button: the fetched items whose key matches. */
  function Search<T(==,!new)>(items: seq<T>, key: T -> string, text: string): (r: seq<T>)
    ensures forall i :: 0 <= i < |r| ==> r[i] in items && Matches(key(r[i]), text)
    ensures forall i :: 0 <= i < |items| && Matches(key(items[i]), text) ==> items[i] in r
    ensures forall x :: multiset(r)[x] == if Matches(key(x), text) then multiset(items)[x] else 0
  {
    FilterCounts(items, (x: T) => Matches(key(x), text));
    Filter(items, (x: T) => Matches(key(x), text))
  }

  /** The results keep the fetched order, which is what places each of them
    * on its page: the hits of a front part come first. */
  lemma SearchKeepsOrder<T(!new)>(front: seq<T>, back: seq<T>, key: T -> string, text: string)
    ensures Search(front + back, key, text) == Search(front, key, text) + Search(back, key, text)
  {
    FilterAppend(front, back, (x: T) => Matches(key(x), text));
  }

  /** Searching for nothing keeps everything. */
  lemma SearchNothingKeepsAll<T(!new)>(items: seq<T>, key: T -> string)
    ensures Search(items, key, "") == items
  {
    forall i | 0 <= i < |items| ensures Matches(key(items[i]), "") {
      ContainsEmpty(Lower(key(items[i])));
    }
    FilterAll(items, (x: T) => Matches(key(x), ""));
  }

  /** The search button's effect on the page. */
  function Searched<T(==,!new)>(s: ListPage<T>, key: T -> string, text: string): ListPage<T>
  {
    s.(shown := Search(s.items, key, text))
  }

  /** The effect on `searchText`: clearing the box restores the full list,
    * any other text leaves the shown list alone until the next search. */
  function SearchTextChanged<T>(s: ListPage<T>, text: string): (t: ListPage<T>)
    ensures text == "" ==> t.shown == s.items
    ensures text != "" ==> t == s
    ensures t.items == s.items && t.pager == s.pager
  {
    if text == "" then s.(shown := s.items) else s
  }

  /** Clearing the box and searching for nothing agree. */
  lemma ClearingEqualsEmptySearch<T(!new)>(s: ListPage<T>, key: T -> string)
    ensures SearchTextChanged(s, "") == Searched(s, key, "")
  {
    SearchNothingKeepsAll(s.items, key);
  }

  function SearchCategories(cats: seq<Category>, text: string): (r: seq<Category>)
    ensures forall i :: 0 <= i < |r| ==> r[i] in cats && Matches(r[i].name, text)
    ensures forall i :: 0 <= i < |cats| && Matches(cats[i].name, text) ==> cats[i] in r
  {
    Search(cats, (c: Category) => c.name, text)
  }

  function SearchProducts(products: seq<Product>, text: string): (r: seq<Product>)
    ensures forall i :: 0 <= i < |r| ==> r[i] in products && Matches(r[i].name, text)
    ensures forall i :: 0 <= i < |products| && Matches(products[i].name, text) ==> products[i] in r
  {
    Search(products, (p: Product) => p.name, text)
  }

  function SearchShippingRates(rates: seq<ShippingRate>, text: string): (r: seq<ShippingRate>)
    ensures forall i :: 0 <= i < |r| ==> r[i] in rates && Matches(r[i].name, text)
    ensures forall i :: 0 <= i < |rates| && Matches(rates[i].name, text) ==> rates[i] in r
  {
    Search(rates, (s: ShippingRate) => s.name, text)
  }

  function SearchPromocodes(codes: seq<Promocode>, text: string): (r: seq<Promocode>)
    ensures forall i :: 0 <= i < |r| ==> r[i] in codes && Matches(r[i].code, text)
    ensures forall i :: 0 <= i < |codes| && Matches(codes[i].code, text) ==> codes[i] in r
  {
    Search(codes, (p: Promocode) => p.code, text)
  }

  function SearchOrders(orders: seq<Order>, text: string): (r: seq<Order>)
    ensures forall i :: 0 <= i < |r| ==> r[i] in orders && Matches(r[i].orderId, text)
    ensures forall i :: 0 <= i < |orders| && Matches(orders[i].orderId, text) ==> orders[i] in r
  {
    Search(orders, (o: Order) => o.orderId, text)
  }

  /** What the page reads from a JSON answer: whether `data.success` and
    * `data.error` are truthy. An unhandled error has neither; an empty
    * message is falsy and an error object is truthy. */
  datatype Answer = Answer(success: bool, error: bool)

  function AnswerOf(r: Response<()>): (a: Answer)
    ensures a.success <==> r.body == Success
    ensures a.error <==> (r.body.Error? && r.body.message != "") || r.body == ErrorObject
  {
    Answer(r.body.Success?, (r.body.Error? && r.body.message != "") || r.body.ErrorObject?)
  }

  /** The requests a delete button sends, in order. */
  datatype Call = DeleteCategory(id: Id) | DeleteProduct(id: Id) | DeleteShippingRate(id: Id)
                | DeletePromocode(id: Id) | DeleteImages(images: seq<StoredImage>)

  /** The requests sent and whether the failure dialog opens. */
  datatype Outcome = Outcome(calls: seq<Call>, failed: bool)

  /** The category list's delete: the image batch is deleted only after a
    * successful document delete, and only when there are images. Either
    * request's error opens the failure dialog. `second` is the answer the
    * batch delete would get. */
  function CategoryDelete(id: Id, images: seq<StoredImage>, first: Answer, second: Answer): (o: Outcome)
    ensures 1 <= |o.calls| <= 2 && o.calls[0] == DeleteCategory(id)
    ensures |o.calls| == 2 <==> first.success && |images| > 0
    ensures |o.calls| == 2 ==> o.calls[1] == DeleteImages(images)
    ensures o.failed <==> first.error || (|o.calls| == 2 && second.error)
  {
    if first.success && |images| > 0 then
      Outcome([DeleteCategory(id), DeleteImages(images)], second.error || first.error)
    else Outcome([DeleteCategory(id)], first.error)
  }

  /** The product list's delete: the image batch follows any successful
    * document delete, even with no images. */
  function ProductDelete(id: Id, images: seq<StoredImage>, first: Answer, second: Answer): (o: Outcome)
    ensures 1 <= |o.calls| <= 2 && o.calls[0] == DeleteProduct(id)
    ensures |o.calls| == 2 <==> first.success
    ensures |o.calls| == 2 ==> o.calls[1] == DeleteImages(images)
    ensures o.failed <==> first.error || (|o.calls| == 2 && second.error)
  {
    if first.success then
      Outcome([DeleteProduct(id), DeleteImages(images)], second.error || first.error)
    else Outcome([DeleteProduct(id)], first.error)
  }

  /** The shipping-rate list's delete: one request, no image step. */
  function ShippingRateDelete(id: Id, first: Answer): (o: Outcome)
    ensures o.calls == [DeleteShippingRate(id)] && (o.failed <==> first.error)
  {
    Outcome([DeleteShippingRate(id)], first.error)
  }

  /** The promo-code list's delete: one request. */
  function PromocodeDelete(id: Id, first: Answer): (o: Outcome)
    ensures o.calls == [DeletePromocode(id)] && (o.failed <==> first.error)
  {
    Outcome([DeletePromocode(id)], first.error)
  }

  /** The batch the category list sends is never one the images endpoint
    * rejects as empty. */
  lemma CategoryBatchIsNeverEmpty(svc: StorageService.Config, id: Id, images: seq<StoredImage>, first: Answer, second: Answer)
    ensures forall k :: 0 <= k < |CategoryDelete(id, images, first, second).calls|
                        && CategoryDelete(id, images, first, second).calls[k].DeleteImages? ==>
      ImagesDeleteRoute.Rejection(true, svc, Some(Some(CategoryDelete(id, images, first, second).calls[k].images)))
        != Some(Response(400, Error("Images to be deleted are missing")))
  {
  }

  /** Deleting a product that has no images: the document goes, the batch
    * endpoint answers 400, and the page reports a failure. */
  lemma ImagelessProductDeleteReportsFailure(svc: StorageService.Config, id: Id, first: Answer)
    requires first.success
    ensures var second := AnswerOf(ImagesDeleteRoute.Rejection(true, svc, Some(Some([]))).value);
            var o := ProductDelete(id, [], first, second);
            o.calls == [DeleteProduct(id), DeleteImages([])] && o.failed
  {
  }
}
