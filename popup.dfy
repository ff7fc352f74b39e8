/**
 * The popup (popup.js): the download button's handler, the batched image
 * download, and the reassembly of the downloaded pages into a printable
 * document or a set of image files.
 *
 * The network is a parameter: `fetch` maps an image URL to the canvas its
 * image is drawn on, or to None when the request or the image decode fails.
 */
module Popup {
  import opened Wrappers
  import opened Strings
  import NumberText
  import ContentScript
  import opened PdfGenerator

  // ---------------------------------------------------------------------
  // downloadImages
  // ---------------------------------------------------------------------

  /** What downloadSingleImage resolves to on success. */
  datatype FetchedImage = FetchedImage(canvas: Canvas, pageNum: nat)

  /** One request of the download: a page number and the image URL derived for it. */
  datatype PageRequest = PageRequest(pageNum: nat, url: string)

  /** Fetching and decoding an image URL: the drawn canvas, or None on any failure. */
  type Network = string -> Option<Canvas>

  /** The number of downloads awaited together. */
  const MaxConcurrent: nat := 3

  /** The image URL of a page: its lower-case hexadecimal number between prefix and suffix. */
  function PageUrl(basePrefix: string, baseSuffix: string, pageNum: nat): (url: string)
    ensures |url| == |basePrefix| + |NumberText.ToHex(pageNum)| + |baseSuffix|
    ensures url[..|basePrefix|] == basePrefix && url[|url| - |baseSuffix|..] == baseSuffix
    ensures url[|basePrefix|..|url| - |baseSuffix|] == NumberText.ToHex(pageNum)
  {
    basePrefix + NumberText.ToHex(pageNum) + baseSuffix
  }

  /** Distinct pages have distinct image URLs. */
  lemma PageUrlInjective(basePrefix: string, baseSuffix: string, m: nat, n: nat)
    ensures PageUrl(basePrefix, baseSuffix, m) == PageUrl(basePrefix, baseSuffix, n) <==> m == n
  {
    var a, b := NumberText.ToHex(m), NumberText.ToHex(n);
    if PageUrl(basePrefix, baseSuffix, m) == PageUrl(basePrefix, baseSuffix, n) {
      var p := |basePrefix|;
      assert |a| == |b|;
      assert a == PageUrl(basePrefix, baseSuffix, m)[p..p + |a|];
      assert b == PageUrl(basePrefix, baseSuffix, n)[p..p + |b|];
      NumberText.ToRadixInjective(m, n, 16);
    }
  }

  /** downloadSingleImage: the fetched page, or None (a rejected or null outcome). */
  function DownloadSingleImage(request: PageRequest, fetch: Network): (result: Option<FetchedImage>)
    ensures result.Some? <==> fetch(request.url).Some?
    ensures result.Some? ==> result.value.pageNum == request.pageNum && Some(result.value.canvas) == fetch(request.url)
  {
    match fetch(request.url)
    case Some(canvas) => Some(FetchedImage(canvas, request.pageNum))
    case None => None
  }

  /** The number of pages from `first` to `totalPages`, none when `first` is past the end. */
  function PagesFrom(first: int, totalPages: int): nat
  {
    if totalPages < first then 0 else totalPages - first + 1
  }

  /** The requests for pages `first`, `first + 1`, ..., `first + count - 1`. */
  function RequestRun(basePrefix: string, baseSuffix: string, first: nat, count: nat): seq<PageRequest>
  {
    seq(count, j requires 0 <= j < count => PageRequest(first + j, PageUrl(basePrefix, baseSuffix, first + j)))
  }

  lemma RequestRunStep(basePrefix: string, baseSuffix: string, first: nat, count: nat)
    ensures RequestRun(basePrefix, baseSuffix, first, count + 1)
         == RequestRun(basePrefix, baseSuffix, first, count) + [PageRequest(first + count, PageUrl(basePrefix, baseSuffix, first + count))]
  {
  }

  /** The batch starting at page `first`: up to `MaxConcurrent` pages, none past `totalPages`. */
  function BatchAt(basePrefix: string, baseSuffix: string, first: nat, totalPages: int): seq<PageRequest>
  {
    var left := PagesFrom(first, totalPages);
    RequestRun(basePrefix, baseSuffix, first, if left < MaxConcurrent then left else MaxConcurrent)
  }

  /** The batches starting at page `first`, each `MaxConcurrent` pages after the previous one. */
  function BatchesFrom(basePrefix: string, baseSuffix: string, first: nat, totalPages: int): seq<seq<PageRequest>>
    decreases PagesFrom(first, totalPages)
  {
    if first > totalPages then []
    else [BatchAt(basePrefix, baseSuffix, first, totalPages)] + BatchesFrom(basePrefix, baseSuffix, first + MaxConcurrent, totalPages)
  }

  /** The batches downloadImages issues, in issue order. */
  function Batches(basePrefix: string, baseSuffix: string, totalPages: int): seq<seq<PageRequest>>
  {
    BatchesFrom(basePrefix, baseSuffix, 1, totalPages)
  }

  function Flatten(batches: seq<seq<PageRequest>>): seq<PageRequest>
  {
    if batches == [] then [] else batches[0] + Flatten(batches[1..])
  }

  /** The fulfilled, non-null outcomes of `requests`, in request order. */
  function Collect(requests: seq<PageRequest>, fetch: Network): seq<FetchedImage>
  {
    if requests == [] then []
    else
      (match DownloadSingleImage(requests[0], fetch)
       case Some(image) => [image]
       case None => []) + Collect(requests[1..], fetch)
  }

  /** The reference order of requests: every page from 1 to `totalPages` once, ascending. */
  function Requests(basePrefix: string, baseSuffix: string, totalPages: int): seq<PageRequest>
  {
    RequestRun(basePrefix, baseSuffix, 1, PagesFrom(1, totalPages))
  }

  /** The images downloadImages returns. */
  function DownloadedImages(basePrefix: string, baseSuffix: string, totalPages: int, fetch: Network): seq<FetchedImage>
  {
    Collect(Requests(basePrefix, baseSuffix, totalPages), fetch)
  }

  lemma {:induction false} FlattenAppend(batches: seq<seq<PageRequest>>, batch: seq<PageRequest>)
    ensures Flatten(batches + [batch]) == Flatten(batches) + batch
    decreases |batches|
  {
    if batches == [] {
      assert Flatten([batch]) == batch + Flatten([]);
    } else {
      assert (batches + [batch])[1..] == batches[1..] + [batch];
      FlattenAppend(batches[1..], batch);
    }
  }

  lemma {:induction false} CollectAppend(a: seq<PageRequest>, b: seq<PageRequest>, fetch: Network)
    ensures Collect(a + b, fetch) == Collect(a, fetch) + Collect(b, fetch)
    decreases |a|
  {
    if a == [] {
      assert a + b == b;
    } else {
      assert (a + b)[1..] == a[1..] + b;
      CollectAppend(a[1..], b, fetch);
    }
  }

  /** The batches, put end to end, are the requests for pages 1..totalPages in order. */
  lemma {:induction false} BatchesFromFlatten(basePrefix: string, baseSuffix: string, first: nat, totalPages: int)
    ensures Flatten(BatchesFrom(basePrefix, baseSuffix, first, totalPages))
         == RequestRun(basePrefix, baseSuffix, first, PagesFrom(first, totalPages))
    decreases PagesFrom(first, totalPages)
  {
    var run := RequestRun(basePrefix, baseSuffix, first, PagesFrom(first, totalPages));
    if first <= totalPages {
      var bs := BatchesFrom(basePrefix, baseSuffix, first, totalPages);
      var batch := BatchAt(basePrefix, baseSuffix, first, totalPages);
      BatchesFromFlatten(basePrefix, baseSuffix, first + MaxConcurrent, totalPages);
      assert bs[1..] == BatchesFrom(basePrefix, baseSuffix, first + MaxConcurrent, totalPages);
      assert run == batch + RequestRun(basePrefix, baseSuffix, first + MaxConcurrent, PagesFrom(first + MaxConcurrent, totalPages));
    }
  }

  /** Every page 1..totalPages is requested exactly once, in increasing order, at its derived URL. */
  lemma BatchesCoverPages(basePrefix: string, baseSuffix: string, totalPages: int)
    ensures Flatten(Batches(basePrefix, baseSuffix, totalPages)) == Requests(basePrefix, baseSuffix, totalPages)
    ensures |Requests(basePrefix, baseSuffix, totalPages)| == if totalPages < 0 then 0 else totalPages
    ensures forall k :: 0 <= k < |Requests(basePrefix, baseSuffix, totalPages)| ==>
      Requests(basePrefix, baseSuffix, totalPages)[k] == PageRequest(k + 1, PageUrl(basePrefix, baseSuffix, k + 1))
  {
    BatchesFromFlatten(basePrefix, baseSuffix, 1, totalPages);
  }

  /** The `k`th batch from `first` starts at page `first + 3k` and holds up to three consecutive pages. */
  lemma {:induction false} BatchesFromShape(basePrefix: string, baseSuffix: string, first: nat, totalPages: int, k: nat)
    requires k < |BatchesFrom(basePrefix, baseSuffix, first, totalPages)|
    ensures first + MaxConcurrent * k <= totalPages
    ensures BatchesFrom(basePrefix, baseSuffix, first, totalPages)[k] == BatchAt(basePrefix, baseSuffix, first + MaxConcurrent * k, totalPages)
    ensures k + 1 < |BatchesFrom(basePrefix, baseSuffix, first, totalPages)| <==> first + MaxConcurrent * (k + 1) <= totalPages
    decreases k
  {
    var bs := BatchesFrom(basePrefix, baseSuffix, first, totalPages);
    var rest := BatchesFrom(basePrefix, baseSuffix, first + MaxConcurrent, totalPages);
    assert bs == [BatchAt(basePrefix, baseSuffix, first, totalPages)] + rest;
    if k == 0 {
      if first + MaxConcurrent <= totalPages {
        assert |rest| >= 1;
      } else {
        assert rest == [];
      }
    } else {
      BatchesFromShape(basePrefix, baseSuffix, first + MaxConcurrent, totalPages, k - 1);
    }
  }

  /**
   * Batches are consecutive runs of pages: batch `k` starts at page `3k + 1`
   * and holds 3 pages, except the last, which holds between 1 and 3.
   */
  lemma BatchShape(basePrefix: string, baseSuffix: string, totalPages: int, k: nat)
    requires k < |Batches(basePrefix, baseSuffix, totalPages)|
    ensures 1 <= |Batches(basePrefix, baseSuffix, totalPages)[k]| <= MaxConcurrent
    ensures Batches(basePrefix, baseSuffix, totalPages)[k][0].pageNum == MaxConcurrent * k + 1
    ensures k + 1 < |Batches(basePrefix, baseSuffix, totalPages)| ==> |Batches(basePrefix, baseSuffix, totalPages)[k]| == MaxConcurrent
  {
    BatchesFromShape(basePrefix, baseSuffix, 1, totalPages, k);
  }

  /** Seven pages are requested in batches of 3, 3 and 1 pages. */
  lemma SevenPages(basePrefix: string, baseSuffix: string)
    ensures |Batches(basePrefix, baseSuffix, 7)| == 3
    ensures |Batches(basePrefix, baseSuffix, 7)[0]| == 3
    ensures |Batches(basePrefix, baseSuffix, 7)[1]| == 3
    ensures |Batches(basePrefix, baseSuffix, 7)[2]| == 1
    ensures Batches(basePrefix, baseSuffix, 7)[2][0].pageNum == 7
  {
    var b4 := BatchesFrom(basePrefix, baseSuffix, 4, 7);
    var b7 := BatchesFrom(basePrefix, baseSuffix, 7, 7);
    assert BatchesFrom(basePrefix, baseSuffix, 10, 7) == [];
    assert |b7| == 1;
    assert |b4| == 2;
  }

  /** No pages: no batch and no image. */
  lemma NoPages(basePrefix: string, baseSuffix: string, totalPages: int, fetch: Network)
    requires totalPages <= 0
    ensures Batches(basePrefix, baseSuffix, totalPages) == []
    ensures DownloadedImages(basePrefix, baseSuffix, totalPages, fetch) == []
  {
    assert Requests(basePrefix, baseSuffix, totalPages) == [];
  }

  predicate StrictlyIncreasing(images: seq<FetchedImage>)
  {
    forall j, k :: 0 <= j < k < |images| ==> images[j].pageNum < images[k].pageNum
  }

  /** The requests for pages 1..n+1 are those for pages 1..n followed by page n+1. */
  lemma RequestsStep(basePrefix: string, baseSuffix: string, n: nat)
    ensures Requests(basePrefix, baseSuffix, n + 1)
         == Requests(basePrefix, baseSuffix, n) + [PageRequest(n + 1, PageUrl(basePrefix, baseSuffix, n + 1))]
  {
  }

  /** Page `n + 1` adds its image to the result of pages 1..n when, and only when, its download succeeds. */
  lemma DownloadedImagesStep(basePrefix: string, baseSuffix: string, n: nat, fetch: Network)
    ensures var url := PageUrl(basePrefix, baseSuffix, n + 1);
      DownloadedImages(basePrefix, baseSuffix, n + 1, fetch)
      == DownloadedImages(basePrefix, baseSuffix, n, fetch)
         + (match fetch(url) case Some(c) => [FetchedImage(c, n + 1)] case None => [])
  {
    var request := PageRequest(n + 1, PageUrl(basePrefix, baseSuffix, n + 1));
    RequestsStep(basePrefix, baseSuffix, n);
    CollectAppend(Requests(basePrefix, baseSuffix, n), [request], fetch);
  }

  /** Every downloaded image is a page in range holding its fetched canvas, in strictly increasing page order. */
  lemma {:induction false} DownloadedImagesSound(basePrefix: string, baseSuffix: string, totalPages: int, fetch: Network)
    ensures |DownloadedImages(basePrefix, baseSuffix, totalPages, fetch)| <= PagesFrom(1, totalPages)
    ensures StrictlyIncreasing(DownloadedImages(basePrefix, baseSuffix, totalPages, fetch))
    ensures forall k :: 0 <= k < |DownloadedImages(basePrefix, baseSuffix, totalPages, fetch)| ==>
      var image := DownloadedImages(basePrefix, baseSuffix, totalPages, fetch)[k];
      1 <= image.pageNum <= totalPages && fetch(PageUrl(basePrefix, baseSuffix, image.pageNum)) == Some(image.canvas)
    decreases PagesFrom(1, totalPages)
  {
    if totalPages <= 0 {
      NoPages(basePrefix, baseSuffix, totalPages, fetch);
    } else {
      DownloadedImagesSound(basePrefix, baseSuffix, totalPages - 1, fetch);
      DownloadedImagesStep(basePrefix, baseSuffix, totalPages - 1, fetch);
    }
  }

  /** Every page whose download succeeds is among the downloaded images. */
  lemma {:induction false} DownloadedImagesComplete(basePrefix: string, baseSuffix: string, totalPages: int, fetch: Network)
    ensures forall n :: 1 <= n <= totalPages && fetch(PageUrl(basePrefix, baseSuffix, n)).Some? ==>
      exists k :: 0 <= k < |DownloadedImages(basePrefix, baseSuffix, totalPages, fetch)|
        && DownloadedImages(basePrefix, baseSuffix, totalPages, fetch)[k].pageNum == n
    decreases PagesFrom(1, totalPages)
  {
    if totalPages > 0 {
      var images := DownloadedImages(basePrefix, baseSuffix, totalPages, fetch);
      var before := DownloadedImages(basePrefix, baseSuffix, totalPages - 1, fetch);
      DownloadedImagesComplete(basePrefix, baseSuffix, totalPages - 1, fetch);
      DownloadedImagesStep(basePrefix, baseSuffix, totalPages - 1, fetch);
      forall m | 1 <= m <= totalPages && fetch(PageUrl(basePrefix, baseSuffix, m)).Some?
        ensures exists k :: 0 <= k < |images| && images[k].pageNum == m
      {
        if m < totalPages {
          var k :| 0 <= k < |before| && before[k].pageNum == m;
          assert images[k] == before[k];
        } else {
          assert images[|images| - 1].pageNum == m;
        }
      }
    }
  }

  /** The number of pages among 1..totalPages whose download fails. */
  function FailedCount(basePrefix: string, baseSuffix: string, totalPages: int, fetch: Network): nat
    decreases PagesFrom(1, totalPages)
  {
    if totalPages <= 0 then 0
    else
      var failed := if fetch(PageUrl(basePrefix, baseSuffix, totalPages)).None? then 1 else 0;
      FailedCount(basePrefix, baseSuffix, totalPages - 1, fetch) + failed
  }

  /** Each failed page removes exactly one image from the result. */
  lemma {:induction false} DownloadedCount(basePrefix: string, baseSuffix: string, totalPages: int, fetch: Network)
    ensures |DownloadedImages(basePrefix, baseSuffix, totalPages, fetch)| + FailedCount(basePrefix, baseSuffix, totalPages, fetch)
         == PagesFrom(1, totalPages)
    decreases PagesFrom(1, totalPages)
  {
    if totalPages <= 0 {
      NoPages(basePrefix, baseSuffix, totalPages, fetch);
    } else {
      var n := totalPages - 1;
      var request := PageRequest(totalPages, PageUrl(basePrefix, baseSuffix, totalPages));
      DownloadedCount(basePrefix, baseSuffix, n, fetch);
      RequestsStep(basePrefix, baseSuffix, n);
      CollectAppend(Requests(basePrefix, baseSuffix, n), [request], fetch);
    }
  }

  /** When exactly pages 2 and 5 fail, the result has two images fewer than there are pages. */
  lemma {:induction false} PagesTwoAndFiveFail(basePrefix: string, baseSuffix: string, totalPages: int, fetch: Network)
    requires totalPages >= 5
    requires forall n :: 1 <= n <= totalPages ==>
      (fetch(PageUrl(basePrefix, baseSuffix, n)).None? <==> n == 2 || n == 5)
    ensures |DownloadedImages(basePrefix, baseSuffix, totalPages, fetch)| == totalPages - 2
    ensures forall k :: 0 <= k < |DownloadedImages(basePrefix, baseSuffix, totalPages, fetch)| ==>
      DownloadedImages(basePrefix, baseSuffix, totalPages, fetch)[k].pageNum !in {2, 5}
    decreases totalPages
  {
    DownloadedCount(basePrefix, baseSuffix, totalPages, fetch);
    DownloadedImagesSound(basePrefix, baseSuffix, totalPages, fetch);
    DownloadedImagesComplete(basePrefix, baseSuffix, totalPages, fetch);
    FailedPagesTwoAndFive(basePrefix, baseSuffix, totalPages, fetch);
  }

  lemma {:induction false} FailedPagesTwoAndFive(basePrefix: string, baseSuffix: string, totalPages: int, fetch: Network)
    requires totalPages >= 0
    requires forall n :: 1 <= n <= totalPages ==>
      (fetch(PageUrl(basePrefix, baseSuffix, n)).None? <==> n == 2 || n == 5)
    ensures FailedCount(basePrefix, baseSuffix, totalPages, fetch)
         == (if totalPages >= 5 then 2 else if totalPages >= 2 then 1 else 0)
    decreases totalPages
  {
    if totalPages > 0 {
      FailedPagesTwoAndFive(basePrefix, baseSuffix, totalPages - 1, fetch);
    }
  }

  /**
   * One batch's join: every request's outcome is awaited
   * (`Promise.allSettled`), then the fulfilled, non-null ones are kept in
   * request order.
   */
  method SettleBatch(batch: seq<PageRequest>, fetch: Network) returns (kept: seq<FetchedImage>)
    ensures kept == Collect(batch, fetch)
  {
    var results := seq(|batch|, k requires 0 <= k < |batch| => DownloadSingleImage(batch[k], fetch));
    kept := [];
    for k := 0 to |results|
      invariant kept == Collect(batch[..k], fetch)
    {
      if results[k].Some? {
        kept := kept + [results[k].value];
      }
      CollectAppend(batch[..k], [batch[k]], fetch);
      assert batch[..k + 1] == batch[..k] + [batch[k]];
    }
    assert batch[..|results|] == batch;
  }

  /** The inner loop of downloadImages: the requests of the batch starting at page `first`. */
  method BuildBatch(basePrefix: string, baseSuffix: string, first: nat, totalPages: int) returns (batch: seq<PageRequest>)
    ensures batch == BatchAt(basePrefix, baseSuffix, first, totalPages)
  {
    batch := [];
    var j := 0;
    while j < MaxConcurrent && first + j <= totalPages
      invariant 0 <= j <= MaxConcurrent && j <= PagesFrom(first, totalPages)
      invariant batch == RequestRun(basePrefix, baseSuffix, first, j)
    {
      var pageNum := first + j;
      var hexIndex := NumberText.ToHex(pageNum);
      var imageUrl := basePrefix + hexIndex + baseSuffix;
      batch := batch + [PageRequest(pageNum, imageUrl)];
      RequestRunStep(basePrefix, baseSuffix, first, j);
      j := j + 1;
    }
  }

  /** Issuing one more batch appends that batch's successes to the images kept so far. */
  lemma IssueStep(issued: seq<seq<PageRequest>>, batch: seq<PageRequest>, fetch: Network)
    ensures Collect(Flatten(issued + [batch]), fetch) == Collect(Flatten(issued), fetch) + Collect(batch, fetch)
  {
    FlattenAppend(issued, batch);
    CollectAppend(Flatten(issued), batch, fetch);
  }

  /**
   * downloadImages: pages 1..totalPages are requested in batches of at most
   * three, each batch awaited as a whole; the fulfilled, non-null outcomes
   * are kept in batch order, and a pause separates consecutive batches.
   * Besides the images, the method returns the batches it issued (what the
   * progress reports and the server see) and the number of pauses.
   */
  method DownloadImages(basePrefix: string, baseSuffix: string, totalPages: int, fetch: Network)
    returns (images: seq<FetchedImage>, issued: seq<seq<PageRequest>>, pauses: nat)
    ensures issued == Batches(basePrefix, baseSuffix, totalPages)
    ensures images == Collect(Flatten(issued), fetch)
    ensures images == DownloadedImages(basePrefix, baseSuffix, totalPages, fetch)
    ensures pauses == if issued == [] then 0 else |issued| - 1
  {
    images, issued, pauses := [], [], 0;
    var i := 1;
    while i <= totalPages
      invariant i >= 1
      invariant issued + BatchesFrom(basePrefix, baseSuffix, i, totalPages) == Batches(basePrefix, baseSuffix, totalPages)
      invariant images == Collect(Flatten(issued), fetch)
      invariant pauses == if i > totalPages && issued != [] then |issued| - 1 else |issued|
      decreases PagesFrom(i, totalPages)
    {
      var batch := BuildBatch(basePrefix, baseSuffix, i, totalPages);

      // Wait for the batch to settle, then keep the successful downloads
      var kept := SettleBatch(batch, fetch);
      images := images + kept;
      IssueStep(issued, batch, fetch);
      issued := issued + [batch];

      // Pause before the next batch, if there is one
      if i + MaxConcurrent <= totalPages {
        pauses := pauses + 1;
      }
      i := i + MaxConcurrent;
    }
    BatchesCoverPages(basePrefix, baseSuffix, totalPages);
  }

  // ---------------------------------------------------------------------
  // createPDF
  // ---------------------------------------------------------------------

  predicate SortedByPage(images: seq<FetchedImage>)
  {
    forall j, k :: 0 <= j < k < |images| ==> images[j].pageNum <= images[k].pageNum
  }

  /** `images.sort((a, b) => a.pageNum - b.pageNum)`, in place (an insertion sort). */
  method SortByPageNum(a: array<FetchedImage>)
    modifies a
    ensures SortedByPage(a[..])
    ensures multiset(a[..]) == multiset(old(a[..]))
  {
    var i := 0;
    while i < a.Length
      invariant 0 <= i <= a.Length
      invariant SortedByPage(a[..i])
      invariant multiset(a[..]) == multiset(old(a[..]))
    {
      InsertLast(a, i);
      i := i + 1;
    }
    assert a[..a.Length] == a[..];
  }

  /** Moves `a[i]` left into the sorted prefix `a[..i]`, leaving `a[..i + 1]` sorted. */
  method InsertLast(a: array<FetchedImage>, i: nat)
    requires i < a.Length && SortedByPage(a[..i])
    modifies a
    ensures SortedByPage(a[..i + 1])
    ensures multiset(a[..]) == multiset(old(a[..]))
  {
    var j := i;
    while 0 < j && a[j - 1].pageNum > a[j].pageNum
      invariant 0 <= j <= i
      invariant forall x, y :: 0 <= x < y <= i && x != j && y != j ==> a[x].pageNum <= a[y].pageNum
      invariant forall y :: j < y <= i ==> a[j].pageNum < a[y].pageNum
      invariant multiset(a[..]) == multiset(old(a[..]))
    {
      SwapAdjacent(a, j);
      j := j - 1;
    }
  }

  /** Exchanges `a[j - 1]` and `a[j]`. */
  method SwapAdjacent(a: array<FetchedImage>, j: nat)
    requires 0 < j < a.Length
    modifies a
    ensures a[j - 1] == old(a[j]) && a[j] == old(a[j - 1])
    ensures forall k :: 0 <= k < a.Length && k != j - 1 && k != j ==> a[k] == old(a[k])
    ensures multiset(a[..]) == multiset(old(a[..]))
  {
    ghost var before := a[..];
    a[j - 1], a[j] := a[j], a[j - 1];
    assert a[..] == before[j - 1 := before[j]][j := before[j - 1]];
  }

  /**
   * Sorting cannot reorder a list whose page numbers already strictly
   * increase: the only sorted permutation of it is itself.
   */
  lemma {:induction false} SortedPermutationOfIncreasing(a: seq<FetchedImage>, b: seq<FetchedImage>)
    requires StrictlyIncreasing(a) && SortedByPage(b)
    requires multiset(a) == multiset(b)
    ensures a == b
    decreases |a|
  {
    assert |a| == |multiset(a)| == |multiset(b)| == |b|;
    if a != [] {
      SameFirst(a, b);
      TailMultiset(a);
      TailMultiset(b);
      SortedTails(a, b);
      SortedPermutationOfIncreasing(a[1..], b[1..]);
      assert a == [a[0]] + a[1..] && b == [b[0]] + b[1..];
    }
  }

  /** Both lists start with the image of the smallest page number. */
  lemma SameFirst(a: seq<FetchedImage>, b: seq<FetchedImage>)
    requires StrictlyIncreasing(a) && SortedByPage(b)
    requires multiset(a) == multiset(b) && a != [] && b != []
    ensures a[0] == b[0]
  {
    assert a[0] in multiset(b);
    var k :| 0 <= k < |b| && b[k] == a[0];
    assert b[0] in multiset(a);
    var m :| 0 <= m < |a| && a[m] == b[0];
    assert b[0].pageNum <= a[0].pageNum <= a[m].pageNum;
  }

  lemma TailMultiset(s: seq<FetchedImage>)
    requires s != []
    ensures multiset(s[1..]) == multiset(s) - multiset{s[0]}
  {
    assert s == [s[0]] + s[1..];
  }

  lemma SortedTails(a: seq<FetchedImage>, b: seq<FetchedImage>)
    requires StrictlyIncreasing(a) && SortedByPage(b) && a != [] && b != []
    ensures StrictlyIncreasing(a[1..]) && SortedByPage(b[1..])
  {
    forall j, k | 0 <= j < k < |a| - 1 ensures a[1..][j].pageNum < a[1..][k].pageNum {
      assert a[1..][j] == a[j + 1] && a[1..][k] == a[k + 1];
    }
    forall j, k | 0 <= j < k < |b| - 1 ensures b[1..][j].pageNum <= b[1..][k].pageNum {
      assert b[1..][j] == b[j + 1] && b[1..][k] == b[k + 1];
    }
  }

  /** The pages the printable document is built from: one per image, in list order. */
  function PdfPagesOf(images: seq<FetchedImage>): seq<PdfPage>
  {
    seq(|images|, k requires 0 <= k < |images| => PageOf(images[k].canvas))
  }

  /** The images the individual-image downloader stores: one per image, in list order. */
  function StoredImagesOf(images: seq<FetchedImage>): seq<StoredImage>
  {
    seq(|images|, k requires 0 <= k < |images| => StoredImage(images[k].canvas, images[k].pageNum, images[k].canvas.pngDataUrl))
  }

  /** What createPDF hands to the output surface. */
  datatype Artifact = PrintDocument(html: string) | ImageFiles(downloads: seq<Download>)

  /** createPDF's return value. */
  datatype CreateResult = CreateResult(success: bool, methodName: string)

  const HtmlPdfMethod := "HTML PDF"
  const IndividualImagesMethod := "Individual Images"

  /** The strategy: the printable document when the generator is available, else one file per page. */
  function StrategyName(hasGenerator: bool): (name: string)
    ensures name == HtmlPdfMethod <==> hasGenerator
    ensures name == IndividualImagesMethod <==> !hasGenerator
  {
    if hasGenerator then HtmlPdfMethod else IndividualImagesMethod
  }

  /** The file-name base of the individual images: the name with its first ".pdf" removed. */
  function ImageBaseName(filename: string): (base: string)
    ensures !Contains(filename, ".pdf") ==> base == filename
    ensures Contains(filename, ".pdf") ==> |base| + 4 == |filename|
  {
    ReplaceFirst(filename, ".pdf", "")
  }

  /** The output built from images already in page order. */
  function ArtifactOf(images: seq<FetchedImage>, filename: string, hasGenerator: bool): Artifact
  {
    if hasGenerator then PrintDocument(DocumentHtml(PdfPagesOf(images)))
    else ImageFiles(DownloadList(ImageBaseName(filename), StoredImagesOf(images)))
  }

  /**
   * createPDF: sorts the images by page number in place, then builds the
   * printable document when the generator is available, or else one image
   * download per page; it always reports success.
   */
  method CreatePdf(images: array<FetchedImage>, filename: string, hasGenerator: bool)
    returns (result: CreateResult, artifact: Artifact)
    modifies images
    ensures SortedByPage(images[..]) && multiset(images[..]) == multiset(old(images[..]))
    ensures result == CreateResult(true, StrategyName(hasGenerator))
    ensures artifact == ArtifactOf(images[..], filename, hasGenerator)
  {
    SortByPageNum(images);
    ghost var sorted := images[..];
    if hasGenerator {
      var generator := new SimplePdfGenerator();
      for k := 0 to images.Length
        modifies generator
        invariant generator.pages == PdfPagesOf(images[..k])
      {
        generator.AddPage(images[k].canvas);
      }
      assert images[..images.Length] == images[..];
      var html := generator.GeneratePdf(filename);
      assert images[..] == sorted;
      return CreateResult(true, HtmlPdfMethod), PrintDocument(html);
    }
    var downloader := new ImageDownloader();
    for k := 0 to images.Length
      modifies downloader
      invariant downloader.images == StoredImagesOf(images[..k])
    {
      downloader.AddImage(images[k].canvas, images[k].pageNum);
    }
    assert images[..images.Length] == images[..];
    var downloads := downloader.DownloadAsImages(ImageBaseName(filename));
    assert images[..] == sorted;
    return CreateResult(true, IndividualImagesMethod), ImageFiles(downloads);
  }

  /** A derived name `seg.pdf` becomes the image base name `seg` when `seg` holds no ".pdf". */
  lemma ImageBaseNameOfDerivedName(href: string, segment: string)
    requires ContentScript.GetUniqueFilename(href) == segment + ".pdf"
    requires !Contains(segment, ".pdf")
    ensures ImageBaseName(ContentScript.GetUniqueFilename(href)) == segment
  {
    StripPdfExtension(segment);
  }

  // ---------------------------------------------------------------------
  // updateStatus
  // ---------------------------------------------------------------------

  datatype StatusKind = Info | Succeeded | Failed
  {
    /** The `type` argument of updateStatus. */
    function Name(): string
    {
      match this
      case Info => "info"
      case Succeeded => "success"
      case Failed => "error"
    }
  }

  /** The status line: its text and its kind. */
  datatype Status = Status(text: string, kind: StatusKind)
  {
    /** The CSS class name the status element gets. */
    function ClassName(): (className: string)
      ensures |className| >= 7 && className[..7] == "status " && className[7..] == kind.Name()
    {
      "status " + kind.Name()
    }
  }

  const ConnectionError := "Could not establish connection"
  const ReloadHint := "\nReload the page and try again."

  /**
   * updateStatus: the message as given, except that an error about a
   * missing connection to the page gets a hint to reload the page.
   */
  function UpdateStatus(message: string, kind: StatusKind): (status: Status)
    ensures status.kind == kind
    ensures |message| <= |status.text| && status.text[..|message|] == message
    ensures status.text != message <==> kind == Failed && Contains(message, ConnectionError)
    ensures status.text != message ==> status.text == message + ReloadHint
  {
    if kind == Failed && Contains(message, ConnectionError) then Status(message + ReloadHint, kind)
    else Status(message, kind)
  }

  /** The error the browser raises when the page has no content script to answer gets the hint. */
  lemma NoReceiverGetsReloadHint()
    ensures UpdateStatus("Could not establish connection. Receiving end does not exist.", Failed).text
         == "Could not establish connection. Receiving end does not exist." + ReloadHint
  {
    var message := "Could not establish connection. Receiving end does not exist.";
    assert OccursAt(message, ConnectionError, 0);
  }

  // ---------------------------------------------------------------------
  // The download button's handler
  // ---------------------------------------------------------------------

  /** How the popup's "downloadPDF" message to the page ends. */
  datatype Delivery =
    | Delivered(page: ContentScript.PageSnapshot)  // the content script answered about this page
    | SendFailed(error: string)                     // sending threw this error message

  /** What a successful run reports. */
  datatype RunSummary = RunSummary(pageCount: nat, methodName: string, artifact: Artifact)

  const StudocuHost := "studocu.com"
  const WrongSiteError := "Please navigate to a StudoCu document page"
  const NoImagesError := "No images were downloaded successfully"

  /**
   * The outcome of one run of the handler's `try` block: the tab must be a
   * StudoCu page, the content script must answer with data, at least one
   * page must download, and the images are then reassembled in page order.
   * An error ends the run with its message.
   */
  function Pipeline(tabUrl: string, delivery: Delivery, fetch: Network, hasGenerator: bool): (outcome: Result<RunSummary, string>)
    ensures outcome.Success? ==>
      && Contains(tabUrl, StudocuHost) && delivery.Delivered?
      && ContentScript.ExtractImageData(delivery.page).Success?
    ensures outcome.Success? ==> outcome.value.pageCount >= 1 && outcome.value.methodName == StrategyName(hasGenerator)
  {
    if !Contains(tabUrl, StudocuHost) then Failure(WrongSiteError)
    else
      match delivery
      case SendFailed(error) => Failure(error)
      case Delivered(page) =>
        var response := ContentScript.Reply(page);
        if !response.SuccessResponse? then Failure(response.error)
        else
          var data := response.data;
          var images := DownloadedImages(data.basePrefix, data.baseSuffix, data.totalPages, fetch);
          if |images| == 0 then Failure(NoImagesError)
          else Success(RunSummary(|images|, StrategyName(hasGenerator), ArtifactOf(images, data.filename, hasGenerator)))
  }

  /** The `try` block of the download button's handler. */
  method RunDownload(tabUrl: string, delivery: Delivery, fetch: Network, hasGenerator: bool)
    returns (outcome: Result<RunSummary, string>)
    ensures outcome == Pipeline(tabUrl, delivery, fetch, hasGenerator)
  {
    if !Contains(tabUrl, StudocuHost) {
      return Failure(WrongSiteError);
    }
    if delivery.SendFailed? {
      return Failure(delivery.error);
    }
    var response := ContentScript.Reply(delivery.page);
    if !response.SuccessResponse? {
      return Failure(response.error);
    }
    var data := response.data;
    var images, _, _ := DownloadImages(data.basePrefix, data.baseSuffix, data.totalPages, fetch);
    if |images| == 0 {
      return Failure(NoImagesError);
    }
    var buffer := new FetchedImage[|images|](k requires 0 <= k < |images| => images[k]);
    assert buffer[..] == images;
    var result, artifact := CreatePdf(buffer, data.filename, hasGenerator);
    DownloadedImagesSound(data.basePrefix, data.baseSuffix, data.totalPages, fetch);
    DownloadedImagesComplete(data.basePrefix, data.baseSuffix, data.totalPages, fetch);
    SortedPermutationOfIncreasing(images, buffer[..]);
    return Success(RunSummary(|images|, result.methodName, artifact));
  }

  /**
   * A run ends in success exactly when the tab is a StudoCu page, the page
   * is parsed, and at least one page's image downloads; with every page
   * failing it ends in the "no images" error rather than an empty success.
   */
  lemma PipelineOutcome(tabUrl: string, page: ContentScript.PageSnapshot, fetch: Network, hasGenerator: bool)
    requires Contains(tabUrl, StudocuHost)
    requires ContentScript.ExtractImageData(page).Success?
    ensures var data := ContentScript.ExtractImageData(page).value;
      var outcome := Pipeline(tabUrl, Delivered(page), fetch, hasGenerator);
      && (outcome.Success? <==>
            exists n :: 1 <= n <= data.totalPages && fetch(PageUrl(data.basePrefix, data.baseSuffix, n)).Some?)
      && (outcome.Failure? ==> outcome.error == NoImagesError)
      && (outcome.Success? ==>
            && 1 <= outcome.value.pageCount <= data.totalPages
            && outcome.value.pageCount + FailedCount(data.basePrefix, data.baseSuffix, data.totalPages, fetch) == data.totalPages
            && outcome.value.methodName == StrategyName(hasGenerator))
  {
    var data := ContentScript.ExtractImageData(page).value;
    var images := DownloadedImages(data.basePrefix, data.baseSuffix, data.totalPages, fetch);
    DownloadedImagesSound(data.basePrefix, data.baseSuffix, data.totalPages, fetch);
    DownloadedImagesComplete(data.basePrefix, data.baseSuffix, data.totalPages, fetch);
    DownloadedCount(data.basePrefix, data.baseSuffix, data.totalPages, fetch);
    if |images| > 0 {
      assert fetch(PageUrl(data.basePrefix, data.baseSuffix, images[0].pageNum)).Some?;
    }
  }

  /** An error before any download ends the run with that error's message. */
  lemma PipelineEarlyErrors(tabUrl: string, delivery: Delivery, fetch: Network, hasGenerator: bool)
    ensures !Contains(tabUrl, StudocuHost) ==> Pipeline(tabUrl, delivery, fetch, hasGenerator) == Failure(WrongSiteError)
    ensures Contains(tabUrl, StudocuHost) && delivery.SendFailed? ==>
      Pipeline(tabUrl, delivery, fetch, hasGenerator) == Failure(delivery.error)
    ensures Contains(tabUrl, StudocuHost) && delivery.Delivered? && ContentScript.ExtractImageData(delivery.page).Failure? ==>
      Pipeline(tabUrl, delivery, fetch, hasGenerator) == Failure(ContentScript.ExtractImageData(delivery.page).error)
  {
  }

  /**
   * The first page's derived URL is the image URL the page was parsed from,
   * when that URL's page index reads "1" (the same in decimal and hexadecimal).
   */
  lemma FirstPageUrlIsSourceUrl(page: ContentScript.PageSnapshot)
    requires ContentScript.ExtractImageData(page).Success?
    requires ContentScript.SingleLine(page.firstImageSrc.value)
    requires ContentScript.ParseBaseUrl(page.firstImageSrc.value).value.digits == "1"
    ensures var data := ContentScript.ExtractImageData(page).value;
      PageUrl(data.basePrefix, data.baseSuffix, 1) == page.firstImageSrc.value
  {
    ContentScript.ParseBaseUrlRoundTrip(page.firstImageSrc.value);
    NumberText.HexExamples();
  }

  /** The status line a run leaves behind. */
  function FinalStatus(outcome: Result<RunSummary, string>): (status: Status)
    ensures status.kind == if outcome.Success? then Succeeded else Failed
    ensures outcome.Failure? ==> |outcome.error| <= |status.text| && status.text[..|outcome.error|] == outcome.error
    ensures outcome.Failure? ==>
      && (status.text == outcome.error || status.text == outcome.error + ReloadHint)
      && (status.text == outcome.error + ReloadHint <==> Contains(outcome.error, ConnectionError))
    ensures outcome.Success? ==> status.text == "Successfully processed " + NumberText.ToDecimal(outcome.value.pageCount) + " pages!"
  {
    match outcome
    case Success(summary) =>
      UpdateStatus("Successfully processed " + NumberText.ToDecimal(summary.pageCount) + " pages!", Succeeded)
    case Failure(message) => UpdateStatus(message, Failed)
  }

  /** The details line a run leaves behind. */
  function FinalDetails(outcome: Result<RunSummary, string>): (details: string)
    ensures StartsWith(details, "Method: ") <==> outcome.Success?
    ensures outcome.Success? ==> details[|"Method: "|..] == outcome.value.methodName
    ensures outcome.Failure? ==> details == "Check console for details"
  {
    match outcome
    case Success(summary) => "Method: " + summary.methodName
    case Failure(_) =>
      var details := "Check console for details";
      assert details[..8][0] != 'M';
      details
  }

  const IdleLabel := "Download as PDF"
  const BusyLabel := "Downloading..."

  /**
   * The popup's state: the `isDownloading` flag that keeps at most one
   * download running, the button and status elements, and the number of
   * requests sent to the usage counter.
   */
  class PopupState {
    var isDownloading: bool
    var buttonDisabled: bool
    var buttonLabel: string
    var status: Status
    var details: string
    var counterRequests: nat

    constructor ()
      ensures !isDownloading && !buttonDisabled && buttonLabel == IdleLabel && counterRequests == 0
    {
      isDownloading := false;
      buttonDisabled := false;
      buttonLabel := IdleLabel;
      status := Status("", Info);
      details := "";
      counterRequests := 0;
    }

    /**
     * The guard: when a download is in progress nothing happens; otherwise
     * the flag is set and the button disabled.
     */
    method BeginDownload() returns (started: bool)
      modifies this
      ensures started == !old(isDownloading)
      ensures isDownloading
      ensures !started ==> unchanged(this)
      ensures started ==> buttonDisabled && buttonLabel == BusyLabel
      ensures status == old(status) && details == old(details) && counterRequests == old(counterRequests)
    {
      if isDownloading {
        return false;
      }
      isDownloading := true;
      buttonDisabled := true;
      buttonLabel := BusyLabel;
      return true;
    }

    /** The `catch` and `finally` blocks: report the outcome and clear the flag. */
    method FinishDownload(outcome: Result<RunSummary, string>)
      modifies this
      ensures !isDownloading && !buttonDisabled && buttonLabel == IdleLabel
      ensures status == FinalStatus(outcome) && details == FinalDetails(outcome)
      ensures status.ClassName() == if outcome.Success? then "status success" else "status error"
      ensures counterRequests == old(counterRequests)
    {
      status := FinalStatus(outcome);
      details := FinalDetails(outcome);
      isDownloading := false;
      buttonDisabled := false;
      buttonLabel := IdleLabel;
    }

    /**
     * A click on the download button. The usage counter is asked to count
     * every click, even one the guard then ignores; a click while a download
     * is in progress starts nothing; any other click runs the download and
     * always ends with the flag cleared, whatever the outcome.
     */
    method Click(tabUrl: string, delivery: Delivery, fetch: Network, hasGenerator: bool)
      returns (outcome: Option<Result<RunSummary, string>>)
      modifies this
      ensures counterRequests == old(counterRequests) + 1
      ensures old(isDownloading) ==>
        && outcome == None
        && isDownloading && buttonDisabled == old(buttonDisabled) && buttonLabel == old(buttonLabel)
        && status == old(status) && details == old(details)
      ensures !old(isDownloading) ==>
        && outcome == Some(Pipeline(tabUrl, delivery, fetch, hasGenerator))
        && !isDownloading && !buttonDisabled && buttonLabel == IdleLabel
        && status == FinalStatus(outcome.value) && details == FinalDetails(outcome.value)
    {
      counterRequests := counterRequests + 1;
      var started := BeginDownload();
      if !started {
        return None;
      }
      var result := RunDownload(tabUrl, delivery, fetch, hasGenerator);
      FinishDownload(result);
      return Some(result);
    }
  }
}
