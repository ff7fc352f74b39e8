/**
 * The two output builders of pdf-generator.js: `SimplePdfGenerator`
 * collects pages and lays them out as one printable HTML document, and
 * `ImageDownloader` collects page images and names one file per page.
 */
module PdfGenerator {
  import NumberText
  import Strings

  /**
   * A drawn page canvas. Pixels are not modelled: a canvas is its size and
   * the two data URLs `toDataURL` gives for it (JPEG at quality 0.8, PNG).
   */
  datatype Canvas = Canvas(width: nat, height: nat, jpegDataUrl: string, pngDataUrl: string)

  // ---------------------------------------------------------------------
  // SimplePDFGenerator
  // ---------------------------------------------------------------------

  /** One stored page of the printable document. */
  datatype PdfPage = PdfPage(imageData: string, width: nat, height: nat)

  /** The page entry `addPage` stores for a canvas. */
  function PageOf(canvas: Canvas): PdfPage
  {
    PdfPage(canvas.jpegDataUrl, canvas.width, canvas.height)
  }

  const Always := "always"
  const Auto := "auto"

  /** The `page-break-after` value of the page at `index` among `count` pages. */
  function BreakAfter(index: nat, count: nat): string
  {
    if index + 1 < count then Always else Auto
  }

  /** The markup of one page: a page div holding the page image. */
  function PageDiv(page: PdfPage, breakAfter: string): string
  {
    "<div class=\"page\" style=\"page-break-after: " + breakAfter + ";\"><img src=\"" + page.imageData + "\" /></div>"
  }

  /** `pages.map((page, index) => ...)`: one div per page, in stored order. */
  function PageDivs(pages: seq<PdfPage>): seq<string>
  {
    seq(|pages|, i requires 0 <= i < |pages| => PageDiv(pages[i], BreakAfter(i, |pages|)))
  }

  /** `parts.join('')`. */
  function Concat(parts: seq<string>): string
  {
    if parts == [] then "" else Concat(parts[..|parts| - 1]) + parts[|parts| - 1]
  }

  const DocumentHead := "<!DOCTYPE html><html><head><title>StudoCu Document</title></head><body>"
  const DocumentTail := "</body></html>"

  /** The printable document for the stored pages. */
  function DocumentHtml(pages: seq<PdfPage>): string
  {
    DocumentHead + Concat(PageDivs(pages)) + DocumentTail
  }

  lemma {:induction false} ConcatAppend(a: seq<string>, b: seq<string>)
    ensures Concat(a + b) == Concat(a) + Concat(b)
    decreases |b|
  {
    if b == [] {
      assert a + b == a;
    } else {
      assert (a + b)[..|a + b| - 1] == a + b[..|b| - 1];
      ConcatAppend(a, b[..|b| - 1]);
    }
  }

  /** The two break values give different markup for the same page. */
  lemma PageDivBreaksDiffer(page: PdfPage)
    ensures PageDiv(page, Always) != PageDiv(page, Auto)
  {
    var prefix := "<div class=\"page\" style=\"page-break-after: ";
    var n := |prefix|;
    assert PageDiv(page, Always)[n + 1] == 'l';
    assert PageDiv(page, Auto)[n + 1] == 'u';
  }

  /**
   * One div per page in stored order; every page but the last breaks the
   * printed page after it ("always"), the last does not ("auto").
   */
  lemma PageBreakRule(pages: seq<PdfPage>, i: nat)
    requires i < |pages|
    ensures |PageDivs(pages)| == |pages|
    ensures PageDivs(pages)[i] == PageDiv(pages[i], Always) <==> i < |pages| - 1
    ensures PageDivs(pages)[i] == PageDiv(pages[i], Always) || PageDivs(pages)[i] == PageDiv(pages[i], Auto)
  {
    PageDivBreaksDiffer(pages[i]);
  }

  /** No pages give an empty body. */
  lemma EmptyDocument()
    ensures DocumentHtml([]) == DocumentHead + DocumentTail
  {
    assert PageDivs([]) == [];
  }

  /**
   * Adding a page appends its div with "auto" and turns the previous last
   * page's break into "always"; every other div is unchanged.
   */
  lemma AddPageMarkup(pages: seq<PdfPage>, page: PdfPage)
    ensures pages == [] ==> PageDivs(pages + [page]) == [PageDiv(page, Auto)]
    ensures pages != [] ==>
      PageDivs(pages + [page]) == PageDivs(pages)[..|pages| - 1] + [PageDiv(pages[|pages| - 1], Always), PageDiv(page, Auto)]
    ensures DocumentHtml(pages + [page]) ==
      DocumentHead + Concat(PageDivs(pages + [page])[..|pages|]) + PageDiv(page, Auto) + DocumentTail
  {
    var divs := PageDivs(pages + [page]);
    assert divs == divs[..|pages|] + [PageDiv(page, Auto)];
    ConcatAppend(divs[..|pages|], [PageDiv(page, Auto)]);
    assert Concat([PageDiv(page, Auto)]) == PageDiv(page, Auto) by {
      assert [PageDiv(page, Auto)][..0] == [];
    }
  }

  /** The generator object: the pages added so far. */
  class SimplePdfGenerator {
    var pages: seq<PdfPage>

    constructor ()
      ensures pages == []
    {
      pages := [];
    }

    /** Appends one page with the canvas's image and size; earlier pages are kept. */
    method AddPage(canvas: Canvas)
      modifies this
      ensures pages == old(pages) + [PageOf(canvas)]
      ensures |pages| == |old(pages)| + 1 && pages[..|old(pages)|] == old(pages)
      ensures pages[|pages| - 1].width == canvas.width && pages[|pages| - 1].height == canvas.height
    {
      pages := pages + [PageOf(canvas)];
    }

    /** createPDFHTML: the printable document of the stored pages. */
    function CreatePdfHtml(): (html: string)
      reads this
      ensures Strings.StartsWith(html, DocumentHead) && Strings.EndsWith(html, DocumentTail)
      ensures pages == [] ==> html == DocumentHead + DocumentTail
    {
      DocumentHtml(pages)
    }

    /**
     * generatePDF: the document handed to the print window. The file name
     * it is given is not used.
     */
    method GeneratePdf(filename: string) returns (document: string)
      ensures document == DocumentHtml(pages)
    {
      document := CreatePdfHtml();
    }
  }

  // ---------------------------------------------------------------------
  // ImageDownloader
  // ---------------------------------------------------------------------

  /** One stored page image, with the PNG data URL taken when it was added. */
  datatype StoredImage = StoredImage(canvas: Canvas, pageNumber: nat, dataUrl: string)

  /** One file download: the name it is saved under and the data it holds. */
  datatype Download = Download(name: string, href: string)

  /** The name of a page's image file: `<filename>_page_<hex page number>.png`. */
  function ImageFileName(filename: string, pageNumber: nat): (name: string)
    ensures Strings.StartsWith(name, filename + "_page_") && Strings.EndsWith(name, ".png")
    ensures |name| == |filename| + 6 + |NumberText.ToHex(pageNumber)| + 4
    ensures name[|filename| + 6..|name| - 4] == NumberText.ToHex(pageNumber)
  {
    filename + "_page_" + NumberText.ToHex(pageNumber) + ".png"
  }

  /** The downloads of a list of stored images, in list order. */
  function DownloadList(filename: string, images: seq<StoredImage>): seq<Download>
  {
    if images == [] then []
    else
      var last := images[|images| - 1];
      DownloadList(filename, images[..|images| - 1]) + [Download(ImageFileName(filename, last.pageNumber), last.dataUrl)]
  }

  /** One download per stored image, in insertion order, named after its page number. */
  lemma {:induction false} DownloadListShape(filename: string, images: seq<StoredImage>)
    ensures |DownloadList(filename, images)| == |images|
    ensures forall k :: 0 <= k < |images| ==>
      DownloadList(filename, images)[k] == Download(ImageFileName(filename, images[k].pageNumber), images[k].dataUrl)
    decreases |images|
  {
    if images != [] {
      DownloadListShape(filename, images[..|images| - 1]);
    }
  }

  /** Page 16 of "doc" is saved as "doc_page_10.png". */
  lemma ImageFileNameExample()
    ensures ImageFileName("doc", 16) == "doc_page_10.png"
  {
    NumberText.HexExamples();
  }

  /** Distinct page numbers give distinct file names, so no download overwrites another. */
  lemma ImageFileNamesDistinct(filename: string, m: nat, n: nat)
    ensures ImageFileName(filename, m) == ImageFileName(filename, n) <==> m == n
  {
    var a, b := NumberText.ToHex(m), NumberText.ToHex(n);
    var p := filename + "_page_";
    if ImageFileName(filename, m) == ImageFileName(filename, n) {
      assert |a| == |b|;
      assert a == ImageFileName(filename, m)[|p|..|p| + |a|];
      assert b == ImageFileName(filename, n)[|p|..|p| + |b|];
      NumberText.ToRadixInjective(m, n, 16);
    }
  }

  /** The downloader object: the page images added so far. */
  class ImageDownloader {
    var images: seq<StoredImage>

    constructor ()
      ensures images == []
    {
      images := [];
    }

    /** Appends one image with the given page number; earlier images are kept. */
    method AddImage(canvas: Canvas, pageNumber: nat)
      modifies this
      ensures images == old(images) + [StoredImage(canvas, pageNumber, canvas.pngDataUrl)]
    {
      images := images + [StoredImage(canvas, pageNumber, canvas.pngDataUrl)];
    }

    /** downloadAsImages: one download per stored image, in insertion order. */
    method DownloadAsImages(filename: string) returns (downloads: seq<Download>)
      ensures downloads == DownloadList(filename, images)
      ensures |downloads| == |images|
      ensures forall k :: 0 <= k < |images| ==>
        downloads[k].name == ImageFileName(filename, images[k].pageNumber) && downloads[k].href == images[k].dataUrl
    {
      downloads := [];
      for i := 0 to |images|
        invariant downloads == DownloadList(filename, images[..i])
      {
        var img := images[i];
        downloads := downloads + [Download(ImageFileName(filename, img.pageNumber), img.dataUrl)];
        assert images[..i + 1][..i] == images[..i];
      }
      assert images[..|images|] == images;
      DownloadListShape(filename, images);
    }
  }
}
