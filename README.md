# StudoCu PDF Downloader — a Dafny model

The StudoCu PDF Downloader is a browser extension with three parts:

- **A content script** (`content.js`). It runs in a StudoCu document page. On the popup's `downloadPDF` message it reports:
  - the number of `div[data-page-index]` page elements;
  - the prefix and suffix of the first page image's URL, split around its `/bg<digits>` page index;
  - a file name derived from the page URL.
- **A popup** (`popup.js`). Its button handler checks that the active tab is a StudoCu page and asks the content script for that data. It then downloads every page's image from `prefix + hex(page) + suffix`, three requests at a time, keeping only the pages that arrived. It sorts them by page number and hands them to one of two output generators.
- **The two generators** (`pdf-generator.js`):
  - `SimplePDFGenerator` builds a printable HTML document with one page per image.
  - `ImageDownloader` produces one PNG download per page, named `<name>_page_<hex page>.png`.

The model has six modules:

| module | models |
|---|---|
| `Wrappers` | `Option` and `Result` |
| `NumberText` | `Number.prototype.toString(radix)` for non-negative integers |
| `Strings` | `includes`, `indexOf`, `startsWith`/`endsWith`, and `String.prototype.replace` with a string pattern, which replaces only the first occurrence, for a replacement without `$` patterns (the source passes `''`) |
| `ContentScript` | `content.js` |
| `PdfGenerator` | `pdf-generator.js` |
| `Popup` | `popup.js` |

How each part is written:

- **Regular expressions** are written as what they match. A match predicate is defined over positions, and the function that finds the leftmost match is proved to return it. Lazy and greedy quantifiers are taken into account, and `.` does not match the JavaScript line terminators (LF, CR, U+2028, U+2029).
- **Objects the source mutates** are classes with `modifies` clauses:
  - the two generators;
  - the popup's `isDownloading` flag and its button, status and details elements.
- **The in-place sort** of `createPDF` is an insertion sort on an `array`.
- **Loops** are methods with loop invariants: the batched download loop, the batch join and the per-image download loop.
- **The network** is a parameter `fetch: string -> Option<Canvas>`. It gives the canvas an image URL decodes to, or `None` when the request fails, the status is not OK or the image does not decode.

## Model

| member | source | states |
|---|---|---|
| NumberText.ToRadix | popup.js:60 | `toString(radix)` gives at least one digit, all valid in the radix. It gives "0" exactly for zero, and no leading zero otherwise. |
| NumberText.ValueOfToRadix | popup.js:60 | Reading the digits of `n.toString(radix)` back gives `n`. |
| NumberText.ToRadixInjective | popup.js:60 | Two numbers have the same radix text exactly when they are equal. |
| NumberText.HexExamples | popup.js:60 | `toString(16)` of 1, 10, 255 and 16 is "1", "a", "ff" and "10". |
| NumberText.ToHex | popup.js:60 | The hexadecimal text is never empty and uses only the digits 0-9 and a-f. |
| NumberText.ToDecimal | popup.js:207 | The decimal text interpolated into the success message is never empty and uses only the digits 0-9. |
| NumberText.DigitRoundTrip | popup.js:60 | Each digit character reads back as the digit it encodes. |
| Strings.IndexOfFrom | popup.js:146 | Returns the first occurrence at or after `from`, with none between `from` and it. `None` means there is no occurrence at or after `from`. |
| Strings.Contains | popup.js:35 | `includes` holds exactly when the pattern occurs somewhere. |
| Strings.ReplaceFirst | popup.js:146 | Without an occurrence the string is returned unchanged. Otherwise only the first occurrence is replaced, by the replacement taken literally. This is JavaScript's `replace` for a replacement without `$` patterns; the source passes `''`. |
| Strings.StripPdfExtension | popup.js:146 | Removing ".pdf" from `base + ".pdf"` gives `base` back, when `base` contains no ".pdf" of its own. |
| ContentScript.RunEnd | content.js:6 | Returns the end of the longest run from `from` whose characters all satisfy `p`: the run is maximal. |
| ContentScript.RunStart | content.js:37 | Returns the start of the longest run ending at `upto` whose characters all satisfy `p`. |
| ContentScript.RunCoversAll | content.js:37 | When every character of the string satisfies `p`, runs reach both ends of the string: `RunStart` gives 0 and `RunEnd` gives the length. The single-line round-trip of the base-URL parse rests on this. |
| ContentScript.FilenamePatternDeterminedByStart | content.js:6 | A match of `/\/([^\/]+?)\/\d+\?/` is fixed by its start position: the lazy group ends at the first slash. |
| ContentScript.FilenameMatchAt | content.js:6 | Finds the match starting at a position exactly when one exists. |
| ContentScript.FindFilenameMatch | content.js:6 | Returns the leftmost match at or after `from`. `None` means there is no match. |
| ContentScript.GetUniqueFilename | content.js:4-9 | The leftmost match gives its captured segment plus the extension. With no match the name is "output_document" plus the extension. |
| ContentScript.BaseSiteIsDigitRun | content.js:37 | A `/bg<digits>.png?` site is determined by where "/bg" starts: the digits are a maximal run. |
| ContentScript.BaseSiteEnd | content.js:37 | Returns the end of the site at a position exactly when one exists. |
| ContentScript.FindBaseSite | content.js:37 | Returns the leftmost site at or after `from`, or `None` when there is none. |
| ContentScript.SiteParts | content.js:37-42 | The captured prefix ends with "/bg". The suffix starts with ".png?". The page index is a non-empty run of decimal digits. |
| ContentScript.ParseBaseUrl | content.js:37-42 | There is no match exactly when the URL has no `/bg<digits>.png?` site. Otherwise the groups are those of the leftmost site, bounded by the line it sits on. |
| ContentScript.SitePartsOfSingleLine | content.js:37-42 | On a URL without line terminators, prefix + digits + suffix is the whole URL. |
| ContentScript.ParseBaseUrlRoundTrip | content.js:37-42 | On a URL without line terminators, the parsed prefix, digits and suffix concatenate back to the URL. |
| ContentScript.ExtractImageData | content.js:11-61 | No page elements gives the "no pages" error. A missing or empty first `src` gives the "no image src" error. A `src` without the pattern gives the "could not parse" error. Success comes exactly when none of these applies. All four cases are if-and-only-if. Success gives the page count (at least 1), the parsed prefix and suffix, and the file name from the page URL. |
| ContentScript.Reply | content.js:67-73 | Replies with success exactly when extraction succeeds, carrying its data, and otherwise with its error message. |
| ContentScript.HandleMessage | content.js:64-77 | Replies exactly to the `downloadPDF` action, and with the extraction reply. |
| PdfGenerator.SimplePdfGenerator.constructor | pdf-generator.js:3-5 | A new generator holds no pages. |
| PdfGenerator.SimplePdfGenerator.AddPage | pdf-generator.js:7-14 | Appends one page with the canvas's JPEG data and size, and keeps the earlier pages. |
| PdfGenerator.SimplePdfGenerator.GeneratePdf | pdf-generator.js:16-34 | The document handed to the print window is the HTML of the stored pages. The file name does not enter it. |
| PdfGenerator.SimplePdfGenerator.CreatePdfHtml | pdf-generator.js:36-83 | The document starts with the head and ends with the tail. With no pages it is just those two. The page markup in between is described by `PdfGenerator.PageBreakRule` and `PdfGenerator.AddPageMarkup`. |
| PdfGenerator.ConcatAppend | pdf-generator.js:54 | Joining two lists of page markup is joining each and concatenating. |
| PdfGenerator.PageDivBreaksDiffer | pdf-generator.js:39 | The "always" and "auto" page breaks give different markup. |
| PdfGenerator.PageBreakRule | pdf-generator.js:36-54 | There is one div per page. Page `i` breaks with "always" exactly when it is not the last page; the last page breaks with "auto". |
| PdfGenerator.EmptyDocument | pdf-generator.js:56-82 | With no pages the document is the head followed by the tail. |
| PdfGenerator.AddPageMarkup | pdf-generator.js:36-54 | Adding a page appends its "auto" div and turns the previous last div's break into "always". The rest is unchanged. |
| PdfGenerator.ImageDownloader.constructor | pdf-generator.js:88-90 | A new downloader holds no images. |
| PdfGenerator.ImageDownloader.AddImage | pdf-generator.js:92-98 | Appends the canvas, the page number and the canvas's PNG data URL, and keeps the earlier images. |
| PdfGenerator.ImageDownloader.DownloadAsImages | pdf-generator.js:100-113 | Produces one download per stored image, in insertion order. Each is named `<filename>_page_<hex page>.png` and holds that image's PNG data. |
| PdfGenerator.DownloadListShape | pdf-generator.js:102-105 | The download list has as many entries as images, and entry `k` is image `k`'s name and data. |
| PdfGenerator.ImageFileName | pdf-generator.js:105 | A page's file name starts with `<filename>_page_` and ends with ".png". Between them is the page number in hexadecimal. `PdfGenerator.ImageFileNamesDistinct` shows distinct pages get distinct names. |
| PdfGenerator.ImageFileNameExample | pdf-generator.js:105 | Page 16 of "doc" is saved as "doc_page_10.png". |
| PdfGenerator.ImageFileNamesDistinct | pdf-generator.js:105 | Two pages share a file name exactly when they are the same page. |
| Popup.PageUrl | popup.js:59-61 | The image URL of a page is the prefix, then the page number in hexadecimal, then the suffix. `Popup.PageUrlInjective` shows distinct pages get distinct URLs. |
| Popup.DownloadSingleImage | popup.js:85-120 | Gives the page's image exactly when its fetch succeeds, with the fetched canvas and the requested page number. A failed request returns `null` and a failed decode rejects. Line 71 drops both, so the model uses `None` for both. |
| Popup.PageUrlInjective | popup.js:59-61 | Two pages share an image URL exactly when they are the same page. |
| Popup.RequestRunStep | popup.js:58-63 | A run of requested pages extends by its next page. |
| Popup.FlattenAppend | popup.js:54-74 | Flattening batches plus one more batch appends that batch. |
| Popup.CollectAppend | popup.js:70-74 | Keeping the successes of two request lists is keeping each list's successes, in order. |
| Popup.BatchesFromFlatten | popup.js:54-64 | The batches from page `first` contain, in order, exactly the pages `first..totalPages`. |
| Popup.BatchesCoverPages | popup.js:54-64 | Every page 1..totalPages is requested exactly once, in increasing order, at its derived URL. |
| Popup.BatchesFromShape | popup.js:54-58 | Batch `k` from `first` starts at page `first + 3k`, and there is a next batch exactly when its first page exists. |
| Popup.BatchShape | popup.js:52-58 | Batch `k` starts at page `3k+1` and holds between 1 and 3 pages. Every batch but the last holds 3. |
| Popup.SevenPages | popup.js:54-58 | Seven pages are requested in batches of 3, 3 and 1, the last starting at page 7. |
| Popup.NoPages | popup.js:54 | With no pages nothing is requested and no image is returned. |
| Popup.RequestsStep | popup.js:54-64 | The requests for `n+1` pages are those for `n` pages followed by page `n+1`. |
| Popup.DownloadedImagesStep | popup.js:70-74 | Page `n+1` adds its image to the result for pages 1..n when, and only when, its download succeeds. |
| Popup.DownloadedImagesSound | popup.js:50-83 | Every downloaded image is a page in range holding the canvas fetched from its URL, in strictly increasing page order. |
| Popup.DownloadedImagesComplete | popup.js:50-83 | Every page whose download succeeds is among the downloaded images. |
| Popup.DownloadedCount | popup.js:70-74 | The number of images plus the number of failed pages is the number of pages. |
| Popup.PagesTwoAndFiveFail | popup.js:70-74 | When exactly pages 2 and 5 fail, the result has two images fewer than there are pages, and neither page 2 nor page 5 is among them. |
| Popup.FailedPagesTwoAndFive | popup.js:70-74 | When only pages 2 and 5 fail, the failure count is how many of them are in range. |
| Popup.BuildBatch | popup.js:55-64 | The inner loop builds the batch starting at page `i`: up to three consecutive pages, none past the last, each with its derived URL. |
| Popup.IssueStep | popup.js:67-74 | Issuing one more batch appends that batch's successes to the images kept so far. |
| Popup.SettleBatch | popup.js:67-74 | One batch's outcomes are all awaited, then its successful pages are kept in request order. |
| Popup.DownloadImages | popup.js:50-83 | Issues exactly the batches above, in order. Returns the successful pages in request order. Pauses between batches: one pause fewer than the number of batches. |
| Popup.SortByPageNum | popup.js:127 | The array ends sorted by page number and is a permutation of its old contents. |
| Popup.InsertLast | popup.js:127 | Inserting element `i` into a sorted prefix leaves `i+1` elements sorted, as a permutation. |
| Popup.SwapAdjacent | popup.js:127 | Exchanges two neighbouring elements and leaves the rest in place. |
| Popup.SortedPermutationOfIncreasing | popup.js:127 | A sorted permutation of a list with strictly increasing page numbers is that list. So sorting the downloaded images changes nothing. |
| Popup.SameFirst | popup.js:127 | Two sorted permutations of a strictly increasing list start with the same element. |
| Popup.TailMultiset | popup.js:127 | Dropping the head removes exactly one copy of it from the multiset. |
| Popup.SortedTails | popup.js:127 | Tails of sorted and strictly increasing lists keep those properties. |
| Popup.StrategyName | popup.js:130-147 | The strategy is "HTML PDF" exactly when the generator is available, and "Individual Images" exactly when it is not. |
| Popup.ImageBaseName | popup.js:146 | A name without ".pdf" is kept. Otherwise one ".pdf" is removed, four characters shorter. `Popup.ImageBaseNameOfDerivedName` shows a derived name loses exactly its extension. |
| Popup.CreatePdf | popup.js:122-148 | Sorts the images in place, reports success with the strategy used, and produces one of two artifacts. With the generator it is the printable document of the sorted pages. Without it, it is one PNG download per page under the file name with ".pdf" removed. |
| Popup.ImageBaseNameOfDerivedName | popup.js:146 | For a name derived from the page URL whose segment contains no ".pdf", removing ".pdf" gives the segment back. |
| Popup.UpdateStatus | popup.js:34-41 | Keeps the kind and the message. It appends the reload hint exactly to error messages that mention a failed connection. |
| Popup.NoReceiverGetsReloadHint | popup.js:35-36 | The browser's "Could not establish connection. Receiving end does not exist." error gets the reload hint. |
| Popup.Pipeline | popup.js:175-211 | The outcome of the handler's `try` block. A success implies a StudoCu tab, a delivered message and a successful extraction. It reports at least one page and the strategy used. `Popup.PipelineOutcome` and `Popup.PipelineEarlyErrors` give the exact conditions. |
| Popup.RunDownload | popup.js:175-211 | The handler's `try` block checks, in order, the host, the message delivery, the content script's reply and that some page arrived. Each failing check ends the run with its message. Otherwise it creates the output from the downloaded images. |
| Popup.PipelineOutcome | popup.js:197-208 | On a StudoCu page with extracted data, a run succeeds exactly when some page's image arrives. Otherwise it fails with "No images were downloaded successfully". A success reports the number of pages whose download succeeded: that number plus the number of failed pages is totalPages, and it lies between 1 and totalPages. It also reports the strategy used. |
| Popup.PipelineEarlyErrors | popup.js:179-190 | A tab outside studocu.com, a failed message send, or a failed extraction ends the run with that error before any download. |
| Popup.FirstPageUrlIsSourceUrl | popup.js:59-61 | When the first image's page index reads "1", the URL derived for page 1 is that image's own URL. |
| Popup.FinalStatus | popup.js:206-216 | A success shows "Successfully processed N pages!" with the success kind. An error shows the error's message with the error kind. The reload hint is appended exactly when the message mentions a failed connection; nothing else is added. |
| Popup.FinalDetails | popup.js:208 | The details line starts with "Method: " exactly on success, followed by the strategy name. On an error it is exactly "Check console for details" (line 216). |
| Popup.Status.ClassName | popup.js:40 | The status element's class is "status " followed by the kind's name. |
| Popup.PopupState.constructor | popup.js:2 | The popup starts not downloading, with the button enabled. The initial label "Download as PDF" is taken to be the one the handler restores at line 220; the popup page's markup, which sets it, is not part of this model. |
| Popup.PopupState.BeginDownload | popup.js:168-172 | During a download the guard changes nothing. Otherwise it sets the flag, disables the button and labels it "Downloading...". |
| Popup.PopupState.FinishDownload | popup.js:213-220 | Shows the outcome's status and details, with the class name "status success" or "status error". Clears the flag and re-enables the button. |
| Popup.PopupState.Click | popup.js:150-225 | Every click asks the usage counter to count it. A click during a download does nothing else. Any other click runs the download and ends with the outcome shown and the flag cleared. |

## Left out

- The usage counter's HTTP API (`popup.js` lines 11-31 and 151-167) is not modelled. Its responses and errors only change the counter's text element or are logged. A click is modelled as one counted request.
- The concurrency of `Promise.allSettled`, the 100 ms pauses and all timing are not modelled. The batch outcomes are computed in request order. `Popup.DownloadImages` counts the 100 ms pauses between batches (lines 77-79). The 100 ms wait `downloadAsImages` makes after every file, the last included (`pdf-generator.js` line 111), is not modelled.
- Canvases, `toDataURL` encodings, blobs, object URLs and image decoding are not modelled. A canvas is a value holding its size and its two data URLs, and `fetch` stands for the whole download-and-decode step.
- The progress bar (`updateProgress`), the intermediate status messages and console logging are not modelled. They change only the display.
- `generatePDF` opening a print window and printing it is not modelled. The model returns the document it would show.
- The HTML template's CSS and whitespace are abbreviated. A page's markup keeps its image data and its `page-break-after` value; the head and tail are constants.
- `addExtensionIndicator` (`content.js` lines 80-125) is not modelled. It only shows a temporary badge.
- `Popup.SortByPageNum`: does not state that the sort is stable. The source's comparator sort is stable, but the downloaded page numbers are distinct, so stability cannot change the result.
- The "Failed to create PDF" branch (`popup.js` line 210) is not modelled, because `createPDF` always reports success.
- Page counts and page numbers are unbounded integers. The source's numbers stay far below the range where JavaScript numbers lose precision.
- `downloadSingleImage` returns `null` when the request fails (lines 116-119) but rejects when the image fails to decode (lines 108-111), because it returns its promise without awaiting it. Line 71 drops both kinds of failure, so the model uses `None` for both, and the warning logged for a failed request is not modelled.
- The page-index digits that `extractImageData` parses are decimal (`\d+`), but the popup writes page indices in hexadecimal. The model follows the code. For pages 1-9 both readings agree (`Popup.FirstPageUrlIsSourceUrl` states this for page 1).
- Three behaviours of the code a reader may not expect. The model follows the code in each:
  - The usage-counter request is sent on every click, before the re-entrancy guard, so a click during a download still makes that request.
  - Individual image files are named with a ".png" extension.
  - `generatePDF` ignores the file name it is given.
