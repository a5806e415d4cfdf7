/**
 * Text extraction from an uploaded file (services/pdfService.ts): plain text passes through,
 * a PDF is reduced to a bounded sample of its pages ("smart sampling") whose text is
 * concatenated, with a visible marker wherever pages were skipped.
 *
 * The FileReader and the pdf.js library are outside the model: what the reader yields and
 * what pdf.js reports (page count, per-page text items, failures) are inputs.
 */
module PdfService {
  import opened Wrappers
  import opened Text

  /** Documents with at most this many pages are extracted whole. */
  const FullExtractionLimit: nat := 15

  const GapMarker: string := "\n\n[...GAP IN MANUSCRIPT...]\n\n"
  const PageSeparator: string := "\n\n"

  const TextReadErrorMessage: string := "Error leyendo archivo de texto."
  const FileReadErrorMessage: string := "Error al leer el archivo."
  const PdfUnreadableMessage: string :=
    "No se pudo leer el PDF. Asegúrate de que no esté corrupto o protegido con contraseña."
  const UnsupportedFormatMessage: string := "Formato no soportado. Usa PDF o TXT."

  /** What pdf.js makes of the file's bytes: a document with a page count, or a failure. */
  datatype PdfLoad = Loaded(numPages: nat) | LoadFailed

  /**
   * An uploaded file: its MIME type, what the FileReader yields when reading it as text,
   * and what reading it as an array buffer and handing that to pdf.js yields
   * (`None` is the reader's `onerror`).
   */
  datatype UploadedFile = UploadedFile(mimeType: string, asText: Option<string>, asPdf: Option<PdfLoad>)

  // ----- Page selection -------------------------------------------------------------

  /** The integers lo, lo + 1, ..., hi - 1, in order. */
  function Range(lo: int, hi: int): seq<int>
  {
    seq(if lo < hi then hi - lo else 0, i => lo + i)
  }

  /** A non-empty range is its first element followed by the rest. */
  lemma RangeCons(lo: int, hi: int)
    requires lo < hi
    ensures Range(lo, hi) == [lo] + Range(lo + 1, hi)
  {
    assert forall i :: 0 <= i < hi - lo ==> Range(lo, hi)[i] == ([lo] + Range(lo + 1, hi))[i];
  }

  lemma RangeMembership(lo: int, hi: int)
    ensures forall x :: x in Range(lo, hi) <==> lo <= x < hi
  {
    var r := Range(lo, hi);
    forall x | lo <= x < hi
      ensures x in r
    {
      assert r[x - lo] == x;
    }
  }

  predicate StrictlyAscending(s: seq<int>)
  {
    forall i, j :: 0 <= i < j < |s| ==> s[i] < s[j]
  }

  lemma RangeAscending(lo: int, hi: int)
    ensures StrictlyAscending(Range(lo, hi))
  {
  }

  /** The pages lo, lo + 1, ..., hi as a set. */
  function Pages(lo: int, hi: int): set<int>
  {
    Elements(Range(lo, hi + 1))
  }

  /** The elements of a sequence, as a set. */
  function Elements(s: seq<int>): set<int>
  {
    set x | x in s
  }

  lemma PagesMembership(lo: int, hi: int)
    ensures forall x :: x in Pages(lo, hi) <==> lo <= x <= hi
  {
    RangeMembership(lo, hi + 1);
  }

  /** A page interval whose end lies before its start is empty. */
  lemma PagesEmpty(lo: int, hi: int)
    requires hi < lo
    ensures Pages(lo, hi) == {}
  {
    PagesMembership(lo, hi);
    assert forall x :: x !in Pages(lo, hi);
  }

  /** Adding page hi + 1 to the pages lo..hi gives the pages lo..hi + 1. */
  lemma PagesExtend(lo: int, hi: int)
    requires lo <= hi + 1
    ensures Pages(lo, hi + 1) == Pages(lo, hi) + {hi + 1}
  {
    PagesMembership(lo, hi);
    PagesMembership(lo, hi + 1);
    var extended, added := Pages(lo, hi + 1), Pages(lo, hi) + {hi + 1};
    forall x
      ensures x in extended <==> x in added
    {
    }
  }

  /**
   * The set `pagesToExtract`: every page when there are at most 15, otherwise the first
   * five, the five centred on `totalPages / 2` and the last five.
   */
  function Selection(totalPages: nat): set<int>
  {
    if totalPages <= FullExtractionLimit then
      Pages(1, totalPages)
    else
      var mid := totalPages / 2;
      Pages(1, 5) + Pages(mid - 2, mid + 2) + Pages(totalPages - 4, totalPages)
  }

  /** The selected pages in ascending order, block by block. */
  function SortedPages(totalPages: nat): seq<int>
  {
    if totalPages <= FullExtractionLimit then
      Range(1, totalPages + 1)
    else
      var mid := totalPages / 2;
      Range(1, 6) + Range(mid - 2, mid + 3) + Range(totalPages - 4, totalPages + 1)
  }

  /** One sampling loop, `for (let i = lo; i <= hi; i++) pagesToExtract.add(i)`. */
  method AddPages(pages: set<int>, lo: int, hi: int) returns (r: set<int>)
    ensures r == pages + Pages(lo, hi)
  {
    r := pages;
    var i := lo;
    while i <= hi
      invariant lo <= i && (i <= hi + 1 || i == lo)
      invariant r == pages + Pages(lo, i - 1)
    {
      PagesExtend(lo, i - 1);
      r := r + {i};
      i := i + 1;
    }
    if hi < lo {
      PagesEmpty(lo, hi);
      PagesEmpty(lo, lo - 1);
    }
  }

  /** Builds `pagesToExtract` with the three sampling loops. */
  method SamplePages(totalPages: nat) returns (pagesToExtract: set<int>)
    ensures pagesToExtract == Selection(totalPages)
  {
    pagesToExtract := {};
    if totalPages <= FullExtractionLimit {
      pagesToExtract := AddPages(pagesToExtract, 1, totalPages);
    } else {
      pagesToExtract := AddPages(pagesToExtract, 1, 5);
      var mid := totalPages / 2;
      pagesToExtract := AddPages(pagesToExtract, mid - 2, mid + 2);
      var firstAndMiddle := pagesToExtract;
      for i := totalPages - 4 to totalPages + 1
        invariant pagesToExtract == firstAndMiddle + Pages(totalPages - 4, i - 1)
      {
        PagesExtend(totalPages - 4, i - 1);
        if i > 0 {
          pagesToExtract := pagesToExtract + {i};
        }
      }
    }
  }

  lemma {:induction false} MinimumExists(s: set<int>)
    requires s != {}
    ensures exists m :: m in s && forall y :: y in s ==> m <= y
    decreases |s|
  {
    if forall y :: y !in s {
      assert false;
    }
    var x :| x in s;
    var t := s - {x};
    if t == {} {
      forall y | y in s
        ensures x <= y
      {
        assert y !in t;
      }
    } else {
      MinimumExists(t);
      var m :| m in t && forall y :: y in t ==> m <= y;
      var least := if x < m then x else m;
      forall y | y in s
        ensures least <= y
      {
        if y != x { assert y in t; }
      }
      assert least in s;
    }
  }

  /** `Array.from(pages).sort((a, b) => a - b)`: the set's elements in ascending order. */
  method SortAscending(pages: set<int>) returns (sorted: seq<int>)
    ensures StrictlyAscending(sorted)
    ensures forall x :: x in sorted <==> x in pages
    ensures |sorted| == |pages|
  {
    sorted := [];
    var rest := pages;
    while rest != {}
      invariant StrictlyAscending(sorted)
      invariant forall x :: x in pages <==> x in sorted || x in rest
      invariant forall x, y :: x in sorted && y in rest ==> x < y
      invariant |sorted| + |rest| == |pages|
      decreases |rest|
    {
      MinimumExists(rest);
      var m :| m in rest && forall y :: y in rest ==> m <= y;
      forall i | 0 <= i < |sorted|
        ensures sorted[i] < m
      {
        assert sorted[i] in sorted;
      }
      sorted := sorted + [m];
      rest := rest - {m};
    }
  }

  /** Two strictly ascending sequences with the same elements are equal. */
  lemma {:induction false} AscendingUnique(a: seq<int>, b: seq<int>)
    requires StrictlyAscending(a) && StrictlyAscending(b)
    requires forall x :: x in a <==> x in b
    ensures a == b
  {
    assert a != [] ==> a[0] in a;
    assert b != [] ==> b[0] in b;
    if a != [] && b != [] {
      assert a[0] == b[0];
      forall x
        ensures x in a[1..] <==> x in b[1..]
      {
        if x in a[1..] {
          assert x in b && x != b[0];
        }
        if x in b[1..] {
          assert x in a && x != a[0];
        }
      }
      AscendingUnique(a[1..], b[1..]);
      assert a == [a[0]] + a[1..] && b == [b[0]] + b[1..];
    }
  }

  /** Two ascending runs, the first ending below the start of the second, form an ascending run. */
  lemma AscendingConcat(a: seq<int>, b: seq<int>)
    requires StrictlyAscending(a) && StrictlyAscending(b)
    requires a != [] && b != [] ==> a[|a| - 1] < b[0]
    ensures StrictlyAscending(a + b)
  {
    forall i, j | 0 <= i < j < |a + b|
      ensures (a + b)[i] < (a + b)[j]
    {
      if i < |a| <= j {
        assert a[i] <= a[|a| - 1];
        assert b[0] <= b[j - |a|];
      }
    }
  }

  /** Which pages are selected, stated directly. */
  lemma SelectionMembership(totalPages: nat)
    ensures forall x :: x in Selection(totalPages) <==>
      if totalPages <= FullExtractionLimit then 1 <= x <= totalPages
      else 1 <= x <= 5 || totalPages / 2 - 2 <= x <= totalPages / 2 + 2 || totalPages - 4 <= x <= totalPages
  {
    var mid := totalPages / 2;
    PagesMembership(1, totalPages);
    PagesMembership(1, 5);
    PagesMembership(mid - 2, mid + 2);
    PagesMembership(totalPages - 4, totalPages);
  }

  /** Three ranges, each starting after the previous one ends, form an ascending run. */
  lemma ThreeRangesAscending(lo1: int, hi1: int, lo2: int, hi2: int, lo3: int, hi3: int)
    requires lo1 < hi1 <= lo2 < hi2 <= lo3 < hi3
    ensures StrictlyAscending(Range(lo1, hi1) + Range(lo2, hi2) + Range(lo3, hi3))
  {
    var a, b, c := Range(lo1, hi1), Range(lo2, hi2), Range(lo3, hi3);
    RangeAscending(lo1, hi1);
    RangeAscending(lo2, hi2);
    RangeAscending(lo3, hi3);
    AscendingConcat(a, b);
    assert (a + b)[|a + b| - 1] == b[|b| - 1];
    AscendingConcat(a + b, c);
  }

  lemma SortedPagesAscending(totalPages: nat)
    ensures StrictlyAscending(SortedPages(totalPages))
  {
    if totalPages <= FullExtractionLimit {
      RangeAscending(1, totalPages + 1);
    } else {
      var mid := totalPages / 2;
      ThreeRangesAscending(1, 6, mid - 2, mid + 3, totalPages - 4, totalPages + 1);
    }
  }

  /** A page is in three concatenated ranges exactly when it lies in one of them. */
  lemma ThreeRangesMembership(lo1: int, hi1: int, lo2: int, hi2: int, lo3: int, hi3: int)
    ensures forall x :: x in Range(lo1, hi1) + Range(lo2, hi2) + Range(lo3, hi3) <==>
      lo1 <= x < hi1 || lo2 <= x < hi2 || lo3 <= x < hi3
  {
    RangeMembership(lo1, hi1);
    RangeMembership(lo2, hi2);
    RangeMembership(lo3, hi3);
    var a, b, c := Range(lo1, hi1), Range(lo2, hi2), Range(lo3, hi3);
    forall x
      ensures x in a + b + c <==> x in a || x in b || x in c
    {
    }
  }

  lemma SortedPagesElements(totalPages: nat)
    ensures forall x :: x in SortedPages(totalPages) <==> x in Selection(totalPages)
  {
    SelectionMembership(totalPages);
    if totalPages <= FullExtractionLimit {
      RangeMembership(1, totalPages + 1);
    } else {
      var mid := totalPages / 2;
      ThreeRangesMembership(1, 6, mid - 2, mid + 3, totalPages - 4, totalPages + 1);
    }
  }

  /** The closed-form page list is ascending and holds exactly the selected pages. */
  lemma SortedPagesMatchSelection(totalPages: nat)
    ensures StrictlyAscending(SortedPages(totalPages))
    ensures forall x :: x in SortedPages(totalPages) <==> x in Selection(totalPages)
  {
    SortedPagesAscending(totalPages);
    SortedPagesElements(totalPages);
  }

  /** Samples the pages of a document and lists them in ascending order. */
  method SelectPages(totalPages: nat) returns (sortedPages: seq<int>, pagesToExtract: set<int>)
    ensures pagesToExtract == Selection(totalPages)
    ensures sortedPages == SortedPages(totalPages)
  {
    pagesToExtract := SamplePages(totalPages);
    sortedPages := SortAscending(pagesToExtract);
    SortedPagesMatchSelection(totalPages);
    AscendingUnique(sortedPages, SortedPages(totalPages));
  }

  // ----- Properties of the selection ------------------------------------------------

  /** Up to 15 pages, the selection is 1, 2, ..., totalPages (nothing at all for 0 pages). */
  lemma SmallDocumentSelectsAll(totalPages: nat)
    requires totalPages <= FullExtractionLimit
    ensures |SortedPages(totalPages)| == totalPages
    ensures forall i :: 0 <= i < totalPages ==> SortedPages(totalPages)[i] == i + 1
  {
  }

  lemma {:induction false} DistinctCardinality(s: seq<int>)
    requires StrictlyAscending(s)
    ensures |set x | x in s| == |s|
  {
    if s != [] {
      DistinctCardinality(s[1..]);
      var all, tail := set x | x in s, set x | x in s[1..];
      forall x
        ensures x in all <==> x in {s[0]} + tail
      {
        if x in s && x != s[0] {
          var i :| 0 <= i < |s| && s[i] == x;
          assert s[1..][i - 1] == x;
        }
      }
      assert all == {s[0]} + tail;
      forall x | x in tail
        ensures x != s[0]
      {
        var i :| 0 <= i < |s[1..]| && s[1..][i] == x;
        assert s[i + 1] == x;
      }
    }
  }

  /** A set listed by a strictly ascending sequence has as many elements as the sequence. */
  lemma AscendingCardinality(s: seq<int>, elements: set<int>)
    requires StrictlyAscending(s)
    requires forall x :: x in s <==> x in elements
    ensures |elements| == |s|
  {
    DistinctCardinality(s);
    var listed := set x | x in s;
    forall x
      ensures x in elements <==> x in listed
    {
    }
    assert elements == listed;
  }

  lemma SortedPagesLength(totalPages: nat)
    ensures |SortedPages(totalPages)| == if totalPages <= FullExtractionLimit then totalPages else 15
  {
    var mid := totalPages / 2;
  }

  /**
   * Beyond 15 pages exactly 15 distinct pages are chosen: 1..5, mid-2..mid+2 and
   * totalPages-4..totalPages, with mid = totalPages / 2.
   */
  lemma LargeDocumentSelection(totalPages: nat)
    requires totalPages > FullExtractionLimit
    ensures |SortedPages(totalPages)| == 15
    ensures |Selection(totalPages)| == 15
    ensures forall x :: x in Selection(totalPages) <==>
      (1 <= x <= 5 || totalPages / 2 - 2 <= x <= totalPages / 2 + 2 || totalPages - 4 <= x <= totalPages)
  {
    SelectionMembership(totalPages);
    SortedPagesLength(totalPages);
    SortedPagesMatchSelection(totalPages);
    AscendingCardinality(SortedPages(totalPages), Selection(totalPages));
  }

  /** Every selected page exists, the list is strictly ascending, and at most 15 are kept. */
  lemma SelectionBounds(totalPages: nat)
    ensures StrictlyAscending(SortedPages(totalPages))
    ensures forall i :: 0 <= i < |SortedPages(totalPages)| ==> 1 <= SortedPages(totalPages)[i] <= totalPages
    ensures |SortedPages(totalPages)| == if totalPages <= FullExtractionLimit then totalPages else 15
  {
    SortedPagesMatchSelection(totalPages);
    SelectionMembership(totalPages);
    SortedPagesLength(totalPages);
    var s := SortedPages(totalPages);
    forall i | 0 <= i < |s|
      ensures 1 <= s[i] <= totalPages
    {
      assert s[i] in s;
    }
  }

  /** The first and the last page are always part of a non-empty document's sample. */
  lemma FirstAndLastPageSelected(totalPages: nat)
    requires totalPages >= 1
    ensures SortedPages(totalPages)[0] == 1
    ensures SortedPages(totalPages)[|SortedPages(totalPages)| - 1] == totalPages
  {
    SelectionBounds(totalPages);
    SortedPagesMatchSelection(totalPages);
    SelectionMembership(totalPages);
    var s := SortedPages(totalPages);
    assert 1 in s && totalPages in s;
    var i :| 0 <= i < |s| && s[i] == 1;
    var j :| 0 <= j < |s| && s[j] == totalPages;
    assert i == 0;
    assert j == |s| - 1;
  }

  /** A 30-page document yields pages 1-5, 13-17 and 26-30. */
  lemma ThirtyPageSample()
    ensures SortedPages(30) == [1, 2, 3, 4, 5, 13, 14, 15, 16, 17, 26, 27, 28, 29, 30]
  {
  }

  // ----- Gap markers ------------------------------------------------------------------

  /** A marker precedes page p when p > 1 and page p - 1 was not selected. */
  predicate GapBefore(p: int, pagesToExtract: set<int>)
  {
    p - 1 !in pagesToExtract && p > 1
  }

  /** How many of `pages` are preceded by a gap marker. */
  function GapCount(pages: seq<int>, pagesToExtract: set<int>): nat
  {
    if pages == [] then 0
    else (if GapBefore(pages[0], pagesToExtract) then 1 else 0) + GapCount(pages[1..], pagesToExtract)
  }

  lemma {:induction false} GapCountConcat(a: seq<int>, b: seq<int>, pagesToExtract: set<int>)
    ensures GapCount(a + b, pagesToExtract) == GapCount(a, pagesToExtract) + GapCount(b, pagesToExtract)
  {
    if a != [] {
      assert (a + b)[1..] == a[1..] + b;
      GapCountConcat(a[1..], b, pagesToExtract);
    } else {
      assert a + b == b;
    }
  }

  /** A run of consecutive selected pages can only have a marker before its first page. */
  lemma {:induction false} GapCountRange(lo: int, hi: int, pagesToExtract: set<int>)
    requires forall x :: lo <= x < hi ==> x in pagesToExtract
    ensures GapCount(Range(lo, hi), pagesToExtract) == if lo < hi && GapBefore(lo, pagesToExtract) then 1 else 0
    decreases hi - lo
  {
    if lo < hi {
      RangeCons(lo, hi);
      GapCountRange(lo + 1, hi, pagesToExtract);
    }
  }

  /**
   * No marker appears up to 15 pages; from 16 pages on the middle block is separated from
   * the last block, and from 18 pages on also from the first block (for 16 and 17 pages the
   * middle block starts at page 6, right after the first block).
   */
  lemma GapMarkerCount(totalPages: nat)
    ensures GapCount(SortedPages(totalPages), Selection(totalPages)) ==
      if totalPages <= FullExtractionLimit then 0 else if totalPages <= 17 then 1 else 2
  {
    SelectionMembership(totalPages);
    if totalPages <= FullExtractionLimit {
      GapCountRange(1, totalPages + 1, Selection(totalPages));
    } else {
      LongSampleGaps(totalPages / 2, totalPages, Selection(totalPages));
    }
  }

  /**
   * The markers of a long document's sample, for a middle block starting after page 5 and
   * ending before the last block: one before the last block, and one before the middle block
   * unless it starts at page 6.
   */
  lemma LongSampleGaps(mid: int, totalPages: int, sel: set<int>)
    requires 8 <= mid && mid + 3 < totalPages - 4
    requires forall x :: x in sel <==> 1 <= x <= 5 || mid - 2 <= x <= mid + 2 || totalPages - 4 <= x <= totalPages
    ensures GapCount(Range(1, 6) + Range(mid - 2, mid + 3) + Range(totalPages - 4, totalPages + 1), sel) ==
      if mid == 8 then 1 else 2
  {
    GapCountRange(1, 6, sel);
    GapCountRange(mid - 2, mid + 3, sel);
    GapCountRange(totalPages - 4, totalPages + 1, sel);
    GapCountConcat(Range(1, 6), Range(mid - 2, mid + 3), sel);
    GapCountConcat(Range(1, 6) + Range(mid - 2, mid + 3), Range(totalPages - 4, totalPages + 1), sel);
    assert GapBefore(totalPages - 4, sel);
    assert GapBefore(mid - 2, sel) <==> mid != 8;
  }

  // ----- Text assembly ------------------------------------------------------------------

  /** The text contributed by one page: an optional gap marker, its items joined by spaces, a blank line. */
  function PageChunk(pageNum: int, pagesToExtract: set<int>, items: seq<string>): string
  {
    (if GapBefore(pageNum, pagesToExtract) then GapMarker else "") + Join(items, " ") + PageSeparator
  }

  /**
   * The untrimmed `fullText` for `pages` in order, or `None` when pdf.js fails to deliver
   * the text of one of them (`pageItems(p) == None`). It fails exactly when some page's text
   * cannot be read: no partial text is ever given.
   */
  function Collect(pages: seq<int>, pagesToExtract: set<int>, pageItems: int -> Option<seq<string>>): (r: Option<string>)
    ensures r == None <==> exists i :: 0 <= i < |pages| && pageItems(pages[i]) == None
  {
    if pages == [] then Some("")
    else
      var init := pages[..|pages| - 1];
      assert forall i :: 0 <= i < |init| ==> init[i] == pages[i];
      match Collect(init, pagesToExtract, pageItems)
      case None => None
      case Some(prefix) =>
        match pageItems(pages[|pages| - 1])
        case None => None
        case Some(items) => Some(prefix + PageChunk(pages[|pages| - 1], pagesToExtract, items))
  }

  /** Collecting one more page appends that page's chunk to the text collected so far. */
  lemma CollectStep(pages: seq<int>, k: nat, pagesToExtract: set<int>, pageItems: int -> Option<seq<string>>)
    requires k < |pages| && Collect(pages[..k], pagesToExtract, pageItems).Some? && pageItems(pages[k]).Some?
    ensures Collect(pages[..k + 1], pagesToExtract, pageItems) ==
      Some(Collect(pages[..k], pagesToExtract, pageItems).value + PageChunk(pages[k], pagesToExtract, pageItems(pages[k]).value))
  {
    assert pages[..k + 1][..k] == pages[..k];
    assert pages[..k + 1][k] == pages[k];
  }

  /** The per-page loop of the extractor: appends each page's chunk, then trims. */
  method AssembleText(sortedPages: seq<int>, pagesToExtract: set<int>, pageItems: int -> Option<seq<string>>)
    returns (r: Result<string, string>)
    ensures r == match Collect(sortedPages, pagesToExtract, pageItems)
                 case None => Err(PdfUnreadableMessage)
                 case Some(fullText) => Ok(Trim(fullText))
  {
    var fullText := "";
    for k := 0 to |sortedPages|
      invariant Collect(sortedPages[..k], pagesToExtract, pageItems) == Some(fullText)
    {
      var pageNum := sortedPages[k];
      match pageItems(pageNum)
      case None =>
        assert pageItems(sortedPages[k]) == None;
        return Err(PdfUnreadableMessage);
      case Some(items) =>
        var pageText := Join(items, " ");
        ghost var before := fullText;
        if (pageNum - 1 in pagesToExtract) == false && pageNum > 1 {
          fullText := fullText + GapMarker;
        }
        fullText := fullText + pageText + PageSeparator;
        assert fullText == before + PageChunk(pageNum, pagesToExtract, items);
        CollectStep(sortedPages, k, pagesToExtract, pageItems);
    }
    assert sortedPages[..|sortedPages|] == sortedPages;
    r := Ok(Trim(fullText));
  }

  /** Pages listing exactly the selected numbers have an unreadable one exactly when the selection does. */
  lemma SomePageFails(pages: seq<int>, sel: set<int>, pageItems: int -> Option<seq<string>>)
    requires forall x :: x in pages <==> x in sel
    ensures (exists i :: 0 <= i < |pages| && pageItems(pages[i]) == None) <==>
      exists p :: p in sel && pageItems(p) == None
  {
    if exists i :: 0 <= i < |pages| && pageItems(pages[i]) == None {
      var i :| 0 <= i < |pages| && pageItems(pages[i]) == None;
      assert pages[i] in pages;
      var q := pages[i];
      assert q in sel && pageItems(q) == None;
    }
    if exists p :: p in sel && pageItems(p) == None {
      var p :| p in sel && pageItems(p) == None;
      var i :| 0 <= i < |pages| && pages[i] == p;
      assert pageItems(pages[i]) == None;
    }
  }

  /**
   * The outcome of extracting the text of a loaded PDF with `totalPages` pages: it fails, with
   * the fixed message, exactly when one of the sampled pages cannot be read; otherwise the text
   * has no white space at either end.
   */
  function PdfText(totalPages: nat, pageItems: int -> Option<seq<string>>): (r: Result<string, string>)
    ensures r.Err? <==> exists p :: p in Selection(totalPages) && pageItems(p) == None
    ensures r.Err? ==> r.error == PdfUnreadableMessage
    ensures r.Ok? ==> r.value == [] || (!IsWhitespace(r.value[0]) && !IsWhitespace(r.value[|r.value| - 1]))
  {
    SortedPagesMatchSelection(totalPages);
    SomePageFails(SortedPages(totalPages), Selection(totalPages), pageItems);
    match Collect(SortedPages(totalPages), Selection(totalPages), pageItems)
    case None => Err(PdfUnreadableMessage)
    case Some(fullText) => Ok(Trim(fullText))
  }

  /** A document without pages yields the empty text. */
  lemma EmptyDocumentText(pageItems: int -> Option<seq<string>>)
    ensures PdfText(0, pageItems) == Ok("")
  {
  }

  /** `extractTextFromFile`: dispatch on the MIME type, then read, sample and assemble. */
  method ExtractTextFromFile(file: UploadedFile, pageItems: int -> Option<seq<string>>)
    returns (r: Result<string, string>)
    ensures file.mimeType == "text/plain" ==>
      r == match file.asText
           case Some(text) => Ok(text)
           case None => Err(TextReadErrorMessage)
    ensures file.mimeType == "application/pdf" ==>
      r == match file.asPdf
           case None => Err(FileReadErrorMessage)
           case Some(LoadFailed) => Err(PdfUnreadableMessage)
           case Some(Loaded(totalPages)) => PdfText(totalPages, pageItems)
    ensures file.mimeType != "text/plain" && file.mimeType != "application/pdf" ==>
      r == Err(UnsupportedFormatMessage)
  {
    if file.mimeType == "text/plain" {
      match file.asText
      case Some(text) => return Ok(text);
      case None => return Err(TextReadErrorMessage);
    }
    if file.mimeType == "application/pdf" {
      match file.asPdf
      case None => return Err(FileReadErrorMessage);
      case Some(LoadFailed) => return Err(PdfUnreadableMessage);
      case Some(Loaded(totalPages)) =>
        var sortedPages, pagesToExtract := SelectPages(totalPages);
        r := AssembleText(sortedPages, pagesToExtract, pageItems);
        return;
    }
    r := Err(UnsupportedFormatMessage);
  }
}
