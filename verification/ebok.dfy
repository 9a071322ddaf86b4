/**
 * The EBOK ebook manager: the upload form's validation, the record it builds, and the
 * simulated sales.
 */
module Ebok {
  import opened Wrappers
  import opened Types
  import opened Text

  // The ebook form.

  /** The form's state: the texts typed, the cover chosen and the ebook file chosen, if any. */
  datatype EbookForm = EbookForm(title: string, author: string, cover: Option<string>, file: Option<FileInfo>)

  datatype EbookErrors = EbookErrors(
    title: Option<string>, author: Option<string>, coverImage: Option<string>, ebookFile: Option<string>)

  const TitleRequired: string := "Ebook title is required."
  const AuthorRequired: string := "Author name is required."
  const CoverRequired: string := "A cover image is required."
  const FileRequired: string := "The ebook file is required."

  /** `!coverImage` is false: a cover was chosen and it is not the empty string. */
  predicate HasCover(cover: Option<string>)
  {
    cover.Some? && cover.value != ""
  }

  /** `validate`: blank title or author, no cover, and, when adding, no ebook file. */
  function Validate(f: EbookForm, isEdit: bool): (r: EbookErrors)
    ensures r.title.Some? <==> Trim(f.title) == ""
    ensures r.author.Some? <==> Trim(f.author) == ""
    ensures r.coverImage.Some? <==> f.cover.None? || f.cover.value == ""
    ensures r.ebookFile.Some? <==> !isEdit && f.file.None?
    ensures r.title.Some? ==> r.title.value == TitleRequired
    ensures r.author.Some? ==> r.author.value == AuthorRequired
    ensures r.coverImage.Some? ==> r.coverImage.value == CoverRequired
    ensures r.ebookFile.Some? ==> r.ebookFile.value == FileRequired
  {
    EbookErrors(
      if Trim(f.title) == "" then Some(TitleRequired) else None,
      if Trim(f.author) == "" then Some(AuthorRequired) else None,
      if !HasCover(f.cover) then Some(CoverRequired) else None,
      if !isEdit && f.file.None? then Some(FileRequired) else None)
  }

  predicate NoErrors(e: EbookErrors)
  {
    e.title.None? && e.author.None? && e.coverImage.None? && e.ebookFile.None?
  }

  /**
   * `handleSubmit`: refused with the errors, or the ebook record. A new ebook is pending with no
   * sales; an edit keeps id, sales, revenue and status, and keeps the stored file unless another
   * one was chosen.
   */
  function SubmitEbook(f: EbookForm, editing: Option<Ebook>, stamp: string): (r: Result<Ebook, EbookErrors>)
    ensures r.Success? <==> NoErrors(Validate(f, editing.Some?))
    ensures r.Failure? ==> r.error == Validate(f, editing.Some?)
    ensures r.Success? ==> r.value.title == f.title && r.value.author == f.author && Some(r.value.coverImageUrl) == f.cover
    ensures r.Success? ==> r.value.coverImageUrl != ""
    ensures r.Success? && f.file.Some? ==> r.value.file == f.file
    ensures r.Success? && editing.None? ==>
      (r.value.id == "e" + stamp && r.value.sales == 0 && r.value.revenue == 0.0
       && r.value.status == Pending && r.value.file.Some?)
    ensures r.Success? && editing.Some? ==>
      (r.value.id == editing.value.id && r.value.sales == editing.value.sales
       && r.value.revenue == editing.value.revenue && r.value.status == editing.value.status
       && (f.file.None? ==> r.value.file == editing.value.file))
  {
    var e := Validate(f, editing.Some?);
    if !NoErrors(e) then Failure(e)
    else
      var file := if f.file.Some? then f.file else if editing.Some? then editing.value.file else None;
      match editing
      case None => Success(Ebook("e" + stamp, f.title, f.author, 0, 0.0, Pending, f.cover.value, file))
      case Some(b) => Success(Ebook(b.id, f.title, f.author, b.sales, b.revenue, b.status, f.cover.value, file))
  }

  /** The edit dialog cannot pre-fill the file input; submitting it untouched gives back the same ebook. */
  lemma EditRoundTrip(b: Ebook, stamp: string)
    requires Trim(b.title) != "" && Trim(b.author) != "" && b.coverImageUrl != ""
    ensures SubmitEbook(EbookForm(b.title, b.author, Some(b.coverImageUrl), None), Some(b), stamp) == Success(b)
  {
  }

  /** An ebook stored with an empty cover cannot be saved back unchanged: the edit is refused for the cover. */
  lemma EditWithoutCoverRefused(b: Ebook, stamp: string)
    requires b.coverImageUrl == ""
    ensures SubmitEbook(EbookForm(b.title, b.author, Some(b.coverImageUrl), None), Some(b), stamp).Failure?
    ensures SubmitEbook(EbookForm(b.title, b.author, Some(b.coverImageUrl), None), Some(b), stamp).error.coverImage
         == Some(CoverRequired)
  {
  }

  // The sales simulation.

  /** The price assumed for a book that has never sold. */
  const DefaultPrice: real := 9.99

  /** The draws for one ebook: copies sold in 0..2 and whether a pending ebook is published (`Math.random() > 0.97`). */
  datatype EbookDraw = EbookDraw(newSales: nat, publish: bool)

  predicate ValidEbookDraws(draws: seq<EbookDraw>, n: nat)
  {
    |draws| == n && forall i :: 0 <= i < n ==> draws[i].newSales < 3
  }

  /** The average price so far, or the default for a book without sales. */
  function PricePerBook(b: Ebook): real
  {
    if b.sales > 0 then b.revenue / b.sales as real else DefaultPrice
  }

  /** One ebook's tick: a published book sells copies at its average price; a pending one may be published. */
  function EbookStep(b: Ebook, d: EbookDraw): (r: Ebook)
    ensures r.id == b.id && r.title == b.title && r.author == b.author
      && r.coverImageUrl == b.coverImageUrl && r.file == b.file
    ensures b.status == EbookPublished ==>
      (r.status == EbookPublished && r.sales == b.sales + d.newSales
       && r.revenue == b.revenue + d.newSales as real * PricePerBook(b))
    ensures b.status == Pending ==>
      (r.sales == b.sales && r.revenue == b.revenue
       && r.status == (if d.publish then EbookPublished else Pending))
  {
    if b.status == EbookPublished then
      if d.newSales > 0 then
        b.(sales := b.sales + d.newSales, revenue := b.revenue + d.newSales as real * PricePerBook(b))
      else b
    else if d.publish then b.(status := EbookPublished)
    else b
  }

  function EbookTick(ebooks: seq<Ebook>, draws: seq<EbookDraw>): (r: seq<Ebook>)
    requires ValidEbookDraws(draws, |ebooks|)
    ensures |r| == |ebooks|
    ensures forall i :: 0 <= i < |ebooks| ==> r[i] == EbookStep(ebooks[i], draws[i])
    ensures forall i :: 0 <= i < |ebooks| ==> ebooks[i].sales <= r[i].sales <= ebooks[i].sales + 2
  {
    seq(|ebooks|, i requires 0 <= i < |ebooks| => EbookStep(ebooks[i], draws[i]))
  }

  /** A book that has sold keeps its average price: new copies sell at exactly that average. */
  lemma StepKeepsAveragePrice(b: Ebook, d: EbookDraw)
    requires b.sales > 0
    ensures EbookStep(b, d).sales > 0
    ensures PricePerBook(EbookStep(b, d)) == PricePerBook(b)
  {
    var r := EbookStep(b, d);
    if b.status == EbookPublished && d.newSales > 0 {
      var s := b.sales as real;
      var n := d.newSales as real;
      var avg := b.revenue / s;
      assert b.revenue == avg * s;
      assert r.revenue == avg * s + n * avg == avg * (s + n);
      assert r.sales as real == s + n;
    }
  }

  /** A first sale with no revenue yet sets the average to the default price. */
  lemma FirstSaleAtDefaultPrice(b: Ebook, d: EbookDraw)
    requires b.status == EbookPublished && b.sales == 0 && b.revenue == 0.0 && d.newSales > 0
    ensures PricePerBook(EbookStep(b, d)) == DefaultPrice
  {
    var n := d.newSales as real;
    assert EbookStep(b, d).revenue == n * DefaultPrice;
  }

  /** Sales and revenue never fall when revenue and sales start non-negative. */
  lemma StepMonotone(b: Ebook, d: EbookDraw)
    requires b.sales >= 0 && b.revenue >= 0.0
    ensures EbookStep(b, d).sales >= b.sales
    ensures EbookStep(b, d).revenue >= b.revenue
  {
    if b.sales > 0 {
      assert PricePerBook(b) >= 0.0;
    }
  }
}
