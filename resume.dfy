/**
 * `extract_resume_text`: turns an uploaded resume into plain text, or into a
 * message beginning "Error:". The PDF library is foreign code: what it makes
 * of the bytes (the pages' texts, or an exception) is an input.
 */
module ResumeText {
  import opened Text
  import opened Utf8

  const MaxResumeChars := 20000
  const PdfMagic: seq<Byte> := [0x25, 0x50, 0x44, 0x46]   // "%PDF"
  const ErrorPrefix := "Error:"
  const ImageOnlyPdf := ErrorPrefix + " Could not extract text from this PDF. It might be an image-only PDF."
  const PdfFailedPrefix := ErrorPrefix + " Failed to process PDF file. "
  const BinaryNotSupported := ErrorPrefix + " Binary file format not supported. Please upload a PDF or text (.txt) file."

  /** What `page.extract_text()` did: returned a text (`None` read as empty), or raised. */
  datatype PageText = PageText(text: string) | PageRaised(message: string)

  /** What the PDF library made of the bytes: the pages, or an exception when opening them. */
  datatype PdfReading = Opened(pages: seq<PageText>) | OpenRaised(message: string)

  /** The result, told apart: extracted text, or a rejection whose message is returned in its place. */
  datatype Extraction = Extracted(text: string) | Rejected(message: string)

  /** The texts of the pages, concatenated, or the message of the first page that raised. */
  function PagesText(pages: seq<PageText>): (r: Extraction)
    ensures r.Rejected? <==> exists i :: 0 <= i < |pages| && pages[i].PageRaised?
  {
    if pages == [] then Extracted("")
    else if pages[|pages| - 1].PageRaised? then
      (if PagesText(pages[..|pages| - 1]).Rejected? then PagesText(pages[..|pages| - 1])
       else Rejected(pages[|pages| - 1].message))
    else
      match PagesText(pages[..|pages| - 1])
      case Rejected(m) => Rejected(m)
      case Extracted(t) => Extracted(t + pages[|pages| - 1].text)
  }

  /** `text[:20000]`. */
  function Cap(text: string): (r: string)
    ensures |r| <= MaxResumeChars
    ensures IsPrefix(r, text)
    ensures |text| <= MaxResumeChars ==> r == text
    ensures |text| > MaxResumeChars ==> |r| == MaxResumeChars
  {
    if |text| > MaxResumeChars then text[..MaxResumeChars] else text
  }

  /** The fixed messages begin with "Error:", and so does anything appended to the PDF failure prefix. */
  lemma ErrorMessages(m: string)
    ensures IsPrefix(ErrorPrefix, ImageOnlyPdf) && IsPrefix(ErrorPrefix, BinaryNotSupported)
    ensures IsPrefix(ErrorPrefix, PdfFailedPrefix + m)
  {
    assert ImageOnlyPdf[..|ErrorPrefix|] == ErrorPrefix;
    assert BinaryNotSupported[..|ErrorPrefix|] == ErrorPrefix;
    assert (PdfFailedPrefix + m)[..|ErrorPrefix|] == ErrorPrefix;
  }

  /**
   * The PDF branch: the stripped page texts, capped; an exception from the
   * library (on opening or on the first page that raised) is reported after
   * the failure prefix, and a PDF without text is refused as image-only.
   */
  function PdfExtraction(pdf: PdfReading): (r: Extraction)
    ensures r.Rejected? ==> IsPrefix(ErrorPrefix, r.message)
    ensures r.Extracted? ==> r.text != "" && |r.text| <= MaxResumeChars
    ensures pdf.OpenRaised? ==> r == Rejected(PdfFailedPrefix + pdf.message)
    ensures pdf.Opened? && PagesText(pdf.pages).Rejected? ==>
      r == Rejected(PdfFailedPrefix + PagesText(pdf.pages).message)
    ensures pdf.Opened? && PagesText(pdf.pages).Extracted? ==>
      && (r == Rejected(ImageOnlyPdf) <==> Strip(PagesText(pdf.pages).text) == "")
      && (r.Extracted? <==> Strip(PagesText(pdf.pages).text) != "")
      && (r.Extracted? ==> r.text == Cap(Strip(PagesText(pdf.pages).text)))
  {
    ErrorMessages(if pdf.OpenRaised? then pdf.message
                  else if PagesText(pdf.pages).Rejected? then PagesText(pdf.pages).message else "");
    match pdf
    case OpenRaised(m) => Rejected(PdfFailedPrefix + m)
    case Opened(pages) =>
      match PagesText(pages)
      case Rejected(m) => Rejected(PdfFailedPrefix + m)
      case Extracted(t) => if Strip(t) == "" then Rejected(ImageOnlyPdf) else Extracted(Cap(Strip(t)))
  }

  /** The text branch: UTF-8 with errors dropped, stripped; when that is empty, Latin-1, stripped. */
  function PlainText(bytes: seq<Byte>): (t: string)
    ensures |t| <= |bytes|
    ensures Strip(DecodeIgnore(bytes)) != "" ==> t == Strip(DecodeIgnore(bytes))
    ensures Strip(DecodeIgnore(bytes)) == "" ==> t == Strip(Latin1(bytes))
  {
    var text := Strip(DecodeIgnore(bytes));
    if text != "" then text
    else
      var latin := Latin1(bytes);
      Strip(latin)
  }

  /** What `extract_resume_text(bytes)` does, told apart into text and rejection. */
  function Extract(bytes: seq<Byte>, pdf: PdfReading): (r: Extraction)
    ensures StartsWithBytes(PdfMagic, bytes) ==> r == PdfExtraction(pdf)
    ensures !StartsWithBytes(PdfMagic, bytes) && 0 in bytes ==> r == Rejected(BinaryNotSupported)
    ensures !StartsWithBytes(PdfMagic, bytes) && 0 !in bytes ==> r == Extracted(Cap(PlainText(bytes)))
    ensures r.Rejected? ==> IsPrefix(ErrorPrefix, r.message)
    ensures r.Extracted? ==> |r.text| <= MaxResumeChars
  {
    ErrorMessages("");
    if StartsWithBytes(PdfMagic, bytes) then PdfExtraction(pdf)
    else if 0 in bytes then Rejected(BinaryNotSupported)
    else Extracted(Cap(PlainText(bytes)))
  }

  /** The string the function returns for an outcome. */
  function Returned(r: Extraction): string {
    match r
    case Extracted(t) => t
    case Rejected(m) => m
  }

  /** `bytes.startswith(prefix)` on byte strings. */
  predicate StartsWithBytes(p: seq<Byte>, s: seq<Byte>) {
    |p| <= |s| && s[..|p|] == p
  }

  /**
   * The `for page in reader.pages` loop: appends each page's text, and stops
   * at the first page that raises.
   */
  method ReadPages(pages: seq<PageText>) returns (r: Extraction)
    ensures r == PagesText(pages)
  {
    var text := "";
    var i := 0;
    while i < |pages|
      invariant 0 <= i <= |pages|
      invariant PagesText(pages[..i]) == Extracted(text)
    {
      assert pages[..i + 1][..i] == pages[..i];
      match pages[i] {
        case PageRaised(m) =>
          FirstRaiseWins(pages, i + 1);
          return Rejected(m);
        case PageText(t) =>
          text := text + t;
      }
      i := i + 1;
    }
    assert pages[..i] == pages;
    return Extracted(text);
  }

  /**
   * `extract_resume_text`: dispatches on the "%PDF" signature, reads the PDF
   * page by page, or rejects binary input and decodes text; caps the text at
   * 20000 characters.
   */
  method ExtractResumeText(bytes: seq<Byte>, pdf: PdfReading) returns (text: string)
    ensures text == Returned(Extract(bytes, pdf))
  {
    ghost var expected := Extract(bytes, pdf);
    text := "";
    if |bytes| >= 4 && bytes[..4] == PdfMagic {
      assert expected == PdfExtraction(pdf);
      match pdf {
        case OpenRaised(m) =>
          return PdfFailedPrefix + m;
        case Opened(pages) =>
          var read := ReadPages(pages);
          if read.Rejected? {
            return PdfFailedPrefix + read.message;
          }
          text := Strip(read.text);
          if text == "" {
            return ImageOnlyPdf;
          }
          assert expected == Extracted(Cap(text));
      }
    } else {
      if 0 in bytes {
        return BinaryNotSupported;
      }
      text := Strip(DecodeIgnore(bytes));
      if text == "" {
        text := Strip(Latin1(bytes));
      }
      assert expected == Extracted(Cap(text));
    }
    if |text| > MaxResumeChars {
      text := text[..MaxResumeChars];
    }
  }

  /** Once a page has raised, the pages after it change nothing: the first exception is the one reported. */
  lemma {:induction false} FirstRaiseWins(pages: seq<PageText>, k: nat)
    requires k <= |pages| && PagesText(pages[..k]).Rejected?
    ensures PagesText(pages) == PagesText(pages[..k])
    decreases |pages| - k
  {
    if k < |pages| {
      var next := pages[..k + 1];
      assert next[..k] == pages[..k];
      assert PagesText(next) == PagesText(pages[..k]);
      FirstRaiseWins(pages, k + 1);
    } else {
      assert pages[..k] == pages;
    }
  }

  /** Page texts are joined in page order and nothing is dropped between them. */
  lemma {:induction false} PagesTextAppend(pages: seq<PageText>, t: string)
    requires PagesText(pages).Extracted?
    ensures PagesText(pages + [PageText(t)]) == Extracted(PagesText(pages).text + t)
  {
    assert (pages + [PageText(t)])[..|pages|] == pages;
  }

  /** A plain ASCII file without NUL bytes comes back as its own stripped text, at most 20000 characters of it. */
  lemma AsciiTextFile(bytes: seq<Byte>, pdf: PdfReading)
    requires IsAscii(bytes) && 0 !in bytes && !StartsWithBytes(PdfMagic, bytes)
    requires Strip(Latin1(bytes)) != ""
    ensures Extract(bytes, pdf) == Extracted(Cap(Strip(Latin1(bytes))))
  {
    AsciiDecodesAlike(bytes);
  }

  /** A UTF-8 text file without NUL characters comes back as its own stripped text. */
  lemma Utf8TextFile(s: string, pdf: PdfReading)
    requires 0 !in Encode(s) && !StartsWithBytes(PdfMagic, Encode(s))
    requires Strip(s) != ""
    ensures Extract(Encode(s), pdf) == Extracted(Cap(Strip(s)))
  {
    DecodeEncode(s);
  }
}
