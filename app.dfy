/** The page controller (App.tsx). Its state hooks become the fields of one
    object and each handler a method that updates them in the order the
    handler does. The file reader, the DOCX text extractor, the AI service,
    the page capture and the PDF writer are outside the model: what each of
    them returns, or throws, is a parameter of the handler that calls it. */
module App {
  import opened Types
  import opened Text
  import ResumeForm
  import GeminiService
  import Constants
  import ModernTemplate
  import opened Seqs

  /** The first file of the file input: its MIME type and its name. */
  datatype UploadFile = UploadFile(mime: string, name: string)

  /** What a `catch` block receives: an Error object, or any other value. */
  datatype Thrown = ErrorObject(message: string) | NonError

  /** A call that either returns a value or throws. */
  datatype Outcome<T> = Done(value: T) | Threw(thrown: Thrown)

  /** The branch of handleFileUpload a file takes. */
  datatype UploadKind = Docx | PdfOrText | Rejected(message: string)

  function DocxMime(): string
  {
    "application/" + "vnd.openxml" + "formats-office" + "document." + "wordprocessing" + "ml.document"
  }

  function DocMessage(): string
  {
    ".doc files are " + "not supported. " + "Please save as " + "a .docx or PDF " + "and try again."
  }

  /** The message for any other file; a missing type reads "unknown". */
  function UnsupportedMessage(mime: string): string
  {
    "Unsupported file type: " + (if mime == "" then "unknown" else mime)
    + ". Please upload " + "a PDF, DOCX, or " + "TXT file."
  }

  function ParseFailedMessage(): string
  {
    "Failed to parse " + "resume. Please " + "try again or " + "fill the form " + "manually."
  }

  function SummaryFailedMessage(): string
  {
    "Failed to " + "generate " + "summary. Please " + "ensure you have " + "some experience " + "and education " + "filled out."
  }

  function PdfFailedMessage(): string
  {
    "An error " + "occurred while " + "generating the " + "PDF. Please try " + "again."
  }

  /** The first test: the DOCX type, or a name ending in ".docx" in any case. */
  predicate DocxUpload(mime: string, name: string)
  {
    mime == DocxMime() || EndsWith(ToLower(name), ".docx")
  }

  /** The second test: the two types the AI reads. */
  predicate ReadByAi(mime: string)
  {
    mime == "application/pdf" || mime == "text/plain"
  }

  /** The third test: the old Word type, or a name ending in ".doc" in any case. */
  predicate OldWordUpload(mime: string, name: string)
  {
    mime == "application/msword" || EndsWith(ToLower(name), ".doc")
  }

  /** The three-way test of handleFileUpload, on the MIME type and the
      lower-cased file name: DOCX by type or by extension, PDF and plain
      text by type only, everything else is refused with a message. */
  function Classify(mime: string, name: string): (k: UploadKind)
    ensures k == Docx <==> DocxUpload(mime, name)
    ensures k == PdfOrText ==> mime == "application/pdf" || mime == "text/plain"
  {
    if DocxUpload(mime, name) then Docx
    else if ReadByAi(mime) then PdfOrText
    else if OldWordUpload(mime, name) then Rejected(DocMessage())
    else Rejected(UnsupportedMessage(mime))
  }

  /** The four branches of the test, taken in order: DOCX by type or name;
      otherwise PDF or text by type; otherwise the old Word format by type or
      name is refused with its own message; anything else is unsupported. */
  lemma ClassifyOutcomes(mime: string, name: string)
    ensures mime == DocxMime() ==> Classify(mime, name) == Docx
    ensures EndsWith(ToLower(name), ".docx") ==> Classify(mime, name) == Docx
    ensures !DocxUpload(mime, name) && ReadByAi(mime) ==> Classify(mime, name) == PdfOrText
    ensures !DocxUpload(mime, name) && !ReadByAi(mime) && OldWordUpload(mime, name) ==>
      Classify(mime, name) == Rejected(DocMessage())
    ensures !DocxUpload(mime, name) && !ReadByAi(mime) && !OldWordUpload(mime, name) ==>
      Classify(mime, name) == Rejected(UnsupportedMessage(mime))
  {
  }

  /** The name is compared lower-cased, so its case never matters. */
  lemma ClassifyIgnoresCase(mime: string, name: string)
    ensures Classify(mime, ToLower(name)) == Classify(mime, name)
  {
    ToLowerIdempotent(name);
  }

  /** PDF and text files are recognised by their type alone: a file that
      arrives without a type is refused as "unknown" unless its name ends in
      ".docx" or ".doc", whatever else the name says. */
  lemma TypelessFileRefused(name: string)
    requires !EndsWith(ToLower(name), ".docx") && !EndsWith(ToLower(name), ".doc")
    ensures Classify("", name) == Rejected(UnsupportedMessage(""))
    ensures "unknown" <= UnsupportedMessage("")[23..]
  {
    assert DocxMime() != "" by { assert |DocxMime()| > 0; }
  }

  /** The message shown for a thrown value: an Error's own message, a fixed
      text for anything else. */
  function ErrorMessage(t: Thrown): (m: string)
    ensures t.ErrorObject? ==> m == t.message
    ensures t.NonError? ==> m == ParseFailedMessage()
  {
    match t
    case ErrorObject(message) => message
    case NonError => ParseFailedMessage()
  }

  /** What the `try` block of handleFileUpload produces: the extracted
      document for a DOCX file, the normalised AI reply for a PDF or text
      file, or the error thrown on the way. */
  function UploadResult(f: UploadFile, extracted: Outcome<ResumeData>, reply: Outcome<GeminiService.ParsedResume>,
                        clock: GeminiService.Clock): (r: Outcome<ResumeData>)
    ensures Classify(f.mime, f.name) == Docx ==> r == extracted
    ensures Classify(f.mime, f.name) == PdfOrText ==>
      && (r.Done? <==> reply.Done?)
      && (r.Done? ==> r.value == GeminiService.NormalizeReply(reply.value, clock))
      && (r.Threw? ==> r.thrown == reply.thrown)
    ensures Classify(f.mime, f.name).Rejected? ==> r == Threw(ErrorObject(Classify(f.mime, f.name).message))
  {
    match Classify(f.mime, f.name)
    case Docx => extracted
    case PdfOrText =>
      (match reply
       case Done(p) => Done(GeminiService.NormalizeReply(p, clock))
       case Threw(t) => Threw(t))
    case Rejected(message) => Threw(ErrorObject(message))
  }

  /** The DOCX text extractor is consulted only for a DOCX file and the AI
      only for a PDF or text file. */
  lemma UploadConsultsOneReader(f: UploadFile, e1: Outcome<ResumeData>, e2: Outcome<ResumeData>,
                                r1: Outcome<GeminiService.ParsedResume>, r2: Outcome<GeminiService.ParsedResume>,
                                clock: GeminiService.Clock)
    ensures Classify(f.mime, f.name) != Docx ==> UploadResult(f, e1, r1, clock) == UploadResult(f, e2, r1, clock)
    ensures Classify(f.mime, f.name) != PdfOrText ==> UploadResult(f, e1, r1, clock) == UploadResult(f, e1, r2, clock)
  {
  }

  /** A PDF or text upload that succeeds yields distinct ids in every list,
      provided the clock readings all print with the same number of digits. */
  lemma PdfUploadHasDistinctIds(f: UploadFile, extracted: Outcome<ResumeData>,
                                reply: Outcome<GeminiService.ParsedResume>, clock: GeminiService.Clock, width: nat)
    requires Classify(f.mime, f.name) == PdfOrText && reply.Done?
    requires GeminiService.ClockWidth(clock, width)
    ensures UploadResult(f, extracted, reply, clock).Done?
    ensures DistinctIds(UploadResult(f, extracted, reply, clock).value)
  {
    GeminiService.ImportedIdsDistinct(reply.value, clock, width);
  }

  /** The file name of the download: every run of whitespace in the name
      becomes one underscore, then "_Resume.pdf" follows. */
  function DownloadFileName(name: string): (r: string)
    ensures EndsWith(r, "_Resume.pdf")
    ensures NoSpace(r)
    ensures NoSpace(name) ==> r == name + "_Resume.pdf"
  {
    var stem := ReplaceSpaceRuns(name, '_');
    EndsWithAppend(stem, "_Resume.pdf");
    SuffixHasNoSpace();
    NoSpaceAppend(stem, "_Resume.pdf");
    stem + "_Resume.pdf"
  }

  lemma SuffixHasNoSpace()
    ensures NoSpace("_Resume.pdf")
  {
    var suffix := "_Resume.pdf";
    forall i | 0 <= i < |suffix| ensures !IsSpace(suffix[i]) {
      assert suffix[i] in "_Resumepdf.";
    }
  }

  /** A first and a last name separated by whitespace download as
      "First_Last_Resume.pdf". */
  lemma FirstLastFileName(first: string, ws: string, last: string)
    requires NoSpace(first) && NoSpace(last)
    requires ws != [] && forall i :: 0 <= i < |ws| ==> IsSpace(ws[i])
    ensures DownloadFileName(first + ws + last) == first + "_" + last + "_Resume.pdf"
  {
    DownloadFileNameAtSpaceRun(first, ws, last);
  }

  /** A name split at a run of whitespace, the part before it not ending and
      the part after it not starting in whitespace, downloads under the two
      parts rewritten on their own and joined by one underscore. With an
      empty part this covers leading and trailing whitespace; applied again
      it covers any number of words. */
  lemma DownloadFileNameAtSpaceRun(a: string, ws: string, b: string)
    requires a == [] || !IsSpace(a[|a| - 1])
    requires ws != [] && forall i :: 0 <= i < |ws| ==> IsSpace(ws[i])
    requires b == [] || !IsSpace(b[0])
    ensures DownloadFileName(a + ws + b) == ReplaceSpaceRuns(a, '_') + "_" + ReplaceSpaceRuns(b, '_') + "_Resume.pdf"
  {
    SpaceRunBetween(a, ws, b, '_');
  }

  /** The section order the page starts with. */
  function InitialSectionOrder(): (order: seq<SectionKey>)
    ensures IsPermutation(order)
  {
    [SummaryKey, ExperienceKey, EducationKey, ProjectsKey, SkillsKey]
  }

  /** The `style` properties of the preview element that the download
      changes for the capture and puts back afterwards. */
  class PreviewElement {
    var transform: string
    var boxShadow: string

    constructor(transform: string, boxShadow: string)
      ensures this.transform == transform && this.boxShadow == boxShadow
    {
      this.transform := transform;
      this.boxShadow := boxShadow;
    }
  }

  class App {
    var resumeData: ResumeData
    var selectedTemplate: Template
    var sectionOrder: seq<SectionKey>
    var isLoading: bool
    var isParsing: bool
    var isDownloading: bool
    var error: Option<string>

    /** The section order always names every key exactly once. */
    ghost predicate Valid()
      reads this
    {
      IsPermutation(sectionOrder)
    }

    /** What the preview shows: the selected template's component applied to
        the document and the section order. */
    function Preview(): Constants.View
      reads this
    {
      Constants.RenderWith(selectedTemplate, resumeData, sectionOrder)
    }

    /** With the Modern template selected, the preview shows every section
        exactly once, sidebar and main column together, except projects when
        there are none; the section order only decides where in the main
        column each section goes. */
    lemma ModernPreviewShowsEverySection()
      requires Valid() && selectedTemplate == Modern
      ensures Preview().ModernView?
      ensures var p := Preview().modern;
        forall k :: multiset(ModernTemplate.Keys(p.sidebar) + ModernTemplate.Keys(p.main))[k]
          == if k == ProjectsKey && |resumeData.projects| == 0 then 0 else 1
      ensures ModernTemplate.Keys(Preview().modern.main) == Filter(sectionOrder, ModernTemplate.ShownInMain(resumeData))
    {
      ModernTemplate.EverySectionOnce(resumeData, sectionOrder);
      ModernTemplate.MainFollowsOrder(resumeData, sectionOrder);
    }

    /** The `useState` initial values. */
    constructor()
      ensures Valid()
      ensures resumeData == Constants.InitialResumeData()
      ensures selectedTemplate == Constants.Templates()[0]
      ensures sectionOrder == InitialSectionOrder()
      ensures !isLoading && !isParsing && !isDownloading && error == None
    {
      resumeData := Constants.InitialResumeData();
      selectedTemplate := Constants.Templates()[0];
      sectionOrder := InitialSectionOrder();
      isLoading := false;
      isParsing := false;
      isDownloading := false;
      error := None;
    }

    /** handleTemplateSelect. */
    method SelectTemplate(t: Template)
      requires Valid()
      modifies this
      ensures Valid()
      ensures selectedTemplate == t
      ensures resumeData == old(resumeData) && sectionOrder == old(sectionOrder) && error == old(error)
      ensures isLoading == old(isLoading) && isParsing == old(isParsing) && isDownloading == old(isDownloading)
    {
      selectedTemplate := t;
    }

    /** The form's `setResumeData` with one of its edits. */
    method EditForm(e: ResumeForm.FormEdit)
      requires Valid()
      modifies this
      ensures Valid()
      ensures resumeData == ResumeForm.ApplyEdit(old(resumeData), e)
      ensures old(DistinctIds(resumeData)) && ResumeForm.FreshAdd(old(resumeData), e) ==> DistinctIds(resumeData)
      ensures selectedTemplate == old(selectedTemplate) && sectionOrder == old(sectionOrder) && error == old(error)
      ensures isLoading == old(isLoading) && isParsing == old(isParsing) && isDownloading == old(isDownloading)
    {
      if DistinctIds(resumeData) && ResumeForm.FreshAdd(resumeData, e) {
        ResumeForm.EditKeepsDistinctIds(resumeData, e);
      }
      resumeData := ResumeForm.ApplyEdit(resumeData, e);
    }

    /** handleFileUpload. Without a file nothing happens. Otherwise the
        document is replaced when the `try` block succeeds and kept when it
        throws, the error banner shows what was thrown, and the parsing flag
        is down again at the end. */
    method HandleFileUpload(file: Option<UploadFile>, extracted: Outcome<ResumeData>,
                            reply: Outcome<GeminiService.ParsedResume>, clock: GeminiService.Clock)
      requires Valid()
      modifies this
      ensures Valid()
      ensures file.None? ==>
        resumeData == old(resumeData) && error == old(error) && isParsing == old(isParsing)
      ensures file.Some? ==>
        var r := UploadResult(file.value, extracted, reply, clock);
        && !isParsing
        && resumeData == (if r.Done? then r.value else old(resumeData))
        && error == (if r.Done? then None else Some(ErrorMessage(r.thrown)))
      ensures selectedTemplate == old(selectedTemplate) && sectionOrder == old(sectionOrder)
      ensures isLoading == old(isLoading) && isDownloading == old(isDownloading)
    {
      if file.None? {
        return;
      }
      isParsing := true;
      error := None;
      var parsed := UploadResult(file.value, extracted, reply, clock);
      Settle(parsed);
    }

    /** The end of handleFileUpload's `try`/`catch`/`finally`: the document is
        replaced on success, the banner shows the error's message otherwise,
        and parsing is over either way. */
    method Settle(parsed: Outcome<ResumeData>)
      requires Valid()
      modifies this
      ensures Valid()
      ensures !isParsing
      ensures resumeData == (if parsed.Done? then parsed.value else old(resumeData))
      ensures error == (if parsed.Done? then old(error) else Some(ErrorMessage(parsed.thrown)))
      ensures selectedTemplate == old(selectedTemplate) && sectionOrder == old(sectionOrder)
      ensures isLoading == old(isLoading) && isDownloading == old(isDownloading)
    {
      match parsed {
        case Done(d) => resumeData := d;
        case Threw(t) => error := Some(ErrorMessage(t));
      }
      isParsing := false;
    }

    /** handleGenerateSummary. Returns the text the AI is asked about; the
        summary becomes the AI's reply, or the banner shows a fixed message
        whatever went wrong. */
    method HandleGenerateSummary(reply: Outcome<string>) returns (context: string)
      requires Valid()
      modifies this
      ensures Valid()
      ensures context == GeminiService.SummaryContext(old(resumeData))
      ensures !isLoading
      ensures reply.Done? ==> resumeData == old(resumeData).(summary := reply.value) && error == None
      ensures reply.Threw? ==> resumeData == old(resumeData) && error == Some(SummaryFailedMessage())
      ensures selectedTemplate == old(selectedTemplate) && sectionOrder == old(sectionOrder)
      ensures isParsing == old(isParsing) && isDownloading == old(isDownloading)
    {
      context := GeminiService.SummaryContext(resumeData);
      isLoading := true;
      error := None;
      match reply {
        case Done(summary) => resumeData := resumeData.(summary := summary);
        case Threw(_) => error := Some(SummaryFailedMessage());
      }
      isLoading := false;
    }

    /** handleDownloadPdf. Nothing happens without a preview element or while
        a download runs. Otherwise the element is captured with no scaling
        and no shadow, its own styles are put back afterwards, and the PDF is
        saved under the name's file name unless the capture throws. */
    method HandleDownloadPdf(preview: PreviewElement?, capture: Outcome<()>)
      returns (captured: Option<(string, string)>, saved: Option<string>)
      requires Valid()
      modifies this, preview
      ensures Valid()
      ensures preview == null || old(isDownloading) ==>
        captured == None && saved == None && error == old(error) && isDownloading == old(isDownloading)
      ensures preview != null ==>
        preview.transform == old(preview.transform) && preview.boxShadow == old(preview.boxShadow)
      ensures preview != null && !old(isDownloading) ==>
        && captured == Some(("scale(1)", "none"))
        && !isDownloading
        && saved == (if capture.Done? then Some(DownloadFileName(resumeData.contact.name)) else None)
        && error == (if capture.Done? then None else Some(PdfFailedMessage()))
      ensures resumeData == old(resumeData) && selectedTemplate == old(selectedTemplate)
      ensures sectionOrder == old(sectionOrder) && isLoading == old(isLoading) && isParsing == old(isParsing)
    {
      captured, saved := None, None;
      if preview == null || isDownloading {
        return;
      }
      isDownloading := true;
      error := None;
      var originalTransform, originalBoxShadow := preview.transform, preview.boxShadow;
      preview.transform := "scale(1)";
      preview.boxShadow := "none";
      captured := Some((preview.transform, preview.boxShadow));
      match capture {
        case Done(_) => saved := Some(DownloadFileName(resumeData.contact.name));
        case Threw(_) => error := Some(PdfFailedMessage());
      }
      preview.transform := originalTransform;
      preview.boxShadow := originalBoxShadow;
      isDownloading := false;
    }
  }
}
