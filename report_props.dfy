/**
 * Properties of `run_asx_report`: the order of the collaborator calls, what each call is
 * given, the names of the artefacts, the default subject and body, and the returned fields.
 * They are stated of `RunFor`, the run for whatever code the ticker normalises to, and so
 * hold of `RunReport`, which is `RunFor` at `Ticker.NormalizeAsWritten(req.asxCode)`.
 */
module ReportProps {
  import opened Results
  import opened Text
  import Ticker
  import Pipeline
  import opened Report

  /** The place of each kind of call in a complete run. */
  function Position(c: Call): nat {
    match c
    case Capture(_, _) => 0
    case Render(_, _, _, _) => 1
    case ConvertPdf(_, _) => 2
    case Deliver(_, _, _, _) => 3
  }

  // ---------------------------------------------------------------------------------------
  // The order of the calls

  /** Nothing is captured, rendered, converted or sent when no output directory is writable. */
  lemma NoDirectoryNoCalls(req: Request, host: Pipeline.Host, co: Collaborators, clock: Clock, code: Option<string>)
    requires Pipeline.ResolvedOutputDir(req.outputDir, host).Err?
    ensures RunFor(req, host, co, clock, code)
         == Outcome(Err(Pipeline.ResolvedOutputDir(req.outputDir, host).error), [])
  {
  }

  /** The steps after the capture keep the order capture, render, convert, deliver. */
  lemma AfterCaptureOrder(req: Request, host: Pipeline.Host, co: Collaborators, clock: Clock, slug: string,
                          url: string, paths: Artifacts, captured: map<string, string>)
    ensures var o := AfterCapture(req, host, co, clock, slug, url, paths, captured);
            2 <= |o.calls| <= 4 && (forall i :: 0 <= i < |o.calls| ==> Position(o.calls[i]) == i)
            && (|o.calls| == 4 ==> req.sendEmail)
            && (o.result.Ok? ==> |o.calls| == if req.sendEmail then 4 else 3)
            && o.calls[0] == Capture(url, paths.image)
            && o.calls[1].Render? && o.calls[1].url == url && o.calls[1].image == paths.image
            && o.calls[1].docx == paths.docx
            && (|o.calls| >= 3 ==> o.calls[2] == ConvertPdf(paths.docx, paths.pdf))
            && (|o.calls| == 4 ==> o.calls[3].Deliver? && o.calls[3].pdf == paths.pdf)
  {
  }

  /**
   * The collaborators are called at most once each, in the order capture, render, convert,
   * deliver; delivery happens only when `send_email` is set, and a successful run has made
   * every call, delivery exactly when `send_email` is set.
   */
  lemma CallsInOrder(req: Request, host: Pipeline.Host, co: Collaborators, clock: Clock, code: Option<string>)
    ensures var o := RunFor(req, host, co, clock, code);
            |o.calls| <= 4 && (forall i :: 0 <= i < |o.calls| ==> Position(o.calls[i]) == i)
            && (|o.calls| == 4 ==> req.sendEmail)
            && (o.result.Ok? ==> |o.calls| == if req.sendEmail then 4 else 3)
  {
    var slug := Slug(code);
    match Pipeline.ResolvedOutputDir(req.outputDir, host)
    case Err(e) =>
    case Ok(dir) =>
      var paths := ArtifactsIn(dir, Stem(slug, clock.timestamp));
      var url := Ticker.BuildAsxUrl(code);
      match co.capture(url, paths.image)
      case Err(e) =>
      case Ok(captured) =>
        AfterCaptureOrder(req, host, co, clock, slug, url, paths, captured);
        assert RunFor(req, host, co, clock, code) == AfterCapture(req, host, co, clock, slug, url, paths, captured);
  }

  /**
   * What flows between the calls: the image is captured to `asx-{slug}-{timestamp}.png` in
   * the chosen directory, the renderer writes the `.docx` beside it, the converter turns that
   * `.docx` into the `.pdf` beside it, and that `.pdf` is what is sent.
   */
  lemma ArtifactsFlow(req: Request, host: Pipeline.Host, co: Collaborators, clock: Clock, code: Option<string>)
    requires RunFor(req, host, co, clock, code).calls != []
    ensures var o := RunFor(req, host, co, clock, code);
            var dir := Pipeline.ResolvedOutputDir(req.outputDir, host).value;
            var stem := "asx-" + Slug(code) + "-" + clock.timestamp;
            Pipeline.ResolvedOutputDir(req.outputDir, host).Ok?
            && o.calls[0] == Capture(Ticker.BuildAsxUrl(code), Pipeline.JoinPath(dir, stem + ".png"))
            && (|o.calls| >= 2 ==> o.calls[1].Render? && o.calls[1].docx == Pipeline.JoinPath(dir, stem + ".docx"))
            && (|o.calls| >= 3 ==> o.calls[2] == ConvertPdf(Pipeline.JoinPath(dir, stem + ".docx"),
                                                            Pipeline.JoinPath(dir, stem + ".pdf")))
            && (|o.calls| == 4 ==> o.calls[3].Deliver? && o.calls[3].pdf == Pipeline.JoinPath(dir, stem + ".pdf"))
  {
    var slug := Slug(code);
    match Pipeline.ResolvedOutputDir(req.outputDir, host)
    case Err(e) =>
    case Ok(dir) =>
      var paths := ArtifactsIn(dir, Stem(slug, clock.timestamp));
      var url := Ticker.BuildAsxUrl(code);
      match co.capture(url, paths.image)
      case Err(e) =>
      case Ok(captured) => AfterCaptureOrder(req, host, co, clock, slug, url, paths, captured);
  }

  // ---------------------------------------------------------------------------------------
  // Subject and body

  /** A non-empty caller subject titles the DOCX and the e-mail verbatim; likewise the body. */
  lemma GivenTextsVerbatim(req: Request, host: Pipeline.Host, co: Collaborators, clock: Clock, slug: string,
                           url: string, paths: Artifacts, captured: map<string, string>)
    ensures var o := AfterCapture(req, host, co, clock, slug, url, paths, captured);
            (req.subject.Some? && |req.subject.value| > 0 ==>
               o.calls[1].Render? && o.calls[1].title == req.subject.value
               && (|o.calls| == 4 ==> o.calls[3].Deliver? && o.calls[3].subject == req.subject.value))
            && (req.body.Some? && |req.body.value| > 0 && |o.calls| == 4 ==>
               o.calls[3].Deliver? && o.calls[3].body == req.body.value)
  {
  }

  /** Without a subject or body from the caller, both name the ticker and the generation time. */
  lemma DefaultTexts(req: Request, host: Pipeline.Host, co: Collaborators, clock: Clock, slug: string,
                     url: string, paths: Artifacts, captured: map<string, string>)
    requires req.subject.None? || req.subject == Some([])
    requires req.body.None? || req.body == Some([])
    ensures var o := AfterCapture(req, host, co, clock, slug, url, paths, captured);
            var subject := "Yahoo Finance Chart Report: " + Upper(slug) + " (" + clock.generatedAt + ")";
            o.calls[1].Render? && o.calls[1].title == subject
            && (|o.calls| == 4 ==>
                  o.calls[3] == Deliver(req.recipient, subject,
                                        "Attached is your Yahoo Finance chart report PDF.\n\nTicker: " + Upper(slug)
                                        + ".AX\nSource URL: " + url + "\nGenerated: " + clock.generatedAt,
                                        paths.pdf))
  {
  }

  // ---------------------------------------------------------------------------------------
  // The returned fields

  /**
   * A successful run reports the caller's recipient, the quote URL, the capture's final URL
   * (the quote URL when it gave none), the resolved artefact paths, the capture's selector,
   * attempt (default `"1"`) and refresh count (default `"0"`), and `send_email` as
   * `"true"` or `"false"`.
   */
  lemma ReportedFields(req: Request, host: Pipeline.Host, co: Collaborators, clock: Clock, slug: string,
                       url: string, paths: Artifacts, captured: map<string, string>)
    requires AfterCapture(req, host, co, clock, slug, url, paths, captured).result.Ok?
    ensures var r := AfterCapture(req, host, co, clock, slug, url, paths, captured).result.value;
            r.recipient == req.recipient && r.sourceUrl == url
            && r.finalUrl == (if "final_url" in captured then captured["final_url"] else url)
            && r.imagePath == host.resolve(paths.image) && r.docxPath == host.resolve(paths.docx)
            && r.pdfPath == host.resolve(paths.pdf)
            && "capture_selector" in captured && r.captureSelector == captured["capture_selector"]
            && r.captureAttempt == (if "capture_attempt" in captured then captured["capture_attempt"] else "1")
            && r.captureRefreshes == (if "capture_refreshes" in captured then captured["capture_refreshes"] else "0")
            && (r.sentEmail == "true" <==> req.sendEmail) && (r.sentEmail == "false" <==> !req.sendEmail)
  {
  }

  /** A capture without a selector fails only once the report is built: after the e-mail is sent. */
  lemma MissingSelectorAfterDelivery(req: Request, host: Pipeline.Host, co: Collaborators, clock: Clock,
                                     slug: string, url: string, paths: Artifacts, captured: map<string, string>)
    requires "capture_selector" !in captured
    requires var subject := OrDefault(req.subject, DefaultSubject(slug, clock.generatedAt));
             var body := OrDefault(req.body, DefaultBody(slug, url, clock.generatedAt));
             co.render(subject, url, paths.image, paths.docx).None? && co.convert(paths.docx, paths.pdf).None?
             && (req.sendEmail ==> co.deliver(req.recipient, subject, body, paths.pdf).None?)
    ensures var o := AfterCapture(req, host, co, clock, slug, url, paths, captured);
            o.result == Err(MissingSelector) && |o.calls| == (if req.sendEmail then 4 else 3)
            && (req.sendEmail ==> o.calls[3].Deliver?)
  {
  }

  /**
   * A successful run reports the caller's recipient and the quote URL of the ticker as
   * `normalize_asx_code` reads it; a missing or blank ticker reports the `HUB` quote URL.
   */
  lemma ReportOfRequest(req: Request, host: Pipeline.Host, co: Collaborators, clock: Clock)
    requires RunReport(req, host, co, clock).result.Ok?
    ensures var r := RunReport(req, host, co, clock).result.value;
            r.recipient == req.recipient && r.sourceUrl == Ticker.BuildAsxUrl(Ticker.NormalizeAsWritten(req.asxCode))
            && (req.asxCode.None? || |Strip(req.asxCode.value)| == 0 ==> r.sourceUrl == Ticker.BuildAsxUrl(None))
  {
    var code := Ticker.NormalizeAsWritten(req.asxCode);
    var slug := Slug(code);
    var dir := Pipeline.ResolvedOutputDir(req.outputDir, host).value;
    var paths := ArtifactsIn(dir, Stem(slug, clock.timestamp));
    var url := Ticker.BuildAsxUrl(code);
    var captured := co.capture(url, paths.image).value;
    ReportedFields(req, host, co, clock, slug, url, paths, captured);
  }
}
