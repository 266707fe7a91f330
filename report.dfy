/**
 * `run_asx_report` in src/asx_mcp/pipeline.py: normalise the ticker, choose the output
 * directory, capture the chart, render the DOCX, convert it to PDF and, when asked, e-mail
 * it, then report the artefacts.
 *
 * The browser capture, the DOCX renderer, the converter and the Mail delivery are
 * collaborators given by their outcome for each argument list; the two readings of the clock
 * are inputs. The run is recorded as the sequence of collaborator calls it makes, with
 * their arguments, so that the order and the arguments can be stated.
 */
module Report {
  import opened Results
  import opened Text
  import Ticker
  import Pipeline

  /** The arguments of `run_asx_report`. */
  datatype Request = Request(
    asxCode: Option<string>,
    recipient: string,
    outputDir: string,
    subject: Option<string>,
    body: Option<string>,
    sendEmail: bool)

  /** One call to a collaborator, with its arguments. */
  datatype Call =
    | Capture(url: string, image: string)
    | Render(title: string, url: string, image: string, docx: string)
    | ConvertPdf(docx: string, pdf: string)
    | Deliver(recipient: string, subject: string, body: string, pdf: string)

  /**
   * What each collaborator does with its arguments: the capture's result map or the message
   * it raises; for the others, the message they raise, if any.
   */
  datatype Collaborators = Collaborators(
    capture: (string, string) -> Result<map<string, string>>,
    render: (string, string, string, string) -> Option<string>,
    convert: (string, string) -> Option<string>,
    deliver: (string, string, string, string) -> Option<string>)

  /** The two readings of `datetime.now()`: the file-name stamp `%Y%m%d-%H%M%S` and the generation time. */
  datatype Clock = Clock(timestamp: string, generatedAt: string)

  /** The dictionary `run_asx_report` returns, one field per key. */
  datatype Report = Report(
    recipient: string,
    sourceUrl: string,
    finalUrl: string,
    imagePath: string,
    docxPath: string,
    pdfPath: string,
    captureSelector: string,
    captureAttempt: string,
    captureRefreshes: string,
    sentEmail: string)

  /** The outcome of a run: the report or the raised message, and the calls made. */
  datatype Outcome = Outcome(result: Result<Report>, calls: seq<Call>)

  /** The report as the dictionary the server caches and returns. */
  function Fields(r: Report): map<string, string> {
    map["recipient" := r.recipient, "source_url" := r.sourceUrl, "final_url" := r.finalUrl,
        "image_path" := r.imagePath, "docx_path" := r.docxPath, "pdf_path" := r.pdfPath,
        "capture_selector" := r.captureSelector, "capture_attempt" := r.captureAttempt,
        "capture_refreshes" := r.captureRefreshes, "sent_email" := r.sentEmail]
  }

  // ---------------------------------------------------------------------------------------
  // Names and texts

  const DefaultSlug := "HUB"

  /** `normalized_code or "HUB"`. */
  function Slug(code: Option<string>): (slug: string)
    ensures |slug| > 0
  {
    if code.Some? && |code.value| > 0 then code.value else DefaultSlug
  }

  /** `f"asx-{slug}-{timestamp}"`, the stem the three artefacts share. */
  function Stem(slug: string, timestamp: string): string {
    "asx-" + slug + "-" + timestamp
  }

  /** `value or default` for an optional string argument. */
  function OrDefault(value: Option<string>, default: string): string {
    if value.Some? && |value.value| > 0 then value.value else default
  }

  const SubjectPrefix := "Yahoo Finance Chart Report: "
  const BodyIntro := "Attached is your Yahoo Finance chart report PDF.\n\nTicker: "

  function DefaultSubject(slug: string, generatedAt: string): (r: string)
    ensures StartsWith(r, SubjectPrefix + Upper(slug)) && EndsWith(r, " (" + generatedAt + ")")
  {
    SubjectPrefix + Upper(slug) + " (" + generatedAt + ")"
  }

  function DefaultBody(slug: string, sourceUrl: string, generatedAt: string): (r: string)
    ensures StartsWith(r, BodyIntro + Upper(slug) + ".AX\n")
    ensures EndsWith(r, "\nSource URL: " + sourceUrl + "\nGenerated: " + generatedAt)
  {
    BodyIntro + Upper(slug) + ".AX\nSource URL: " + sourceUrl + "\nGenerated: " + generatedAt
  }

  /** `str(send_email).lower()`. */
  function BoolText(b: bool): string { if b then "true" else "false" }

  /** `d.get(key, default)`. */
  function Get(d: map<string, string>, key: string, default: string): string {
    if key in d then d[key] else default
  }

  /** The message of the `KeyError` that `capture_result["capture_selector"]` raises. */
  const MissingSelector := "'capture_selector'"

  /** The artefact paths of a run: the image, the DOCX and the PDF in `dir`. */
  datatype Artifacts = Artifacts(image: string, docx: string, pdf: string)

  /** `resolved_output_dir / f"{stem}.png"` and its `.docx` and `.pdf` siblings: three distinct files. */
  function ArtifactsIn(dir: string, stem: string): (r: Artifacts)
    ensures EndsWith(r.image, stem + ".png") && EndsWith(r.docx, stem + ".docx") && EndsWith(r.pdf, stem + ".pdf")
    ensures r.image != r.docx && r.docx != r.pdf && r.image != r.pdf
  {
    var r := Artifacts(Pipeline.JoinPath(dir, stem + ".png"), Pipeline.JoinPath(dir, stem + ".docx"),
                       Pipeline.JoinPath(dir, stem + ".pdf"));
    Pipeline.JoinPathParts(dir, stem + ".png");
    Pipeline.JoinPathParts(dir, stem + ".docx");
    Pipeline.JoinPathParts(dir, stem + ".pdf");
    assert r.image[|r.image| - 1] == 'g' && r.pdf[|r.pdf| - 1] == 'f' && r.docx[|r.docx| - 1] == 'x';
    r
  }

  /** The returned dictionary, built after delivery; it raises when the capture gave no selector. */
  function Assemble(req: Request, sourceUrl: string, captured: map<string, string>, paths: Artifacts,
                    resolve: string -> string): (r: Result<Report>)
    ensures r.Err? <==> "capture_selector" !in captured
  {
    if "capture_selector" !in captured then Err(MissingSelector)
    else Ok(Report(req.recipient, sourceUrl, Get(captured, "final_url", sourceUrl),
                   resolve(paths.image), resolve(paths.docx), resolve(paths.pdf),
                   captured["capture_selector"], Get(captured, "capture_attempt", "1"),
                   Get(captured, "capture_refreshes", "0"), BoolText(req.sendEmail)))
  }

  // ---------------------------------------------------------------------------------------
  // The run

  /** The message a collaborator raised, or the outcome of the rest of the run. */
  function OrElseRun(raised: Option<string>, calls: seq<Call>, rest: Outcome): Outcome {
    if raised.Some? then Outcome(Err(raised.value), calls) else rest
  }

  /** The run once the capture has produced `captured`. */
  function AfterCapture(req: Request, host: Pipeline.Host, co: Collaborators, clock: Clock, slug: string,
                        url: string, paths: Artifacts, captured: map<string, string>): (o: Outcome)
    ensures 2 <= |o.calls| <= 4
    ensures |o.calls| == 4 ==> req.sendEmail
  {
    var subject := OrDefault(req.subject, DefaultSubject(slug, clock.generatedAt));
    var body := OrDefault(req.body, DefaultBody(slug, url, clock.generatedAt));
    var rendered := [Capture(url, paths.image), Render(subject, url, paths.image, paths.docx)];
    var converted := rendered + [ConvertPdf(paths.docx, paths.pdf)];
    var delivered := converted + [Deliver(req.recipient, subject, body, paths.pdf)];
    OrElseRun(co.render(subject, url, paths.image, paths.docx), rendered,
      OrElseRun(co.convert(paths.docx, paths.pdf), converted,
        if req.sendEmail
        then OrElseRun(co.deliver(req.recipient, subject, body, paths.pdf), delivered,
               Outcome(Assemble(req, url, captured, paths, host.resolve), delivered))
        else Outcome(Assemble(req, url, captured, paths, host.resolve), converted)))
  }

  /** `run_asx_report(asx_code, recipient, output_dir, email_subject, email_body, send_email)`. */
  function RunReport(req: Request, host: Pipeline.Host, co: Collaborators, clock: Clock): (o: Outcome)
    ensures Pipeline.ResolvedOutputDir(req.outputDir, host).Err? ==> o.calls == [] && o.result.Err?
    ensures |o.calls| <= 4 && (|o.calls| == 4 ==> req.sendEmail)
  {
    RunFor(req, host, co, clock, Ticker.NormalizeAsWritten(req.asxCode))
  }

  /** The run once the ticker has been normalised to `code`. */
  function RunFor(req: Request, host: Pipeline.Host, co: Collaborators, clock: Clock, code: Option<string>): (o: Outcome)
    ensures Pipeline.ResolvedOutputDir(req.outputDir, host).Err? ==> o.calls == [] && o.result.Err?
    ensures |o.calls| <= 4 && (|o.calls| == 4 ==> req.sendEmail)
  {
    var slug := Slug(code);
    match Pipeline.ResolvedOutputDir(req.outputDir, host)
    case Err(e) => Outcome(Err(e), [])
    case Ok(dir) =>
      var paths := ArtifactsIn(dir, Stem(slug, clock.timestamp));
      var url := Ticker.BuildAsxUrl(code);
      match co.capture(url, paths.image)
      case Err(e) => Outcome(Err(e), [Capture(url, paths.image)])
      case Ok(captured) => AfterCapture(req, host, co, clock, slug, url, paths, captured)
  }

  /** `run_asx_report`, step by step, recording each collaborator call as it is made. */
  method RunAsxReport(req: Request, host: Pipeline.Host, co: Collaborators, clock: Clock)
    returns (result: Result<Report>, calls: seq<Call>)
    ensures Outcome(result, calls) == RunReport(req, host, co, clock)
  {
    var code := Ticker.NormalizeAsWritten(req.asxCode);
    result, calls := RunForCode(req, host, co, clock, code);
  }

  method RunForCode(req: Request, host: Pipeline.Host, co: Collaborators, clock: Clock, code: Option<string>)
    returns (result: Result<Report>, calls: seq<Call>)
    ensures Outcome(result, calls) == RunFor(req, host, co, clock, code)
  {
    var slug := Slug(code);
    var resolved := Pipeline.ResolveOutputDir(req.outputDir, host);
    if resolved.Err? {
      return Err(resolved.error), [];
    }
    var paths := ArtifactsIn(resolved.value, Stem(slug, clock.timestamp));
    var url := Ticker.BuildAsxUrl(code);
    var captured := co.capture(url, paths.image);
    if captured.Err? {
      return Err(captured.error), [Capture(url, paths.image)];
    }
    result, calls := Finish(req, host, co, clock, slug, url, paths, captured.value);
  }

  /** The steps after the capture: render, convert, deliver when asked, and assemble the report. */
  method Finish(req: Request, host: Pipeline.Host, co: Collaborators, clock: Clock, slug: string,
                url: string, paths: Artifacts, captured: map<string, string>)
    returns (result: Result<Report>, calls: seq<Call>)
    ensures Outcome(result, calls) == AfterCapture(req, host, co, clock, slug, url, paths, captured)
  {
    var subject := OrDefault(req.subject, DefaultSubject(slug, clock.generatedAt));
    var body := OrDefault(req.body, DefaultBody(slug, url, clock.generatedAt));
    calls := [Capture(url, paths.image), Render(subject, url, paths.image, paths.docx)];
    var renderError := co.render(subject, url, paths.image, paths.docx);
    if renderError.Some? {
      return Err(renderError.value), calls;
    }
    calls := calls + [ConvertPdf(paths.docx, paths.pdf)];
    var convertError := co.convert(paths.docx, paths.pdf);
    if convertError.Some? {
      return Err(convertError.value), calls;
    }
    if req.sendEmail {
      calls := calls + [Deliver(req.recipient, subject, body, paths.pdf)];
      var deliverError := co.deliver(req.recipient, subject, body, paths.pdf);
      if deliverError.Some? {
        return Err(deliverError.value), calls;
      }
    }
    result := Assemble(req, url, captured, paths, host.resolve);
  }
}
