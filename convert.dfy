/**
 * DOCX-to-PDF conversion (`_convert_docx_to_pdf_with_libreoffice` and `convert_docx_to_pdf`
 * in src/asx_mcp/pipeline.py).
 *
 * The filesystem is a `Disk`: a map from (resolved) path to file size. The converters are
 * collaborators whose behaviour is given: for each run, the message of the exception it
 * raises, if any, and the size of the PDF it leaves at its target path, if any. A move or a
 * copy that raises is given the same way, by its message. The specification is a chain of
 * pure steps (`LibreOfficeStep`, the three docx2pdf attempts, `Conversion`); the methods
 * carry the steps out on a `Disk` and are proved to agree with them.
 */
module Convert {
  import opened Results
  import opened Text
  import Url
  import Pipeline

  // ---------------------------------------------------------------------------------------
  // Paths

  /** `Path(p).parent`. */
  function Parent(p: string): string {
    match Url.LastIndexOf(p, '/')
    case None => "."
    case Some(i) => if i == 0 then "/" else p[..i]
  }

  /** `Path(p).name`. */
  function Name(p: string): string {
    match Url.LastIndexOf(p, '/')
    case None => p
    case Some(i) => p[i + 1..]
  }

  /** `PurePath.stem` of a file name: the name without its last suffix. */
  function Stem(name: string): string {
    match Url.LastIndexOf(name, '.')
    case None => name
    case Some(i) => if 0 < i < |name| - 1 then name[..i] else name
  }

  /** `Path(p).with_suffix(suffix)`. */
  function WithSuffix(p: string, suffix: string): string {
    Pipeline.JoinPath(Parent(p), Stem(Name(p)) + suffix)
  }

  /** Where LibreOffice writes its PDF: `output_pdf.parent / f"{input_docx.stem}.pdf"`. */
  function GeneratedPdf(input: string, output: string): string {
    Pipeline.JoinPath(Parent(output), Stem(Name(input)) + ".pdf")
  }

  /** `input_docx.with_suffix(".pdf")`. */
  function InPlacePdf(input: string): string { WithSuffix(input, ".pdf") }

  /** `output_pdf.parent / ".pdf-staging" / input_docx.name`. */
  function StagingDocx(input: string, output: string): string {
    Pipeline.JoinPath(Pipeline.JoinPath(Parent(output), ".pdf-staging"), Name(input))
  }

  function StagingPdf(input: string, output: string): string {
    WithSuffix(StagingDocx(input, output), ".pdf")
  }

  // ---------------------------------------------------------------------------------------
  // Files

  type Files = map<string, nat>

  /** `p.exists() and p.stat().st_size > 0`. */
  predicate Ready(files: Files, p: string) { p in files && files[p] > 0 }

  /** `shutil.move(src, dst)`. */
  function Moved(files: Files, src: string, dst: string): Files
    requires src in files
  {
    (files - {src})[dst := files[src]]
  }

  /** `shutil.copy2(src, dst)`; a missing source copies nothing. */
  function Copied(files: Files, src: string, dst: string): Files {
    if src in files then files[dst := files[src]] else files
  }

  /** `f` and `g` agree on every path outside `changed`. */
  ghost predicate SameExcept(f: Files, g: Files, changed: set<string>) {
    forall p :: p !in changed ==> (p in f <==> p in g) && (p in f ==> f[p] == g[p])
  }

  /** The filesystem the conversion reads and writes. */
  class Disk {
    var files: Files

    constructor (files: Files)
      ensures this.files == files
    {
      this.files := files;
    }

    /** A collaborator leaves a file of `size` bytes at `p`. */
    method Store(p: string, size: nat)
      modifies this
      ensures files == old(files)[p := size]
    {
      files := files[p := size];
    }

    /** `p.unlink()`. */
    method Remove(p: string)
      modifies this
      ensures files == old(files) - {p}
    {
      files := files - {p};
    }

    method Move(src: string, dst: string)
      requires src in files
      modifies this
      ensures files == Moved(old(files), src, dst)
    {
      files := (files - {src})[dst := files[src]];
    }

    method Copy(src: string, dst: string)
      modifies this
      ensures files == Copied(old(files), src, dst)
    {
      if src in files {
        files := files[dst := files[src]];
      }
    }
  }

  // ---------------------------------------------------------------------------------------
  // Collaborators

  /** One converter run: the message of the exception it raised, and the PDF it left behind. */
  datatype Attempt = Attempt(raised: Option<string>, produced: Option<nat>)

  /** The PDF an attempt leaves at `p`, if any. */
  function Produce(files: Files, p: string, a: Attempt): Files {
    match a.produced
    case Some(size) => files[p := size]
    case None => files
  }

  /** LibreOffice: the binary `_resolve_libreoffice_binary` finds, a run per timeout, a move. */
  datatype Office = Office(binary: Option<string>, run: int -> Attempt, moveFault: Option<string>)

  /** docx2pdf's three attempts and the file operations between them that can raise. */
  datatype Word = Word(
    direct: Attempt,
    inPlace: Attempt,
    inPlaceMoveFault: Option<string>,
    copyFault: Option<string>,
    staging: Attempt,
    stagingMoveFault: Option<string>)

  // ---------------------------------------------------------------------------------------
  // LibreOffice

  /** `_convert_docx_to_pdf_with_libreoffice`: its error message (`None` on success) and the files after it. */
  function LibreOfficeStep(files: Files, input: string, output: string, timeout: int, office: Office)
    : (r: (Option<string>, Files))
    ensures r.0.None? ==> Ready(r.1, output)
    ensures office.binary.None? ==> r == (Some("LibreOffice binary not found"), files)
  {
    if office.binary.None? then (Some("LibreOffice binary not found"), files)
    else
      var generated := GeneratedPdf(input, output);
      var run := office.run(timeout);
      var f := Produce(files, generated, run);
      if run.raised.Some? then (Some("LibreOffice convert failed: " + run.raised.value), f)
      else if generated !in f then (Some("LibreOffice did not output: " + generated), f)
      else if f[generated] == 0 then (Some("LibreOffice output is empty: " + generated), f)
      else if generated != output then
        if office.moveFault.Some? then (Some("LibreOffice output move failed: " + office.moveFault.value), f)
        else (None, Moved(f, generated, output))
      else (None, f)
  }

  method LibreOfficeConvert(disk: Disk, input: string, output: string, timeout: int, office: Office)
    returns (err: Option<string>)
    modifies disk
    ensures (err, disk.files) == LibreOfficeStep(old(disk.files), input, output, timeout, office)
  {
    if office.binary.None? {
      return Some("LibreOffice binary not found");
    }
    var generated := GeneratedPdf(input, output);
    var run := office.run(timeout);
    if run.produced.Some? {
      disk.Store(generated, run.produced.value);
    }
    if run.raised.Some? {
      return Some("LibreOffice convert failed: " + run.raised.value);
    }
    if generated !in disk.files {
      return Some("LibreOffice did not output: " + generated);
    }
    if disk.files[generated] == 0 {
      return Some("LibreOffice output is empty: " + generated);
    }
    if generated != output {
      if office.moveFault.Some? {
        return Some("LibreOffice output move failed: " + office.moveFault.value);
      }
      disk.Move(generated, output);
    }
    return None;
  }

  // ---------------------------------------------------------------------------------------
  // docx2pdf

  /** The state carried between attempts: the files and the `errors` list. */
  datatype Progress = Progress(files: Files, errors: seq<string>)

  /** `errors.append(prefix + str(exc))` when the step raised `exc`. */
  function Record(errors: seq<string>, prefix: string, raised: Option<string>): seq<string> {
    match raised
    case Some(m) => errors + [prefix + m]
    case None => errors
  }

  /** A converter run inside a `try`: the PDF it leaves at `p`, its exception recorded under `prefix`. */
  function Run(st: Progress, p: string, a: Attempt, prefix: string): Progress {
    Progress(Produce(st.files, p, a), Record(st.errors, prefix, a.raised))
  }

  /** `shutil.move(src, dst)` inside a `try` whose exception is recorded under `prefix`. */
  function TryMove(st: Progress, src: string, dst: string, fault: Option<string>, prefix: string): Progress
    requires src in st.files
  {
    Progress(if fault.None? then Moved(st.files, src, dst) else st.files, Record(st.errors, prefix, fault))
  }

  /** The prefixes under which the docx2pdf attempts record what raised. */
  const DirectFailed := "docx2pdf direct convert failed: "
  const InPlaceFailed := "docx2pdf in-place convert failed: "
  const InPlaceMoveFailed := "move in-place pdf failed: "
  const SetupFailed := "staging setup failed: "
  const StagingFailed := "docx2pdf staging convert failed: "
  const StagingMoveFailed := "staging move failed: "

  /** `m` starts with one of `prefixes`. */
  predicate Tagged(m: string, prefixes: seq<string>) {
    exists j :: 0 <= j < |prefixes| && StartsWith(m, prefixes[j])
  }

  /** `after` is `before` followed by messages each starting with one of `prefixes`. */
  predicate AppendsTagged(before: seq<string>, after: seq<string>, prefixes: seq<string>) {
    && |before| <= |after| && after[..|before|] == before
    && forall k :: |before| <= k < |after| ==> Tagged(after[k], prefixes)
  }

  lemma RecordAppends(errors: seq<string>, prefixes: seq<string>, j: nat, raised: Option<string>)
    requires j < |prefixes|
    ensures AppendsTagged(errors, Record(errors, prefixes[j], raised), prefixes)
  {
    if raised.Some? {
      var m := prefixes[j] + raised.value;
      assert m[..|prefixes[j]|] == prefixes[j];
      assert Record(errors, prefixes[j], raised)[|errors|] == m;
    }
  }

  lemma AppendsChain(a: seq<string>, b: seq<string>, c: seq<string>, prefixes: seq<string>)
    requires AppendsTagged(a, b, prefixes) && AppendsTagged(b, c, prefixes)
    ensures AppendsTagged(a, c, prefixes)
  {
    assert c[..|a|] == c[..|b|][..|a|];
    forall k | |a| <= k < |c|
      ensures Tagged(c[k], prefixes)
    {
      if k < |b| {
        assert c[k] == c[..|b|][k];
      }
    }
  }

  /** What the in-place attempt may record: its convert failure, then its move failure. */
  lemma InPlaceRecords(errors: seq<string>, word: Word)
    ensures forall e1 :: e1 == errors || e1 == Record(errors, InPlaceFailed, word.inPlace.raised) ==>
              AppendsTagged(errors, e1, [InPlaceFailed, InPlaceMoveFailed]) &&
              AppendsTagged(errors, Record(e1, InPlaceMoveFailed, word.inPlaceMoveFault), [InPlaceFailed, InPlaceMoveFailed])
  {
    var ps := [InPlaceFailed, InPlaceMoveFailed];
    var e1 := Record(errors, InPlaceFailed, word.inPlace.raised);
    RecordAppends(errors, ps, 0, word.inPlace.raised);
    assert AppendsTagged(errors, errors, ps);
    RecordAppends(errors, ps, 1, word.inPlaceMoveFault);
    RecordAppends(e1, ps, 1, word.inPlaceMoveFault);
    AppendsChain(errors, e1, Record(e1, InPlaceMoveFailed, word.inPlaceMoveFault), ps);
  }

  /** What the staging attempt may record: its set-up, convert and move failures, in turn. */
  lemma StagingRecords(errors: seq<string>, word: Word)
    ensures var e0 := Record(errors, SetupFailed, word.copyFault);
            var e1 := Record(e0, StagingFailed, word.staging.raised);
            forall e2 :: e2 == e1 || e2 == Record(e1, StagingMoveFailed, word.stagingMoveFault) ==>
              AppendsTagged(errors, e2, [SetupFailed, StagingFailed, StagingMoveFailed])
  {
    var ps := [SetupFailed, StagingFailed, StagingMoveFailed];
    var e0 := Record(errors, SetupFailed, word.copyFault);
    var e1 := Record(e0, StagingFailed, word.staging.raised);
    var e2 := Record(e1, StagingMoveFailed, word.stagingMoveFault);
    RecordAppends(errors, ps, 0, word.copyFault);
    RecordAppends(e0, ps, 1, word.staging.raised);
    RecordAppends(e1, ps, 2, word.stagingMoveFault);
    AppendsChain(errors, e0, e1, ps);
    AppendsChain(errors, e1, e2, ps);
  }

  /** Attempt 1: convert straight to the requested path. */
  function DirectAttempt(st: Progress, output: string, word: Word): (r: Progress)
    ensures AppendsTagged(st.errors, r.errors, [DirectFailed])
    ensures SameExcept(st.files, r.files, {output})
  {
    RecordAppends(st.errors, [DirectFailed], 0, word.direct.raised);
    Run(st, output, word.direct, DirectFailed)
  }

  /** Attempt 2: remove a stale PDF beside the DOCX, convert in place, then move it. */
  function InPlaceAttempt(st: Progress, input: string, output: string, word: Word): (r: Progress)
    ensures AppendsTagged(st.errors, r.errors, [InPlaceFailed, InPlaceMoveFailed])
  {
    var pdf := InPlacePdf(input);
    var s0 := Progress(if pdf in st.files && pdf != output then st.files - {pdf} else st.files, st.errors);
    var s1 := Run(s0, pdf, word.inPlace, InPlaceFailed);
    InPlaceRecords(st.errors, word);
    if Ready(s1.files, pdf) && pdf != output
    then TryMove(s1, pdf, output, word.inPlaceMoveFault, InPlaceMoveFailed)
    else s1
  }

  /** Attempt 3's set-up: copy the DOCX to `docx` in the staging folder and clear an old staged `pdf`. */
  function StagingSetup(st: Progress, input: string, docx: string, pdf: string, word: Word): (r: Progress)
    ensures AppendsTagged(st.errors, r.errors, [SetupFailed])
    ensures SameExcept(st.files, r.files, {docx, pdf})
  {
    RecordAppends(st.errors, [SetupFailed], 0, word.copyFault);
    if word.copyFault.Some? then Progress(st.files, st.errors + [SetupFailed + word.copyFault.value])
    else Progress(Copied(st.files, input, docx) - {pdf}, st.errors)
  }

  /** Attempt 3 up to the move: set up, convert the staged copy, move its PDF out. */
  function StagingRun(st: Progress, input: string, docx: string, pdf: string, output: string, word: Word): Progress
  {
    var s1 := Run(StagingSetup(st, input, docx, pdf, word), pdf, word.staging, StagingFailed);
    if Ready(s1.files, pdf)
    then TryMove(s1, pdf, output, word.stagingMoveFault, StagingMoveFailed)
    else s1
  }

  /** Attempt 3: `StagingRun` on the staging paths, then remove the staged DOCX. */
  function StagingAttempt(st: Progress, input: string, output: string, word: Word): (r: Progress)
    ensures AppendsTagged(st.errors, r.errors, [SetupFailed, StagingFailed, StagingMoveFailed])
  {
    StagingRecords(st.errors, word);
    var docx := StagingDocx(input, output);
    var s2 := StagingRun(st, input, docx, StagingPdf(input, output), output, word);
    Progress(s2.files - {docx}, s2.errors)
  }

  // ---------------------------------------------------------------------------------------
  // The whole conversion

  const AutoEngine := "auto"

  /** The engines under which LibreOffice is tried, and those under which docx2pdf is. */
  const LibreOfficeEngines: set<string> := {AutoEngine, "libreoffice", "soffice"}
  const Docx2PdfEngines: set<string> := {AutoEngine, "docx2pdf", "word", "microsoft-word"}

  /** `ASX_PDF_ENGINE`, stripped and lower-cased, `"auto"` when unset or empty. */
  function Engine(raw: Option<string>): (e: string)
    ensures |e| > 0
    ensures raw.Some? && |Strip(raw.value)| == 0 ==> e == AutoEngine
  {
    var e := Lower(Strip(match raw case Some(r) => r case None => AutoEngine));
    if |e| == 0 then AutoEngine else e
  }

  predicate AllowsLibreOffice(engine: string): (b: bool)
    ensures engine == AutoEngine ==> b
    ensures b && engine != AutoEngine ==> engine !in Docx2PdfEngines
  {
    engine in LibreOfficeEngines
  }

  predicate AllowsDocx2Pdf(engine: string): (b: bool)
    ensures engine == AutoEngine ==> b
    ensures b && engine != AutoEngine ==> engine !in LibreOfficeEngines
  {
    engine in Docx2PdfEngines
  }

  const UnsupportedEngine := "unsupported ASX_PDF_ENGINE: "
  const UnknownError := "unknown error"

  function FailurePrefix(input: string): string { "PDF conversion failed for " + input + ". Details: " }

  /** The `AsxReportError` raised once every allowed attempt has failed. */
  function Failure(input: string, errors: seq<string>, otherwise: string): (r: Result<string>)
    ensures r.Err? && StartsWith(r.error, FailurePrefix(input))
  {
    var message := FailurePrefix(input) + (if |errors| > 0 then Join(errors, "; ") else otherwise);
    assert message[..|FailurePrefix(input)|] == FailurePrefix(input);
    Err(message)
  }

  /** The paths a conversion may create, change or remove. */
  function Touched(input: string, output: string): set<string> {
    {GeneratedPdf(input, output), output, InPlacePdf(input), StagingDocx(input, output), StagingPdf(input, output)}
  }

  /** The state the docx2pdf attempts start from: the files after LibreOffice and its error, if any. */
  function AfterLibreOffice(files: Files, input: string, output: string, engine: string, timeout: int,
                            office: Office): (st: Progress)
    ensures |st.errors| <= 1
    ensures st.errors == [] <==> !AllowsLibreOffice(engine) || LibreOfficeStep(files, input, output, timeout, office).0.None?
  {
    var lo :=
      if AllowsLibreOffice(engine) then LibreOfficeStep(files, input, output, timeout, office) else (None, files);
    Progress(lo.1, if lo.0.Some? then [lo.0.value] else [])
  }

  /** The three docx2pdf attempts in turn, from the state after LibreOffice; the first usable PDF ends them. */
  function WordAttempts(s0: Progress, input: string, output: string, word: Word): (r: (Result<string>, Files))
    ensures r.0.Ok? ==> r.0.value == output && Ready(r.1, output)
    ensures r.0.Err? ==> StartsWith(r.0.error, FailurePrefix(input))
  {
    var s1 := DirectAttempt(s0, output, word);
    if Ready(s1.files, output) then (Ok(output), s1.files)
    else
      var s2 := InPlaceAttempt(s1, input, output, word);
      if Ready(s2.files, output) then (Ok(output), s2.files)
      else
        var s3 := StagingAttempt(s2, input, output, word);
        if Ready(s3.files, output) then (Ok(output), s3.files)
        else (Failure(input, s3.errors, UnknownError), s3.files)
  }

  /**
   * `convert_docx_to_pdf` under the engine `engine` and the LibreOffice timeout `timeout`: the
   * returned path or the raised message, and the files after it.
   */
  function Conversion(files: Files, input: string, output: string, engine: string,
                      timeout: int, office: Office, word: Word): (r: (Result<string>, Files))
    ensures r.0.Ok? ==> r.0.value == output && Ready(r.1, output)
    ensures r.0.Err? ==> StartsWith(r.0.error, FailurePrefix(input))
  {
    var s0 := AfterLibreOffice(files, input, output, engine, timeout, office);
    if AllowsLibreOffice(engine) && s0.errors == [] && Ready(s0.files, output) then (Ok(output), s0.files)
    else if !AllowsDocx2Pdf(engine) then
      (Failure(input, s0.errors, UnsupportedEngine + engine), s0.files)
    else WordAttempts(s0, input, output, word)
  }

  /** `Run` on the disk. */
  method RunConverter(disk: Disk, errors: seq<string>, p: string, a: Attempt, prefix: string)
    returns (errors': seq<string>)
    modifies disk
    ensures Progress(disk.files, errors') == Run(Progress(old(disk.files), errors), p, a, prefix)
  {
    errors' := errors;
    if a.produced.Some? {
      disk.Store(p, a.produced.value);
    }
    if a.raised.Some? {
      errors' := errors' + [prefix + a.raised.value];
    }
  }

  /** `TryMove` on the disk. */
  method MoveFile(disk: Disk, errors: seq<string>, src: string, dst: string, fault: Option<string>, prefix: string)
    returns (errors': seq<string>)
    requires src in disk.files
    modifies disk
    ensures Progress(disk.files, errors') == TryMove(Progress(old(disk.files), errors), src, dst, fault, prefix)
  {
    errors' := errors;
    if fault.Some? {
      errors' := errors' + [prefix + fault.value];
    } else {
      disk.Move(src, dst);
    }
  }

  /** Attempt 2 of `convert_docx_to_pdf` on the disk. */
  method InPlaceConvert(disk: Disk, errors: seq<string>, input: string, output: string, word: Word)
    returns (errors': seq<string>)
    modifies disk
    ensures Progress(disk.files, errors') == InPlaceAttempt(Progress(old(disk.files), errors), input, output, word)
  {
    var pdf := InPlacePdf(input);
    if pdf in disk.files && pdf != output {
      disk.Remove(pdf);
    }
    errors' := RunConverter(disk, errors, pdf, word.inPlace, InPlaceFailed);
    if Ready(disk.files, pdf) && pdf != output {
      errors' := MoveFile(disk, errors', pdf, output, word.inPlaceMoveFault, InPlaceMoveFailed);
    }
  }

  /** The set-up of attempt 3 on the disk. */
  method SetUpStaging(disk: Disk, errors: seq<string>, input: string, docx: string, pdf: string, word: Word)
    returns (errors': seq<string>)
    modifies disk
    ensures Progress(disk.files, errors') == StagingSetup(Progress(old(disk.files), errors), input, docx, pdf, word)
  {
    errors' := errors;
    if word.copyFault.Some? {
      errors' := errors' + [SetupFailed + word.copyFault.value];
    } else {
      disk.Copy(input, docx);
      if pdf in disk.files {
        disk.Remove(pdf);
      } else {
        assert disk.files - {pdf} == disk.files;
      }
    }
  }

  /** Attempt 3 of `convert_docx_to_pdf` on the disk. */
  method StagedConvert(disk: Disk, errors: seq<string>, input: string, output: string, word: Word)
    returns (errors': seq<string>)
    modifies disk
    ensures Progress(disk.files, errors') == StagingAttempt(Progress(old(disk.files), errors), input, output, word)
  {
    var stagingDocx := StagingDocx(input, output);
    var stagingPdf := StagingPdf(input, output);
    errors' := SetUpStaging(disk, errors, input, stagingDocx, stagingPdf, word);
    errors' := RunConverter(disk, errors', stagingPdf, word.staging, StagingFailed);
    if Ready(disk.files, stagingPdf) {
      errors' := MoveFile(disk, errors', stagingPdf, output, word.stagingMoveFault, StagingMoveFailed);
    }
    assert Progress(disk.files, errors') == StagingRun(Progress(old(disk.files), errors), input, stagingDocx, stagingPdf, output, word);
    if stagingDocx in disk.files {
      disk.Remove(stagingDocx);
    } else {
      assert disk.files - {stagingDocx} == disk.files;
    }
  }

  /**
   * `convert_docx_to_pdf(input_docx, output_pdf)` for resolved paths, with `ASX_PDF_ENGINE`
   * and `ASX_LIBREOFFICE_TIMEOUT_SECONDS` as read from the environment.
   */
  method ConvertDocxToPdf(disk: Disk, input: string, output: string, engineRaw: Option<string>,
                          timeoutRaw: Option<string>, office: Office, word: Word)
    returns (r: Result<string>)
    modifies disk
    ensures (r, disk.files)
         == Conversion(old(disk.files), input, output, Engine(engineRaw), Pipeline.LibreOfficeTimeout(timeoutRaw), office, word)
  {
    var engine := Engine(engineRaw);
    var timeout := Pipeline.LibreOfficeTimeout(timeoutRaw);
    r := ConvertWith(disk, input, output, engine, timeout, office, word);
  }

  /** The body of `convert_docx_to_pdf` once the engine and the timeout are read. */
  method ConvertWith(disk: Disk, input: string, output: string, engine: string,
                     timeout: int, office: Office, word: Word)
    returns (r: Result<string>)
    modifies disk
    ensures (r, disk.files) == Conversion(old(disk.files), input, output, engine, timeout, office, word)
  {
    var errors: seq<string> := [];
    var allowLibreOffice := AllowsLibreOffice(engine);
    var allowDocx2Pdf := AllowsDocx2Pdf(engine);
    ghost var lo :=
      if allowLibreOffice then LibreOfficeStep(old(disk.files), input, output, timeout, office) else (None, old(disk.files));

    if allowLibreOffice {
      var err := LibreOfficeConvert(disk, input, output, timeout, office);
      if err.Some? {
        errors := errors + [err.value];
      } else if Ready(disk.files, output) {
        return Ok(output);
      }
    }
    ghost var s0 := Progress(disk.files, errors);
    assert s0 == AfterLibreOffice(old(disk.files), input, output, engine, timeout, office);
    if !allowDocx2Pdf {
      return Failure(input, errors, UnsupportedEngine + engine);
    }

    // Attempt 1: straight to the requested path.
    errors := RunConverter(disk, errors, output, word.direct, DirectFailed);
    ghost var s1 := Progress(disk.files, errors);
    assert s1 == DirectAttempt(s0, output, word);
    if Ready(disk.files, output) {
      return Ok(output);
    }

    // Attempt 2: beside the DOCX, then moved.
    errors := InPlaceConvert(disk, errors, input, output, word);
    ghost var s2 := Progress(disk.files, errors);
    assert s2 == InPlaceAttempt(s1, input, output, word);
    if Ready(disk.files, output) {
      return Ok(output);
    }

    // Attempt 3: in the staging folder, then moved.
    errors := StagedConvert(disk, errors, input, output, word);
    assert Progress(disk.files, errors) == StagingAttempt(s2, input, output, word);
    if Ready(disk.files, output) {
      return Ok(output);
    }
    return Failure(input, errors, UnknownError);
  }
}
