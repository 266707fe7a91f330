/**
 * Properties of the DOCX-to-PDF conversion: what the LibreOffice step reports, which
 * collaborators an engine setting lets run, that the first attempt leaving a usable PDF ends
 * the conversion, the order in which failures are reported, and the paths it may touch.
 */
module ConvertProps {
  import opened Results
  import opened Text
  import opened Convert

  // ---------------------------------------------------------------------------------------
  // LibreOffice

  /** The LibreOffice step succeeds exactly when its run raises nothing, leaves a non-empty PDF and, if needed, moves it. */
  lemma LibreOfficeSucceedsIff(files: Files, input: string, output: string, timeout: int, office: Office)
    ensures var generated := GeneratedPdf(input, output);
            var run := office.run(timeout);
            LibreOfficeStep(files, input, output, timeout, office).0.None?
            <==> office.binary.Some? && run.raised.None? && Ready(Produce(files, generated, run), generated)
                 && (generated != output ==> office.moveFault.None?)
  {
  }

  /** On success the generated PDF is moved exactly when it is not already the requested file. */
  lemma LibreOfficeMovesOnlyElsewhere(files: Files, input: string, output: string, timeout: int, office: Office)
    requires LibreOfficeStep(files, input, output, timeout, office).0.None?
    ensures var generated := GeneratedPdf(input, output);
            var f := Produce(files, generated, office.run(timeout));
            LibreOfficeStep(files, input, output, timeout, office).1
            == if generated == output then f else Moved(f, generated, output)
  {
  }

  /** A run that leaves no PDF, or an empty one, is reported as a failure naming the path. */
  lemma LibreOfficeNeedsOutput(files: Files, input: string, output: string, timeout: int, office: Office)
    requires office.binary.Some? && office.run(timeout).raised.None?
    ensures var generated := GeneratedPdf(input, output);
            var f := Produce(files, generated, office.run(timeout));
            var r := LibreOfficeStep(files, input, output, timeout, office);
            (generated !in f ==> r == (Some("LibreOffice did not output: " + generated), f))
            && (generated in f && f[generated] == 0 ==> r == (Some("LibreOffice output is empty: " + generated), f))
  {
  }

  // ---------------------------------------------------------------------------------------
  // Engine gating

  /** A lower-case word read from `ASX_PDF_ENGINE` is the engine itself. */
  lemma EngineOfWord(s: string)
    requires |s| > 0 && All(s, IsLower)
    ensures Engine(Some(s)) == s
  {
    StripUnpadded(s);
    assert Lower(s) == s;
  }

  /** An unset or empty `ASX_PDF_ENGINE` means `auto`. */
  lemma EngineDefault()
    ensures Engine(None) == AutoEngine && Engine(Some([])) == AutoEngine
  {
    EngineOfWord(AutoEngine);
  }

  /** `auto` allows both converters. */
  lemma AutoAllowsBoth()
    ensures AllowsLibreOffice(AutoEngine) && AllowsDocx2Pdf(AutoEngine)
  {
  }

  /** Under an engine that does not allow LibreOffice, what LibreOffice would do is irrelevant. */
  lemma LibreOfficeOnlyWhenAllowed(files: Files, input: string, output: string, engine: string, timeout: int,
                                 office: Office, office': Office, word: Word)
    requires !AllowsLibreOffice(engine)
    ensures Conversion(files, input, output, engine, timeout, office, word)
         == Conversion(files, input, output, engine, timeout, office', word)
  {
  }

  /** Under an engine that does not allow docx2pdf, what docx2pdf would do is irrelevant. */
  lemma Docx2PdfOnlyWhenAllowed(files: Files, input: string, output: string, engine: string, timeout: int,
                                office: Office, word: Word, word': Word)
    requires !AllowsDocx2Pdf(engine)
    ensures Conversion(files, input, output, engine, timeout, office, word)
         == Conversion(files, input, output, engine, timeout, office, word')
  {
  }

  /** An engine allowing neither converter changes nothing and names itself in the error. */
  lemma UnsupportedEngineFails(files: Files, input: string, output: string, engine: string, timeout: int,
                               office: Office, word: Word)
    requires !AllowsLibreOffice(engine) && !AllowsDocx2Pdf(engine)
    ensures Conversion(files, input, output, engine, timeout, office, word)
         == (Err(FailurePrefix(input) + UnsupportedEngine + engine), files)
  {
    assert FailurePrefix(input) + (UnsupportedEngine + engine) == FailurePrefix(input) + UnsupportedEngine + engine;
  }

  // ---------------------------------------------------------------------------------------
  // The first usable PDF ends the conversion

  /** A successful LibreOffice step returns the requested path and runs no docx2pdf attempt. */
  lemma LibreOfficeSuccessEnds(files: Files, input: string, output: string, engine: string, timeout: int,
                               office: Office, word: Word)
    requires AllowsLibreOffice(engine) && LibreOfficeStep(files, input, output, timeout, office).0.None?
    ensures Conversion(files, input, output, engine, timeout, office, word)
         == (Ok(output), LibreOfficeStep(files, input, output, timeout, office).1)
  {
  }

  /** When the direct attempt leaves a usable PDF, the later attempts do not run. */
  lemma DirectSuccessEnds(files: Files, input: string, output: string, engine: string, timeout: int,
                          office: Office, word: Word, word': Word)
    requires AllowsDocx2Pdf(engine) && word'.direct == word.direct
    requires Ready(DirectAttempt(AfterLibreOffice(files, input, output, engine, timeout, office), output, word).files, output)
    ensures Conversion(files, input, output, engine, timeout, office, word)
         == Conversion(files, input, output, engine, timeout, office, word')
    ensures Conversion(files, input, output, engine, timeout, office, word).0 == Ok(output)
  {
  }

  /** When the in-place attempt leaves a usable PDF, the staging attempt does not run. */
  lemma InPlaceSuccessEnds(files: Files, input: string, output: string, engine: string, timeout: int,
                           office: Office, word: Word, word': Word)
    requires AllowsDocx2Pdf(engine)
    requires word'.direct == word.direct && word'.inPlace == word.inPlace && word'.inPlaceMoveFault == word.inPlaceMoveFault
    requires var s1 := DirectAttempt(AfterLibreOffice(files, input, output, engine, timeout, office), output, word);
             Ready(InPlaceAttempt(s1, input, output, word).files, output)
    ensures Conversion(files, input, output, engine, timeout, office, word)
         == Conversion(files, input, output, engine, timeout, office, word')
    ensures Conversion(files, input, output, engine, timeout, office, word).0 == Ok(output)
  {
  }

  // ---------------------------------------------------------------------------------------
  // Failure reports

  /** A step that raises `m` and leaves nothing behind. */
  predicate Fails(a: Attempt, m: string) { a == Attempt(Some(m), None) }

  /**
   * With no LibreOffice binary, no earlier output and every docx2pdf attempt raising, the
   * error lists the four failures in the order they happened, joined by `"; "`.
   */
  lemma FailuresInOrder(files: Files, input: string, output: string, engine: string, timeout: int,
                        office: Office, word: Word, m1: string, m2: string, m3: string)
    requires AllowsLibreOffice(engine) && AllowsDocx2Pdf(engine)
    requires office.binary.None? && output !in files
    requires Fails(word.direct, m1) && Fails(word.inPlace, m2) && word.copyFault.None? && Fails(word.staging, m3)
    requires StagingDocx(input, output) != output
    ensures Conversion(files, input, output, engine, timeout, office, word).0
         == Err(FailurePrefix(input) + Join(["LibreOffice binary not found",
                                             "docx2pdf direct convert failed: " + m1,
                                             "docx2pdf in-place convert failed: " + m2,
                                             "docx2pdf staging convert failed: " + m3], "; "))
  {
    var e0, e1, e2, e3 := "LibreOffice binary not found", "docx2pdf direct convert failed: " + m1,
                          "docx2pdf in-place convert failed: " + m2, "docx2pdf staging convert failed: " + m3;
    var s0 := AfterLibreOffice(files, input, output, engine, timeout, office);
    assert s0 == Progress(files, [e0]);
    var s1 := DirectAttempt(s0, output, word);
    assert s1 == Progress(files, [e0, e1]);
    var s2 := InPlaceAttempt(s1, input, output, word);
    assert output !in s2.files && s2.errors == [e0, e1, e2];
    var s3 := StagingAttempt(s2, input, output, word);
    assert output !in s3.files && s3.errors == [e0, e1, e2, e3];
    assert Conversion(files, input, output, engine, timeout, office, word).0 == Failure(input, [e0, e1, e2, e3], UnknownError);
  }

  /**
   * Whenever a conversion that allows docx2pdf fails, its details are the LibreOffice
   * message (only when LibreOffice was allowed), then what the direct attempt recorded, then
   * what the in-place attempt recorded, then what the staging attempt recorded, joined by
   * `"; "`, or `unknown error` when nothing was recorded.
   */
  lemma FailureReportsStagesInOrder(files: Files, input: string, output: string, engine: string, timeout: int,
                                    office: Office, word: Word)
    requires AllowsDocx2Pdf(engine)
    requires Conversion(files, input, output, engine, timeout, office, word).0.Err?
    ensures var s0 := AfterLibreOffice(files, input, output, engine, timeout, office);
            var s1 := DirectAttempt(s0, output, word);
            var s2 := InPlaceAttempt(s1, input, output, word);
            var s3 := StagingAttempt(s2, input, output, word);
            && (AllowsLibreOffice(engine) ==>
                  LibreOfficeStep(files, input, output, timeout, office).0.Some? &&
                  s0.errors == [LibreOfficeStep(files, input, output, timeout, office).0.value])
            && (!AllowsLibreOffice(engine) ==> s0.errors == [])
            && AppendsTagged(s0.errors, s1.errors, [DirectFailed])
            && AppendsTagged(s1.errors, s2.errors, [InPlaceFailed, InPlaceMoveFailed])
            && AppendsTagged(s2.errors, s3.errors, [SetupFailed, StagingFailed, StagingMoveFailed])
            && Conversion(files, input, output, engine, timeout, office, word).0 == Failure(input, s3.errors, UnknownError)
  {
  }

  /** When nothing raises and nothing is produced, a docx2pdf-only engine reports `unknown error`. */
  lemma SilentFailure(files: Files, input: string, output: string, engine: string, timeout: int,
                      office: Office, word: Word)
    requires !AllowsLibreOffice(engine) && AllowsDocx2Pdf(engine) && output !in files
    requires word.direct == word.inPlace == word.staging == Attempt(None, None) && word.copyFault.None?
    requires StagingDocx(input, output) != output
    ensures Conversion(files, input, output, engine, timeout, office, word).0
         == Err(FailurePrefix(input) + UnknownError)
  {
    var s0 := AfterLibreOffice(files, input, output, engine, timeout, office);
    var s1 := DirectAttempt(s0, output, word);
    var s2 := InPlaceAttempt(s1, input, output, word);
    assert output !in s2.files && s2.errors == [];
    var s3 := StagingAttempt(s2, input, output, word);
    assert output !in s3.files && s3.errors == [];
  }

  // ---------------------------------------------------------------------------------------
  // The paths a conversion touches

  lemma SameExceptChain(f: Files, g: Files, h: Files, a: set<string>, b: set<string>, c: set<string>)
    requires SameExcept(f, g, a) && SameExcept(g, h, b) && a + b <= c
    ensures SameExcept(f, h, c)
  {
  }

  lemma LibreOfficeFrame(files: Files, input: string, output: string, timeout: int, office: Office)
    ensures SameExcept(files, LibreOfficeStep(files, input, output, timeout, office).1, {GeneratedPdf(input, output), output})
  {
  }

  lemma InPlaceFrame(st: Progress, input: string, output: string, word: Word)
    ensures SameExcept(st.files, InPlaceAttempt(st, input, output, word).files, {InPlacePdf(input), output})
  {
  }

  lemma StagingFrame(st: Progress, input: string, output: string, word: Word)
    ensures SameExcept(st.files, StagingAttempt(st, input, output, word).files,
                       {StagingDocx(input, output), StagingPdf(input, output), output})
  {
    var docx, pdf := StagingDocx(input, output), StagingPdf(input, output);
    var s0 := StagingSetup(st, input, docx, pdf, word);
    assert SameExcept(st.files, s0.files, {docx, pdf});
    var s2 := StagingRun(st, input, docx, pdf, output, word);
    assert SameExcept(s0.files, s2.files, {pdf, output});
    SameExceptChain(st.files, s0.files, s2.files, {docx, pdf}, {pdf, output}, {docx, pdf, output});
  }

  /** Each state the conversion passes through differs from the start only on `Touched`. */
  lemma StagesFrame(files: Files, input: string, output: string, engine: string, timeout: int,
                    office: Office, word: Word)
    ensures var s0 := AfterLibreOffice(files, input, output, engine, timeout, office);
            var s1 := DirectAttempt(s0, output, word);
            var s2 := InPlaceAttempt(s1, input, output, word);
            var s3 := StagingAttempt(s2, input, output, word);
            SameExcept(files, s0.files, Touched(input, output)) && SameExcept(files, s1.files, Touched(input, output))
            && SameExcept(files, s2.files, Touched(input, output)) && SameExcept(files, s3.files, Touched(input, output))
  {
    var touched := Touched(input, output);
    var s0 := AfterLibreOffice(files, input, output, engine, timeout, office);
    LibreOfficeFrame(files, input, output, timeout, office);
    assert SameExcept(files, s0.files, touched);
    var s1 := DirectAttempt(s0, output, word);
    SameExceptChain(files, s0.files, s1.files, touched, {output}, touched);
    var s2 := InPlaceAttempt(s1, input, output, word);
    InPlaceFrame(s1, input, output, word);
    SameExceptChain(files, s1.files, s2.files, touched, {InPlacePdf(input), output}, touched);
    var s3 := StagingAttempt(s2, input, output, word);
    StagingFrame(s2, input, output, word);
    SameExceptChain(files, s2.files, s3.files, touched,
                    {StagingDocx(input, output), StagingPdf(input, output), output}, touched);
  }

  /** The files the docx2pdf attempts leave are those of the attempt at which they stopped. */
  lemma StoppingAttempt(s0: Progress, input: string, output: string, word: Word)
    ensures var s1 := DirectAttempt(s0, output, word);
            var s2 := InPlaceAttempt(s1, input, output, word);
            var s3 := StagingAttempt(s2, input, output, word);
            var r := WordAttempts(s0, input, output, word).1;
            r == s1.files || r == s2.files || r == s3.files
  {
  }

  /** The files a conversion leaves are those of the stage at which it stopped. */
  lemma StoppingStage(files: Files, input: string, output: string, engine: string, timeout: int,
                      office: Office, word: Word)
    ensures var s0 := AfterLibreOffice(files, input, output, engine, timeout, office);
            var r := Conversion(files, input, output, engine, timeout, office, word).1;
            r == s0.files || r == WordAttempts(s0, input, output, word).1
  {
  }

  /** A conversion creates, changes or removes no file outside `Touched`. */
  lemma ConversionFrame(files: Files, input: string, output: string, engine: string, timeout: int,
                        office: Office, word: Word)
    ensures SameExcept(files, Conversion(files, input, output, engine, timeout, office, word).1, Touched(input, output))
  {
    StagesFrame(files, input, output, engine, timeout, office, word);
    StoppingStage(files, input, output, engine, timeout, office, word);
    StoppingAttempt(AfterLibreOffice(files, input, output, engine, timeout, office), input, output, word);
  }
}
