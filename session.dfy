/**
 * The window's state and its handlers (`BlogGeneratorApp` in
 * blog_generator.py), without the widgets' look: every text box is a string
 * field, the language-model and storage clients are present or absent, and
 * what the background workers and the storage service answer arrives as the
 * arguments of the handlers.
 */
module Session {
  import opened Wrappers
  import opened Text
  import Records
  import Export

  /** Why a button press starts no work (each shown as a warning dialog). */
  datatype InputError = MissingClient | EmptyUrl | NotHttp | EmptyReference | EmptyTopic | AnalysisMissing

  const CrawlPlaceholder := "크롤링 중입니다. 잠시만 기다려주세요..."
  const AnalysisPlaceholder := "분석 중입니다. 잠시만 기다려주세요..."
  const GenerationPlaceholder := "글을 생성하고 있습니다. 잠시만 기다려주세요..."

  /** The URL check of the crawl button: a non-blank text whose stripped form starts with "http". */
  function ValidateUrl(text: string): (r: Result<string, InputError>)
    ensures r == Failure(EmptyUrl) <==> IsBlank(text)
    ensures r == Failure(NotHttp) <==> !IsBlank(text) && !StartsWith(Strip(text), "http")
    ensures r.Success? <==> !IsBlank(text) && StartsWith(Strip(text), "http")
    ensures r.Success? ==> r.value == Strip(text) && r.value != "" && IsStripped(r.value)
  {
    var url := Strip(text);
    if url == "" then Failure(EmptyUrl)
    else if !StartsWith(url, "http") then Failure(NotHttp)
    else Success(url)
  }

  /** The check of the analyse button: a client, then a non-blank reference. */
  function ValidateAnalysis(hasClient: bool, reference: string): (r: Result<string, InputError>)
    ensures r == Failure(MissingClient) <==> !hasClient
    ensures r == Failure(EmptyReference) <==> hasClient && IsBlank(reference)
    ensures r.Success? <==> hasClient && !IsBlank(reference)
    ensures r.Success? ==> r.value == Strip(reference) && r.value != "" && IsStripped(r.value)
  {
    if !hasClient then Failure(MissingClient)
    else if Strip(reference) == "" then Failure(EmptyReference)
    else Success(Strip(reference))
  }

  /** What the generation worker is started with. */
  datatype GenerationRequest = GenerationRequest(
    reference: string,
    analysis: string,
    topic: string,
    keywords: string,
    requirements: string)

  /**
   * The check of the generate button, in the order `generate_content`
   * makes them: client, reference, topic, analysis. Keywords and
   * requirements may be empty. The worker gets the stripped boxes and the
   * kept analysis as it is.
   */
  function ValidateGeneration(hasClient: bool, reference: string, topic: string, keywords: string,
                              requirements: string, analysis: string): (r: Result<GenerationRequest, InputError>)
    ensures r.Success? <==> hasClient && !IsBlank(reference) && !IsBlank(topic) && analysis != ""
    ensures r == Failure(MissingClient) <==> !hasClient
    ensures r == Failure(EmptyReference) <==> hasClient && IsBlank(reference)
    ensures r == Failure(EmptyTopic) <==> hasClient && !IsBlank(reference) && IsBlank(topic)
    ensures r == Failure(AnalysisMissing) <==> hasClient && !IsBlank(reference) && !IsBlank(topic) && analysis == ""
    ensures r.Success? ==> r.value == GenerationRequest(Strip(reference), analysis, Strip(topic),
                                                        Strip(keywords), Strip(requirements))
    ensures r.Success? ==> r.value.reference != "" && r.value.topic != ""
  {
    var ref := Strip(reference);
    var tpc := Strip(topic);
    var kws := Strip(keywords);
    if !hasClient then Failure(MissingClient)
    else if ref == "" then Failure(EmptyReference)
    else if tpc == "" then Failure(EmptyTopic)
    else if analysis == "" then Failure(AnalysisMissing)
    else Success(GenerationRequest(ref, analysis, tpc, kws, Strip(requirements)))
  }

  class BlogGeneratorApp {
    /** Whether the language-model client was created at start-up. */
    const hasClient: bool
    /** Whether the storage client was created at start-up. */
    const hasStorage: bool

    var urlInput: string
    var referenceText: string
    var analysisText: string
    var analysisResult: string
    var topicInput: string
    var keywordsInput: string
    var requirementsInput: string
    var generatedText: string
    var currentProjectId: Option<string>

    /** A project id only ever comes from a save, and saving needs storage. */
    ghost predicate Valid()
      reads this
    {
      currentProjectId.Some? ==> hasStorage
    }

    constructor (hasClient: bool, hasStorage: bool)
      ensures Valid()
      ensures this.hasClient == hasClient && this.hasStorage == hasStorage
      ensures urlInput == "" && referenceText == "" && analysisText == "" && analysisResult == ""
      ensures topicInput == "" && keywordsInput == "" && requirementsInput == "" && generatedText == ""
      ensures currentProjectId == None
    {
      this.hasClient := hasClient;
      this.hasStorage := hasStorage;
      urlInput, referenceText, analysisText, analysisResult := "", "", "", "";
      topicInput, keywordsInput, requirementsInput, generatedText := "", "", "", "";
      currentProjectId := None;
    }

    /** `crawl_url`: validates the URL box and, when it passes, starts the crawl with the stripped URL. */
    method CrawlUrl() returns (r: Result<string, InputError>)
      requires Valid()
      modifies this`referenceText
      ensures Valid()
      ensures r == ValidateUrl(urlInput)
      ensures referenceText == if r.Success? then CrawlPlaceholder else old(referenceText)
    {
      r := ValidateUrl(urlInput);
      if r.Success? {
        referenceText := CrawlPlaceholder;
      }
    }

    /** `on_crawl_finished`: the extracted text becomes the reference. */
    method OnCrawlFinished(content: string)
      requires Valid()
      modifies this`referenceText
      ensures Valid()
      ensures referenceText == content
    {
      referenceText := content;
    }

    /** `on_crawl_error`: the reference box is emptied for manual entry. */
    method OnCrawlError()
      requires Valid()
      modifies this`referenceText
      ensures Valid()
      ensures referenceText == ""
    {
      referenceText := "";
    }

    /** `analyze_reference`: starts the analysis with the stripped reference when it passes. */
    method AnalyzeReference() returns (r: Result<string, InputError>)
      requires Valid()
      modifies this`analysisText
      ensures Valid()
      ensures r == ValidateAnalysis(hasClient, referenceText)
      ensures analysisText == if r.Success? then AnalysisPlaceholder else old(analysisText)
    {
      r := ValidateAnalysis(hasClient, referenceText);
      if r.Success? {
        analysisText := AnalysisPlaceholder;
      }
    }

    /** `on_analysis_finished`: the result is kept for generation and shown. */
    method OnAnalysisFinished(result: string)
      requires Valid()
      modifies this`analysisResult, this`analysisText
      ensures Valid()
      ensures analysisResult == result && analysisText == result
    {
      analysisResult := result;
      analysisText := result;
    }

    /** `on_analysis_error`: only the display is cleared; the kept result stays. */
    method OnAnalysisError()
      requires Valid()
      modifies this`analysisText
      ensures Valid()
      ensures analysisText == ""
    {
      analysisText := "";
    }

    /** `generate_content`: validates and, when it passes, starts the generation worker. */
    method GenerateContent() returns (r: Result<GenerationRequest, InputError>)
      requires Valid()
      modifies this`generatedText
      ensures Valid()
      ensures r == ValidateGeneration(hasClient, referenceText, topicInput, keywordsInput,
                                      requirementsInput, analysisResult)
      ensures generatedText == if r.Success? then GenerationPlaceholder else old(generatedText)
    {
      r := ValidateGeneration(hasClient, referenceText, topicInput, keywordsInput,
                              requirementsInput, analysisResult);
      if r.Success? {
        generatedText := GenerationPlaceholder;
      }
    }

    /**
     * `save_to_supabase`: builds the record from the boxes as they are now and
     * inserts it. `insertReply` is the id the storage service sends back, or
     * None when the insert raised or returned no row; failures are only
     * logged. Without a storage client the call fails before any insert.
     */
    method SaveToStorage(generated: string, insertReply: Option<string>) returns (attempt: Option<Records.ProjectRecord>)
      requires Valid()
      modifies this`currentProjectId
      ensures Valid()
      ensures attempt.Some? <==> hasStorage
      ensures attempt.Some? ==> attempt.value == Records.Build(Records.Inputs(
                                  referenceText, urlInput, analysisResult, topicInput,
                                  keywordsInput, requirementsInput, generated))
      ensures currentProjectId == if hasStorage && insertReply.Some? then insertReply else old(currentProjectId)
    {
      if !hasStorage {
        return None;
      }
      var record := Records.Build(Records.Inputs(referenceText, urlInput, analysisResult, topicInput,
                                                 keywordsInput, requirementsInput, generated));
      attempt := Some(record);
      if insertReply.Some? {
        currentProjectId := insertReply;
      }
    }

    /** `on_generation_finished`: shows the text, then saves once when storage is configured. */
    method OnGenerationFinished(result: string, insertReply: Option<string>) returns (attempt: Option<Records.ProjectRecord>)
      requires Valid()
      modifies this`generatedText, this`currentProjectId
      ensures Valid()
      ensures generatedText == result
      ensures attempt.Some? <==> hasStorage
      ensures attempt.Some? ==> attempt.value == Records.Build(Records.Inputs(
                                  referenceText, urlInput, analysisResult, topicInput,
                                  keywordsInput, requirementsInput, result))
                                && attempt.value.status == Records.Completed
      ensures currentProjectId == if hasStorage && insertReply.Some? then insertReply else old(currentProjectId)
    {
      generatedText := result;
      attempt := None;
      if hasStorage {
        attempt := SaveToStorage(result, insertReply);
      }
    }

    /** `on_generation_error`: the output box is emptied. */
    method OnGenerationError()
      requires Valid()
      modifies this`generatedText
      ensures Valid()
      ensures generatedText == ""
    {
      generatedText := "";
    }

    /**
     * `save_content` up to the file write: `option` is the selected format
     * entry, `chosenPath` what the save dialog returned.
     */
    method SaveContent(option: string, chosenPath: string) returns (r: Result<Option<Export.ExportFile>, Export.ExportError>)
      ensures r == Export.Plan(generatedText, option, chosenPath)
      ensures r.Failure? <==> IsBlank(generatedText)
    {
      r := Export.Plan(generatedText, option, chosenPath);
    }

    /** `reset_all`: when the user confirms, every box, the kept analysis and the project id are cleared. */
    method ResetAll(confirmed: bool)
      requires Valid()
      modifies this
      ensures Valid()
      ensures !confirmed ==> unchanged(this)
      ensures confirmed ==> urlInput == "" && referenceText == "" && analysisText == "" && analysisResult == ""
      ensures confirmed ==> topicInput == "" && keywordsInput == "" && requirementsInput == "" && generatedText == ""
      ensures confirmed ==> currentProjectId == None
    {
      if confirmed {
        urlInput := "";
        referenceText := "";
        analysisText := "";
        analysisResult := "";
        topicInput := "";
        keywordsInput := "";
        requirementsInput := "";
        generatedText := "";
        currentProjectId := None;
      }
    }
  }

  /** Before any analysis, generation is refused even when reference and topic are filled in. */
  method GenerationWaitsForAnalysis(reference: string, topic: string) returns (refused: Result<GenerationRequest, InputError>)
    requires !IsBlank(reference) && !IsBlank(topic)
    ensures refused == Failure(AnalysisMissing)
  {
    var app := new BlogGeneratorApp(true, false);
    app.referenceText := reference;
    app.topicInput := topic;
    assert app.hasClient && !IsBlank(app.referenceText) && !IsBlank(app.topicInput) && app.analysisResult == "";
    refused := app.GenerateContent();
  }

  /**
   * A failed analysis keeps the earlier result: generation still goes ahead
   * with it although the analysis box is empty.
   */
  method StaleAnalysisIsStillUsed(app: BlogGeneratorApp, analysis: string) returns (started: Result<GenerationRequest, InputError>)
    requires app.Valid() && app.hasClient && !IsBlank(app.referenceText) && !IsBlank(app.topicInput) && analysis != ""
    modifies app
    ensures app.analysisText == "" && app.analysisResult == analysis
    ensures started.Success? && started.value.analysis == analysis
  {
    app.OnAnalysisFinished(analysis);
    app.OnAnalysisError();
    assert app.hasClient && !IsBlank(app.referenceText) && !IsBlank(app.topicInput) && app.analysisResult != "";
    started := app.GenerateContent();
  }

  /**
   * With storage configured, a finished generation is saved once, blank URL
   * and requirements stored as missing, and its id kept until a reset.
   */
  method SavedOnceWithStorage(app: BlogGeneratorApp, generated: string, id: string)
    returns (attempt: Option<Records.ProjectRecord>, savedId: Option<string>)
    requires app.Valid() && app.hasStorage && IsBlank(app.urlInput) && IsBlank(app.requirementsInput)
    modifies app
    ensures attempt.Some? && attempt.value.referenceUrl == None && attempt.value.requirements == None
    ensures attempt.value.generatedContent == generated && attempt.value.status == Records.Completed
    ensures savedId == Some(id)
    ensures app.currentProjectId == None && app.generatedText == ""
  {
    attempt := app.OnGenerationFinished(generated, Some(id));
    savedId := app.currentProjectId;
    app.ResetAll(true);
  }

  /**
   * Without storage, a finished generation attempts no save, and a window in
   * a valid state keeps having no project id.
   */
  method NoSaveWithoutStorage(app: BlogGeneratorApp, generated: string, id: string)
    returns (attempt: Option<Records.ProjectRecord>)
    requires app.Valid() && !app.hasStorage
    modifies app
    ensures attempt == None && app.currentProjectId == None && app.generatedText == generated
  {
    attempt := app.OnGenerationFinished(generated, Some(id));
  }
}
