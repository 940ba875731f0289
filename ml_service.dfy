/** The Python ML service (services/ml-service/src/main.py): a model registry that starts empty, a
    text analyser and a content optimiser that answer with fixed shapes, and the health and model-list
    endpoints. Python floats are modelled as reals; the wall-clock processing time is a parameter. */
module MlService {
  import opened Seqs

  /** A JSON value as the service returns it in its `Dict[str, Any]` fields. */
  datatype Json = JStr(str: string) | JNum(num: real) | JList(items: seq<Json>) | JObj(fields: map<string, Json>)

  datatype TextAnalysisRequest = TextAnalysisRequest(text: string, language: string, analysisType: string)

  datatype TextAnalysisResponse = TextAnalysisResponse(
    text: string, language: string, analysisType: string,
    result: map<string, Json>, confidence: real, processingTime: real)

  datatype ContentOptimizationRequest = ContentOptimizationRequest(
    content: string, targetAudience: string, platform: string, language: string)

  datatype ContentOptimizationResponse = ContentOptimizationResponse(
    originalContent: string, optimizedContent: string, suggestions: seq<string>,
    seoScore: real, readabilityScore: real)

  datatype HealthResponse = HealthResponse(status: string, version: string, modelsLoaded: seq<string>)

  datatype ModelList = ModelList(models: seq<string>, languagesSupported: seq<string>, analysisTypes: seq<string>)

  /** A loaded model, known by its registry key. */
  datatype ModelEntry = ModelEntry(key: string)

  const SupportedLanguages: seq<string> := ["fr", "mg"]
  const AnalysisTypes: seq<string> := ["sentiment", "classification", "keywords"]

  function StrList(s: seq<string>): Json {
    JList(Map(s, (x: string) => JStr(x)))
  }

  /** The `result` map `analyze_text` builds for each analysis type. */
  function AnalysisResult(analysisType: string): map<string, Json> {
    if analysisType == "sentiment" then
      map["sentiment" := JStr("positive"), "score" := JNum(0.85),
          "emotions" := JObj(map["joy" := JNum(0.6), "confidence" := JNum(0.3), "surprise" := JNum(0.1)])]
    else if analysisType == "classification" then
      map["category" := JStr("commercial"), "subcategory" := JStr("promotion"),
          "topics" := StrList(["produit", "vente", "marketing"])]
    else if analysisType == "keywords" then
      map["keywords" := StrList(["marketing", "digital", "madagascar", "PME"]),
          "entities" := JObj(map["organizations" := StrList(["AI4Local"]),
                                 "locations" := StrList(["Madagascar"]),
                                 "products" := StrList([])])]
    else
      map[]
  }

  /** The body of `MLService.analyze_text`; `elapsed` is the measured processing time. */
  function AnalyzeText(req: TextAnalysisRequest, elapsed: real): (r: TextAnalysisResponse)
    ensures r.text == req.text && r.language == req.language && r.analysisType == req.analysisType
    ensures r.confidence == 0.85 && r.processingTime == elapsed
    ensures req.analysisType == "sentiment" ==>
      r.result.Keys == {"sentiment", "score", "emotions"}
      && r.result["emotions"].JObj? && r.result["emotions"].fields.Keys == {"joy", "confidence", "surprise"}
    ensures req.analysisType == "classification" ==> r.result.Keys == {"category", "subcategory", "topics"}
    ensures req.analysisType == "keywords" ==> r.result.Keys == {"keywords", "entities"}
    ensures req.analysisType !in AnalysisTypes ==> r.result == map[]
  {
    TextAnalysisResponse(req.text, req.language, req.analysisType, AnalysisResult(req.analysisType), 0.85, elapsed)
  }

  /** The result is empty exactly for the analysis types `list_models` does not advertise. */
  lemma {:induction false} AnalysisResultEmptyIffUnlisted(req: TextAnalysisRequest, elapsed: real)
    ensures AnalyzeText(req, elapsed).result == map[] <==> req.analysisType !in ListModels([]).analysisTypes
  {
    var r := AnalyzeText(req, elapsed).result;
    if req.analysisType == "sentiment" { assert "score" in r; }
    if req.analysisType == "classification" { assert "topics" in r; }
    if req.analysisType == "keywords" { assert "keywords" in r; }
  }

  function PlatformSuggestions(platform: string): seq<string> {
    if platform == "facebook" then
      ["Ajouter un call-to-action", "Utiliser des hashtags pertinents", "Réduire la longueur du texte"]
    else if platform == "instagram" then
      ["Ajouter plus d'émojis", "Structurer avec des hashtags", "Optimiser pour mobile"]
    else
      ["Contenu optimisé pour email"]
  }

  /** The body of `MLService.optimize_content`. */
  function OptimizeContent(req: ContentOptimizationRequest): (r: ContentOptimizationResponse)
    ensures r.originalContent == req.content && r.optimizedContent == req.content
    ensures r.seoScore == 75.5 && r.readabilityScore == 82.3
    ensures req.platform == "facebook" ==> |r.suggestions| == 3 && r.suggestions[0] == "Ajouter un call-to-action"
    ensures req.platform == "instagram" ==> |r.suggestions| == 3 && r.suggestions[0] == "Ajouter plus d'émojis"
    ensures req.platform != "facebook" && req.platform != "instagram" ==>
      r.suggestions == ["Contenu optimisé pour email"]
  {
    ContentOptimizationResponse(req.content, req.content, PlatformSuggestions(req.platform), 75.5, 82.3)
  }

  /** Only the content and the platform matter: the audience and language fields are ignored. */
  lemma {:induction false} OptimizeContentIgnoresAudienceAndLanguage(a: ContentOptimizationRequest, b: ContentOptimizationRequest)
    requires a.content == b.content && a.platform == b.platform
    ensures OptimizeContent(a) == OptimizeContent(b)
  {
  }

  function Keys(models: seq<ModelEntry>): seq<string> {
    Map(models, (m: ModelEntry) => m.key)
  }

  /** The `/api/v1/models` answer for a registry with these entries. */
  function ListModels(models: seq<ModelEntry>): (r: ModelList)
    ensures r.languagesSupported == ["fr", "mg"]
    ensures r.analysisTypes == ["sentiment", "classification", "keywords"]
    ensures |r.models| == |models|
  {
    ModelList(Keys(models), SupportedLanguages, AnalysisTypes)
  }

  /** The `/health` answer for a registry with these entries. */
  function Health(models: seq<ModelEntry>): (r: HealthResponse)
    ensures r.status == "healthy" && r.version == "1.0.0"
    ensures r.modelsLoaded == ListModels(models).models
  {
    HealthResponse("healthy", "1.0.0", Keys(models))
  }

  /** `MLService`: the registry is a dict, kept here in insertion order. */
  class MLService {
    var models: seq<ModelEntry>

    constructor ()
      ensures models == []
    {
      models := [];
    }

    /** `load_models` only logs: every loader call is commented out. */
    method LoadModels()
      modifies this
      ensures models == old(models)
    {
    }

    function HealthCheck(): HealthResponse
      reads this
    {
      Health(models)
    }
  }

  /** Service start-up: construct the service, run `load_models`, then answer `/health`. */
  method StartupHealth() returns (h: HealthResponse, l: ModelList)
    ensures h.status == "healthy" && h.version == "1.0.0" && h.modelsLoaded == []
    ensures l.models == [] && l.languagesSupported == ["fr", "mg"]
    ensures l.analysisTypes == ["sentiment", "classification", "keywords"]
  {
    var service := new MLService();
    service.LoadModels();
    h := service.HealthCheck();
    l := ListModels(service.models);
  }
}
