/** The two IBM cloud clients of utils.py as total decision procedures.

    The network is not modelled: each remote service is represented by the
    reply it would give if asked (`TokenReply`, `GenReply`, `NluReply`), and
    every function returns, beside its value, the trace of remote calls it made.
    A path that asks nothing of the network returns an empty trace. */
module Remote {
  import opened Py

  const BaseUrl := "https://us-south.ml.cloud.ibm.com"
  const ModelId := "ibm/granite-13b-instruct-v2"
  const TokenUrl := "https://iam.cloud.ibm.com/identity/token"
  const GrantType := "urn:ibm:params:oauth:grant-type:apikey"
  const GenerationUrl := BaseUrl + "/ml/v1/text/generation?version=2024-05-01"
  const NluVersion := "2022-04-07"

  /** Every failure of the text generator is reported as a reply with this prefix. */
  const ErrorPrefix := "ERROR: "
  const MissingCredentials := ErrorPrefix + "Missing Watsonx API credentials."
  const TokenFailure := ErrorPrefix + "Failed to get IAM access token."

  /** The four environment variables the clients read; each may be unset. */
  datatype Config = Config(
    apiKey: Option<string>,     // IBM_CLOUD_API_KEY
    projectId: Option<string>,  // WATSONX_PROJECT_ID
    nluApiKey: Option<string>,  // NLU_API_KEY
    nluUrl: Option<string>      // NLU_URL
  )

  datatype Parameters = Parameters(decodingMethod: string, maxNewTokens: nat)

  /** The JSON body posted to the generation endpoint. */
  datatype Payload = Payload(modelId: string, projectId: string, input: string, parameters: Parameters)

  /** A remote interaction of the clients. A `SentimentCall` stands for the
      whole of `nlu.analyze`, including the bearer token the SDK fetches for it. */
  datatype Call =
    | TokenCall(url: string, body: string)
    | GenerationCall(url: string, authorization: string, payload: Payload)
    | SentimentCall(version: string, serviceUrl: string, apiKey: string, text: string)

  /** A value together with the remote calls made to compute it, in order. */
  datatype Traced<+T> = Traced(value: T, calls: seq<Call>)

  /** What the identity service does with a token request: a fault (transport
      error, error status, undecodable body) or a decoded JSON body whose
      `access_token` field may be missing or null. */
  datatype TokenReply =
    | TokenFault(description: string)
    | TokenJson(accessToken: Option<string>)

  /** One element of the `results` array of a generation reply. */
  datatype GenItem = GenItem(generatedText: Option<string>)

  /** What the generation endpoint does with a request: a decoded success body
      whose `results` field may be missing, an HTTP error status with its body
      text, or any other fault (transport error, undecodable body). */
  datatype GenReply =
    | GenJson(results: Option<seq<GenItem>>)
    | GenHttpError(body: string)
    | GenFault(description: string)

  /** A document-level sentiment: `{label, score}`. The score is passed through
      and never computed with. */
  datatype Sentiment = Sentiment(labelName: string, score: real)

  /** What becomes of a sentiment analysis: a fault while building the
      authenticator or the client or setting the service URL, before any
      request leaves; a fault of the analysis request itself (transport,
      error status, undecodable body); or a result whose `sentiment` and
      `sentiment.document` fields may be missing. */
  datatype NluReply =
    | NluSetupFault(description: string)
    | NluFault(description: string)
    | NluJson(sentiment: Option<DocumentSentiment>)

  datatype DocumentSentiment = DocumentSentiment(document: Option<Sentiment>)

  const Unavailable := Sentiment("unavailable", 0.0)
  const Failed := Sentiment("error", 0.0)

  // ---------------------------------------------------------------- get_iam_token

  /** The form-encoded request for a bearer token; the key is rendered as the
      f-string renders it. */
  function TokenRequest(cfg: Config): Call {
    TokenCall(TokenUrl, "apikey=" + Format(cfg.apiKey) + "&grant_type=" + GrantType)
  }

  /** `get_iam_token()`: always one request; the `access_token` of a decoded
      body, or `None` on any fault. It never raises. */
  function GetIamToken(cfg: Config, reply: TokenReply): (r: Traced<Option<string>>)
    ensures r.calls == [TokenCall(TokenUrl, "apikey=" + Format(cfg.apiKey) + "&grant_type=" + GrantType)]
    ensures r.value.Some? <==> reply.TokenJson? && reply.accessToken.Some?
    ensures r.value.Some? ==> r.value.value == reply.accessToken.value
  {
    match reply
    case TokenFault(_) => Traced(None, [TokenRequest(cfg)])
    case TokenJson(token) => Traced(token, [TokenRequest(cfg)])
  }

  // ---------------------------------------------------------------- get_granite_response

  /** The payload for a prompt: greedy decoding, at most 200 new tokens. */
  function GenerationPayload(projectId: string, prompt: string): Payload {
    Payload(ModelId, projectId, prompt, Parameters("greedy", 200))
  }

  /** `result['results'][0]['generated_text']`, raising as Python would. */
  function FirstGeneratedText(results: Option<seq<GenItem>>): (r: Result<string>)
    ensures results.None? ==> r == Raised(KeyErrorText("results"))
    ensures results.Some? && |results.value| == 0 ==> r == Raised(IndexErrorText)
    ensures results.Some? && |results.value| > 0 && results.value[0].generatedText.None?
      ==> r == Raised(KeyErrorText("generated_text"))
    ensures r.Ok? <==> results.Some? && |results.value| > 0 && results.value[0].generatedText.Some?
    ensures r.Ok? ==> r.value == results.value[0].generatedText.value
  {
    if results.None? then Raised(KeyErrorText("results"))
    else if |results.value| == 0 then Raised(IndexErrorText)
    else if results.value[0].generatedText.None? then Raised(KeyErrorText("generated_text"))
    else Ok(results.value[0].generatedText.value)
  }

  /** The text the generator client returns for the generation endpoint's reply:
      the stripped text of a success, or the fault's text behind "ERROR: ". */
  function GenerationText(reply: GenReply): (r: string)
    ensures reply.GenHttpError? ==> r == ErrorPrefix + reply.body
    ensures reply.GenFault? ==> r == ErrorPrefix + reply.description
    ensures reply.GenJson? && FirstGeneratedText(reply.results).Raised?
      ==> r == ErrorPrefix + FirstGeneratedText(reply.results).description
    ensures reply.GenJson? && FirstGeneratedText(reply.results).Ok?
      ==> IsStripOf(FirstGeneratedText(reply.results).value, r) && Unpadded(r)
  {
    match reply
    case GenJson(results) =>
      (match FirstGeneratedText(results)
       case Ok(text) => Strip(text)
       case Raised(e) => ErrorPrefix + e)
    case GenHttpError(body) => ErrorPrefix + body
    case GenFault(e) => ErrorPrefix + e
  }

  /** `get_granite_response(prompt)`: credentials first, then the token, then
      the generation call. */
  function GetGraniteResponse(cfg: Config, prompt: string, tokenReply: TokenReply, genReply: GenReply)
    : (r: Traced<string>)
    ensures !Truthy(cfg.apiKey) || !Truthy(cfg.projectId) ==> r.value == MissingCredentials && r.calls == []
    ensures Truthy(cfg.apiKey) && Truthy(cfg.projectId) ==>
      |r.calls| >= 1 && r.calls[0] == TokenCall(TokenUrl, "apikey=" + cfg.apiKey.value + "&grant_type=" + GrantType)
    ensures Truthy(cfg.apiKey) && Truthy(cfg.projectId) && !(tokenReply.TokenJson? && Truthy(tokenReply.accessToken))
      ==> r.value == TokenFailure && |r.calls| == 1
    ensures Truthy(cfg.apiKey) && Truthy(cfg.projectId) && tokenReply.TokenJson? && Truthy(tokenReply.accessToken)
      ==> && |r.calls| == 2
          && r.calls[1] == GenerationCall(GenerationUrl, "Bearer " + tokenReply.accessToken.value,
                                          Payload(ModelId, cfg.projectId.value, prompt, Parameters("greedy", 200)))
          && r.value == GenerationText(genReply)
  {
    if !Truthy(cfg.apiKey) || !Truthy(cfg.projectId) then
      Traced(MissingCredentials, [])
    else
      var token := GetIamToken(cfg, tokenReply);
      if !Truthy(token.value) then
        Traced(TokenFailure, token.calls)
      else
        var call := GenerationCall(GenerationUrl, "Bearer " + token.value.value,
                                   GenerationPayload(cfg.projectId.value, prompt));
        Traced(GenerationText(genReply), token.calls + [call])
  }

  /** The generator's reply text is an error diagnostic unless the service
      produced a text, in which case it is that text stripped. */
  predicate Generated(cfg: Config, tokenReply: TokenReply, genReply: GenReply) {
    && Truthy(cfg.apiKey) && Truthy(cfg.projectId)
    && tokenReply.TokenJson? && Truthy(tokenReply.accessToken)
    && genReply.GenJson? && genReply.results.Some? && |genReply.results.value| > 0
    && genReply.results.value[0].generatedText.Some?
  }

  /** `r` is a diagnostic: it begins with "ERROR: ". */
  predicate IsDiagnostic(r: string) {
    |r| >= |ErrorPrefix| && r[..|ErrorPrefix|] == ErrorPrefix
  }

  lemma DiagnosticPrefix(detail: string)
    ensures IsDiagnostic(ErrorPrefix + detail)
  {
    assert (ErrorPrefix + detail)[..|ErrorPrefix|] == ErrorPrefix;
  }

  /** Every path but a successful generation yields a diagnostic beginning with
      "ERROR: "; a successful one yields the generated text without surrounding
      whitespace. */
  lemma {:induction false} GraniteErrorOrGenerated(cfg: Config, prompt: string, tokenReply: TokenReply, genReply: GenReply)
    ensures Generated(cfg, tokenReply, genReply) ==>
      var r := GetGraniteResponse(cfg, prompt, tokenReply, genReply).value;
      IsStripOf(genReply.results.value[0].generatedText.value, r) && Unpadded(r)
    ensures !Generated(cfg, tokenReply, genReply) ==>
      IsDiagnostic(GetGraniteResponse(cfg, prompt, tokenReply, genReply).value)
  {
    var r := GetGraniteResponse(cfg, prompt, tokenReply, genReply).value;
    if !Truthy(cfg.apiKey) || !Truthy(cfg.projectId) {
      DiagnosticPrefix("Missing Watsonx API credentials.");
    } else if !(tokenReply.TokenJson? && Truthy(tokenReply.accessToken)) {
      DiagnosticPrefix("Failed to get IAM access token.");
    } else {
      match genReply
      case GenHttpError(body) => DiagnosticPrefix(body);
      case GenFault(e) => DiagnosticPrefix(e);
      case GenJson(results) =>
        var first := FirstGeneratedText(results);
        if first.Raised? {
          DiagnosticPrefix(first.description);
        }
    }
  }

  /** Success and failure are not distinguishable in the returned text: a
      service that generates a diagnostic verbatim yields the same string as
      a failed token exchange. */
  lemma GeneratedTextCanImitateError(cfg: Config, prompt: string, tokenReply: TokenReply)
    requires Truthy(cfg.apiKey) && Truthy(cfg.projectId)
    requires tokenReply.TokenJson? && Truthy(tokenReply.accessToken)
    ensures GetGraniteResponse(cfg, prompt, tokenReply, GenJson(Some([GenItem(Some(TokenFailure))]))).value
         == TokenFailure
  {
    StripUnpadded(TokenFailure);
  }

  // ---------------------------------------------------------------- get_sentiment

  /** `response['sentiment']['document']`, raising as Python would. */
  function DocumentOf(reply: NluReply): (r: Result<Sentiment>)
    ensures r.Ok? <==> reply.NluJson? && reply.sentiment.Some? && reply.sentiment.value.document.Some?
    ensures r.Ok? ==> r.value == reply.sentiment.value.document.value
    ensures reply.NluJson? && reply.sentiment.None? ==> r == Raised(KeyErrorText("sentiment"))
    ensures reply.NluJson? && reply.sentiment.Some? && reply.sentiment.value.document.None?
      ==> r == Raised(KeyErrorText("document"))
    ensures !reply.NluJson? ==> r == Raised(reply.description)
  {
    match reply
    case NluSetupFault(e) => Raised(e)
    case NluFault(e) => Raised(e)
    case NluJson(sentiment) =>
      if sentiment.None? then Raised(KeyErrorText("sentiment"))
      else if sentiment.value.document.None? then Raised(KeyErrorText("document"))
      else Ok(sentiment.value.document.value)
  }

  /** `get_sentiment(text)`: configuration first, then the client set-up, then
      one analysis request; every fault is absorbed into the "error" sentinel. */
  function GetSentiment(cfg: Config, text: string, reply: NluReply): (r: Traced<Sentiment>)
    ensures !Truthy(cfg.nluApiKey) || !Truthy(cfg.nluUrl) ==>
      r.value == Sentiment("unavailable", 0.0) && r.calls == []
    ensures Truthy(cfg.nluApiKey) && Truthy(cfg.nluUrl) && reply.NluSetupFault? ==>
      r.value == Sentiment("error", 0.0) && r.calls == []
    ensures Truthy(cfg.nluApiKey) && Truthy(cfg.nluUrl) && !reply.NluSetupFault? ==>
      r.calls == [SentimentCall(NluVersion, cfg.nluUrl.value, cfg.nluApiKey.value, text)]
    ensures Truthy(cfg.nluApiKey) && Truthy(cfg.nluUrl) && reply.NluJson? && reply.sentiment.Some?
      && reply.sentiment.value.document.Some?
      ==> r.value == reply.sentiment.value.document.value
    ensures Truthy(cfg.nluApiKey) && Truthy(cfg.nluUrl)
      && !(reply.NluJson? && reply.sentiment.Some? && reply.sentiment.value.document.Some?)
      ==> r.value == Sentiment("error", 0.0)
  {
    if !Truthy(cfg.nluApiKey) || !Truthy(cfg.nluUrl) then
      Traced(Unavailable, [])
    else if reply.NluSetupFault? then
      Traced(Failed, [])
    else
      var call := SentimentCall(NluVersion, cfg.nluUrl.value, cfg.nluApiKey.value, text);
      match DocumentOf(reply)
      case Ok(document) => Traced(document, [call])
      case Raised(_) => Traced(Failed, [call])
  }

  /** The labels the NLU service itself produces for a document. */
  predicate ServiceLabel(name: string) {
    name == "positive" || name == "negative" || name == "neutral"
  }

  /** The five labels a sentiment outcome can carry. */
  predicate KnownLabel(name: string) {
    ServiceLabel(name) || name == "unavailable" || name == "error"
  }

  /** When the service keeps to its own labels, the client only ever reports
      one of the five known labels, and a sentinel always scores 0. */
  lemma SentimentLabelKnown(cfg: Config, text: string, reply: NluReply)
    requires reply.NluJson? && reply.sentiment.Some? && reply.sentiment.value.document.Some?
      ==> ServiceLabel(reply.sentiment.value.document.value.labelName)
    ensures KnownLabel(GetSentiment(cfg, text, reply).value.labelName)
    ensures !ServiceLabel(GetSentiment(cfg, text, reply).value.labelName)
      ==> GetSentiment(cfg, text, reply).value.score == 0.0
  {
  }
}
