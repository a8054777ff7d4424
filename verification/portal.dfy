/** The request handlers of app.py that carry logic: the login check and
    `load_user`, the prompt wrapper, and `chat` as a pure state transition
    over the transcripts and the feedback log. */
module Portal {
  import opened Py
  import opened Remote
  import opened Records

  // ---------------------------------------------------------------- login

  /** A logged-in user, identified by name. */
  datatype User = User(id: string)

  /** `load_user(user_id)`: a user exactly for the names of the account table. */
  function LoadUser(users: map<string, Account>, userId: string): (r: Option<User>)
    ensures r.Some? <==> userId in users
    ensures r.Some? ==> r.value.id == userId
  {
    if userId in users then Some(User(userId)) else None
  }

  /** The POST branch of `login`: the named account must exist and the
      submitted password must equal the stored one. */
  function Login(users: map<string, Account>, username: string, password: string): (r: Option<User>)
    ensures r.Some? <==> username in users && users[username].password == password
    ensures r.Some? ==> r.value.id == username
  {
    if username in users && users[username].password == password then Some(User(username)) else None
  }

  /** Whoever logs in is found again by `load_user` on later requests. */
  lemma LoggedInUserLoads(users: map<string, Account>, username: string, password: string)
    requires Login(users, username, password).Some?
    ensures LoadUser(users, Login(users, username, password).value.id) == Login(users, username, password)
  {
  }

  /** The built-in account accepts its own password and no other. */
  lemma BuiltInAccount(password: string)
    ensures Login(Users, "citizen1", password).Some? <==> password == "password123"
    ensures LoadUser(Users, "citizen1") == Some(User("citizen1"))
  {
  }

  // ---------------------------------------------------------------- prompt

  /** The text of the f-string before and after the citizen's message. */
  const PromptHead := "\n        You are 'Citizen AI', a helpful and respectful assistant for a government citizen engagement platform.\n        A citizen is asking a question. Provide a clear, concise, and helpful response.\n        Citizen's question: \""
  const PromptTail := "\"\n        Your response:\n        "

  /** `context_prompt`: the message wrapped in the fixed instructions. */
  function ContextPrompt(message: string): (p: string)
    ensures |p| == |PromptHead| + |message| + |PromptTail|
    ensures p[..|PromptHead|] == PromptHead
    ensures p[|PromptHead|..|PromptHead| + |message|] == message
    ensures p[|PromptHead| + |message|..] == PromptTail
  {
    PromptHead + message + PromptTail
  }

  /** Reads the citizen's message back out of a prompt, if it is one. */
  function QuestionOf(prompt: string): Option<string> {
    if |prompt| >= |PromptHead| + |PromptTail|
       && prompt[..|PromptHead|] == PromptHead
       && prompt[|prompt| - |PromptTail|..] == PromptTail
    then Some(prompt[|PromptHead|..|prompt| - |PromptTail|])
    else None
  }

  /** The message travels verbatim: it can be read back out of its prompt. */
  lemma PromptRoundTrip(message: string)
    ensures QuestionOf(ContextPrompt(message)) == Some(message)
  {
    var p := ContextPrompt(message);
    assert |p| - |PromptTail| == |PromptHead| + |message|;
  }

  /** Different messages give different prompts. */
  lemma ContextPromptInjective(m1: string, m2: string)
    requires ContextPrompt(m1) == ContextPrompt(m2)
    ensures m1 == m2
  {
    PromptRoundTrip(m1);
    PromptRoundTrip(m2);
  }

  // ---------------------------------------------------------------- chat

  /** The request method of `/chat`, with the posted form field; a POST
      whose form has no `message` field is a request of its own. */
  datatype Request = Get | Post(message: string) | PostWithoutMessage

  /** What the three remote services answer during one POST. */
  datatype Replies = Replies(token: TokenReply, generation: GenReply, nlu: NluReply)

  /** What the user is shown: the rendered transcript, or Flask's error answer
      to a form without a `message` field (400 with debug off, the debugger's
      500 page under `app.run(debug=True)`). */
  datatype Response = Rendered(history: seq<Entry>) | BadRequest

  /** The outcome of one request: the new state, the response, and the remote
      calls made on the way. */
  datatype Page = Page(state: State, response: Response, calls: seq<Call>)

  /** `chat()` for the logged-in `userId`. */
  function Chat(cfg: Config, s: State, userId: string, request: Request, replies: Replies): (r: Page)
    ensures userId in r.state.chatHistory
    ensures r.response.Rendered? <==> !request.PostWithoutMessage?
    ensures r.response.Rendered? ==> r.response.history == r.state.chatHistory[userId]
    ensures r.state.chatHistory.Keys == s.chatHistory.Keys + {userId}
    ensures forall u :: u in s.chatHistory && u != userId ==> r.state.chatHistory[u] == s.chatHistory[u]
    ensures !request.Post? ==>
      && r.state.chatHistory[userId] == TranscriptOf(s, userId)
      && r.state.feedbackData == s.feedbackData
      && r.calls == []
    ensures request.Post? ==>
      var reply := GetGraniteResponse(cfg, ContextPrompt(request.message), replies.token, replies.generation);
      var mood := GetSentiment(cfg, request.message, replies.nlu).value;
      && r.state.chatHistory[userId]
         == TranscriptOf(s, userId) + [Entry(UserTag, request.message), Entry(AiTag, reply.value)]
      && r.state.feedbackData
         == s.feedbackData + [FeedbackRecord(userId, request.message, mood.labelName, mood.score)]
      && r.calls == reply.calls + GetSentiment(cfg, request.message, replies.nlu).calls
  {
    var history := if userId in s.chatHistory then s.chatHistory else s.chatHistory[userId := []];
    match request
    case Get =>
      Page(State(history, s.feedbackData), Rendered(history[userId]), [])
    case PostWithoutMessage =>
      Page(State(history, s.feedbackData), BadRequest, [])
    case Post(message) =>
      var asked := history[userId] + [Entry(UserTag, message)];
      var reply := GetGraniteResponse(cfg, ContextPrompt(message), replies.token, replies.generation);
      var answered := asked + [Entry(AiTag, reply.value)];
      var mood := GetSentiment(cfg, message, replies.nlu);
      var record := FeedbackRecord(userId, message, mood.value.labelName, mood.value.score);
      Page(State(history[userId := answered], s.feedbackData + [record]), Rendered(answered), reply.calls + mood.calls)
  }

  /** A POST grows the caller's transcript by one user entry and one ai entry,
      whatever the reply text, and logs one record of the original message. */
  lemma PostAppendsExchange(cfg: Config, s: State, userId: string, message: string, replies: Replies)
    ensures var r := Chat(cfg, s, userId, Post(message), replies);
      var n := |TranscriptOf(s, userId)|;
      && r.response.Rendered?
      && |r.response.history| == n + 2
      && r.response.history[..n] == TranscriptOf(s, userId)
      && r.response.history[n] == Entry(UserTag, message)
      && r.response.history[n + 1].sender == AiTag
      && |r.state.feedbackData| == |s.feedbackData| + 1
      && r.state.feedbackData[|s.feedbackData|].username == userId
      && r.state.feedbackData[|s.feedbackData|].text == message
  {
  }

  /** With the generator unconfigured, the ai entry is the credentials
      diagnostic and the only remote request is the sentiment analysis. */
  lemma PostWithoutCredentials(cfg: Config, s: State, userId: string, message: string, replies: Replies)
    requires !Truthy(cfg.apiKey) || !Truthy(cfg.projectId)
    ensures var r := Chat(cfg, s, userId, Post(message), replies);
      && r.response.Rendered?
      && r.response.history[|r.response.history| - 1] == Entry(AiTag, MissingCredentials)
      && forall c :: c in r.calls ==> c.SentimentCall?
  {
  }

  /** Once the generator is configured and a token is granted, the message
      reaches the generation endpoint verbatim inside its prompt, and, when the
      analysis client is set up, the sentiment call carries the message verbatim too. */
  lemma PostSendsMessage(cfg: Config, s: State, userId: string, message: string, replies: Replies)
    requires Truthy(cfg.apiKey) && Truthy(cfg.projectId)
    requires replies.token.TokenJson? && Truthy(replies.token.accessToken)
    ensures var r := Chat(cfg, s, userId, Post(message), replies);
      && |r.calls| >= 2
      && r.calls[1].GenerationCall?
      && QuestionOf(r.calls[1].payload.input) == Some(message)
    ensures var r := Chat(cfg, s, userId, Post(message), replies);
      Truthy(cfg.nluApiKey) && Truthy(cfg.nluUrl) && !replies.nlu.NluSetupFault? ==>
        |r.calls| == 3 && r.calls[2].SentimentCall? && r.calls[2].text == message
  {
    PromptRoundTrip(message);
  }

  /** A POST without a `message` field fails before the transcript is touched
      beyond its lazy creation: nothing is recorded and nothing is called. */
  lemma PostWithoutMessageRecordsNothing(cfg: Config, s: State, userId: string, replies: Replies)
    ensures var r := Chat(cfg, s, userId, PostWithoutMessage, replies);
      && r.response == BadRequest
      && r.state == Chat(cfg, s, userId, Get, replies).state
      && r.calls == []
  {
  }
}
