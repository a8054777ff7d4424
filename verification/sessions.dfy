/** What holds across any sequence of chat requests: the transcripts stay in
    user/ai pairs, each user's messages are exactly the feedback log's records
    for that user, the log only grows, and the dashboard counts every POST. */
module Sessions {
  import opened Py
  import opened Remote
  import opened Records
  import opened Feedback
  import opened Portal

  // ---------------------------------------------------------------- the invariant

  /** A transcript alternates user and ai entries, starting with the user. */
  ghost predicate Paired(t: seq<Entry>) {
    |t| % 2 == 0 && forall i :: 0 <= i < |t| ==> t[i].sender == (if i % 2 == 0 then UserTag else AiTag)
  }

  /** The texts of the user's own entries of a transcript. */
  function UserMessages(t: seq<Entry>): seq<string> {
    if |t| == 0 then []
    else UserMessages(t[..|t| - 1]) + (if t[|t| - 1].sender == UserTag then [t[|t| - 1].text] else [])
  }

  /** The texts of a user's feedback records, in log order. */
  function MessagesBy(fb: seq<FeedbackRecord>, userId: string): seq<string> {
    if |fb| == 0 then []
    else MessagesBy(fb[..|fb| - 1], userId) + (if fb[|fb| - 1].username == userId then [fb[|fb| - 1].text] else [])
  }

  /** The transcripts and the feedback log tell the same story: each
      transcript is paired, its user messages are that user's records, and
      every record belongs to a user with a transcript. */
  ghost predicate Consistent(s: State) {
    && (forall u :: u in s.chatHistory ==> Paired(s.chatHistory[u]))
    && (forall u :: u in s.chatHistory ==> UserMessages(s.chatHistory[u]) == MessagesBy(s.feedbackData, u))
    && (forall i :: 0 <= i < |s.feedbackData| ==> s.feedbackData[i].username in s.chatHistory)
  }

  lemma {:induction false} MessagesByAbsent(fb: seq<FeedbackRecord>, userId: string)
    requires forall i :: 0 <= i < |fb| ==> fb[i].username != userId
    ensures MessagesBy(fb, userId) == []
  {
    if |fb| > 0 {
      MessagesByAbsent(fb[..|fb| - 1], userId);
    }
  }

  lemma MessagesByAppend(fb: seq<FeedbackRecord>, record: FeedbackRecord, userId: string)
    ensures MessagesBy(fb + [record], userId)
         == MessagesBy(fb, userId) + (if record.username == userId then [record.text] else [])
  {
    assert (fb + [record])[..|fb|] == fb;
  }

  lemma UserMessagesExchange(t: seq<Entry>, message: string, reply: string)
    ensures UserMessages(t + [Entry(UserTag, message), Entry(AiTag, reply)]) == UserMessages(t) + [message]
  {
    var asked := t + [Entry(UserTag, message)];
    var answered := t + [Entry(UserTag, message), Entry(AiTag, reply)];
    assert answered[..|answered| - 1] == asked;
    assert asked[..|asked| - 1] == t;
  }

  /** Paired transcripts hold one user message per exchange. */
  lemma {:induction false} PairedUserMessages(t: seq<Entry>)
    requires Paired(t)
    ensures 2 * |UserMessages(t)| == |t|
  {
    if |t| > 0 {
      var init := t[..|t| - 2];
      assert Paired(init);
      PairedUserMessages(init);
      assert t == init + [Entry(UserTag, t[|t| - 2].text), Entry(AiTag, t[|t| - 1].text)];
      UserMessagesExchange(init, t[|t| - 2].text, t[|t| - 1].text);
    }
  }

  lemma InitialConsistent()
    ensures Consistent(Initial)
  {
  }

  /** One more exchange keeps a transcript paired. */
  lemma ExchangePaired(t: seq<Entry>, message: string, reply: string)
    requires Paired(t)
    ensures Paired(t + [Entry(UserTag, message), Entry(AiTag, reply)])
  {
  }

  /** A GET, or a POST without a message, only creates the caller's
      transcript if it is missing. */
  lemma GetPreservesConsistency(cfg: Config, s: State, userId: string, request: Request, replies: Replies)
    requires Consistent(s)
    requires !request.Post?
    ensures Consistent(Chat(cfg, s, userId, request, replies).state)
  {
    if userId !in s.chatHistory {
      MessagesByAbsent(s.feedbackData, userId);
    }
  }

  /** The state after a POST: one exchange more in the caller's transcript,
      one record of the caller's message more in the log. */
  function AfterExchange(s: State, userId: string, message: string, reply: string, mood: Sentiment): State {
    State(s.chatHistory[userId := TranscriptOf(s, userId) + [Entry(UserTag, message), Entry(AiTag, reply)]],
          s.feedbackData + [FeedbackRecord(userId, message, mood.labelName, mood.score)])
  }

  /** Adding an exchange and its record together keeps the state consistent,
      whatever the reply and the sentiment. */
  lemma ExchangePreservesConsistency(s: State, userId: string, message: string, reply: string, mood: Sentiment)
    requires Consistent(s)
    ensures Consistent(AfterExchange(s, userId, message, reply, mood))
  {
    var next := AfterExchange(s, userId, message, reply, mood);
    var h := next.chatHistory;
    var before := TranscriptOf(s, userId);
    var record := FeedbackRecord(userId, message, mood.labelName, mood.score);
    if userId !in s.chatHistory {
      MessagesByAbsent(s.feedbackData, userId);
    }
    forall u | u in h
      ensures Paired(h[u])
      ensures UserMessages(h[u]) == MessagesBy(next.feedbackData, u)
    {
      MessagesByAppend(s.feedbackData, record, u);
      if u == userId {
        ExchangePaired(before, message, reply);
        UserMessagesExchange(before, message, reply);
      }
    }
  }

  /** A POST is such an exchange, so it keeps the state consistent. */
  lemma PostPreservesConsistency(cfg: Config, s: State, userId: string, message: string, replies: Replies)
    requires Consistent(s)
    ensures Consistent(Chat(cfg, s, userId, Post(message), replies).state)
  {
    var reply := GetGraniteResponse(cfg, ContextPrompt(message), replies.token, replies.generation).value;
    var mood := GetSentiment(cfg, message, replies.nlu).value;
    assert Chat(cfg, s, userId, Post(message), replies).state == AfterExchange(s, userId, message, reply, mood);
    ExchangePreservesConsistency(s, userId, message, reply, mood);
  }

  /** Every chat request keeps the transcripts and the log consistent. */
  lemma ChatPreservesConsistency(cfg: Config, s: State, userId: string, request: Request, replies: Replies)
    requires Consistent(s)
    ensures Consistent(Chat(cfg, s, userId, request, replies).state)
  {
    match request
    case Get => GetPreservesConsistency(cfg, s, userId, request, replies);
    case PostWithoutMessage => GetPreservesConsistency(cfg, s, userId, request, replies);
    case Post(message) => PostPreservesConsistency(cfg, s, userId, message, replies);
  }

  // ---------------------------------------------------------------- runs

  /** One request of some logged-in user, with what the services answer. */
  datatype Step = Step(userId: string, request: Request, replies: Replies)

  /** The state after serving the requests in order. */
  function Run(cfg: Config, s: State, steps: seq<Step>): State
    decreases |steps|
  {
    if |steps| == 0 then s
    else Run(cfg, Chat(cfg, s, steps[0].userId, steps[0].request, steps[0].replies).state, steps[1..])
  }

  function PostCount(steps: seq<Step>): nat {
    if |steps| == 0 then 0 else (if steps[0].request.Post? then 1 else 0) + PostCount(steps[1..])
  }

  function PostsBy(steps: seq<Step>, userId: string): nat {
    if |steps| == 0 then 0
    else (if steps[0].request.Post? && steps[0].userId == userId then 1 else 0) + PostsBy(steps[1..], userId)
  }

  lemma {:induction false} RunPreservesConsistency(cfg: Config, s: State, steps: seq<Step>)
    requires Consistent(s)
    ensures Consistent(Run(cfg, s, steps))
    decreases |steps|
  {
    if |steps| > 0 {
      ChatPreservesConsistency(cfg, s, steps[0].userId, steps[0].request, steps[0].replies);
      RunPreservesConsistency(cfg, Chat(cfg, s, steps[0].userId, steps[0].request, steps[0].replies).state, steps[1..]);
    }
  }

  /** The log only grows: what was recorded stays, and each POST adds one record. */
  lemma {:induction false} RunExtendsLog(cfg: Config, s: State, steps: seq<Step>)
    ensures var fb := Run(cfg, s, steps).feedbackData;
      |fb| == |s.feedbackData| + PostCount(steps) && fb[..|s.feedbackData|] == s.feedbackData
    decreases |steps|
  {
    if |steps| > 0 {
      var next := Chat(cfg, s, steps[0].userId, steps[0].request, steps[0].replies).state;
      RunExtendsLog(cfg, next, steps[1..]);
      var fb := Run(cfg, s, steps).feedbackData;
      assert fb[..|s.feedbackData|] == fb[..|next.feedbackData|][..|s.feedbackData|];
    }
  }

  /** Each user's transcript keeps what it had and grows by two entries per
      POST of that user; other users' requests leave it alone. */
  lemma {:induction false} RunExtendsTranscript(cfg: Config, s: State, steps: seq<Step>, userId: string)
    ensures var t := TranscriptOf(Run(cfg, s, steps), userId);
      |t| == |TranscriptOf(s, userId)| + 2 * PostsBy(steps, userId)
      && t[..|TranscriptOf(s, userId)|] == TranscriptOf(s, userId)
    decreases |steps|
  {
    if |steps| > 0 {
      var next := Chat(cfg, s, steps[0].userId, steps[0].request, steps[0].replies).state;
      RunExtendsTranscript(cfg, next, steps[1..], userId);
      var t := TranscriptOf(Run(cfg, s, steps), userId);
      var n := |TranscriptOf(s, userId)|;
      assert TranscriptOf(next, userId)[..n] == TranscriptOf(s, userId);
      assert t[..n] == t[..|TranscriptOf(next, userId)|][..n];
    }
  }

  /** From a fresh start, the dashboard total is the number of POSTs served,
      and each user's transcript is twice as long as that user's share of
      the log. */
  lemma DashboardCountsPosts(cfg: Config, steps: seq<Step>, userId: string)
    ensures Dashboard(Run(cfg, Initial, steps).feedbackData).totalFeedback == PostCount(steps)
    ensures |TranscriptOf(Run(cfg, Initial, steps), userId)|
         == 2 * |MessagesBy(Run(cfg, Initial, steps).feedbackData, userId)|
  {
    RunExtendsLog(cfg, Initial, steps);
    InitialConsistent();
    RunPreservesConsistency(cfg, Initial, steps);
    var s := Run(cfg, Initial, steps);
    if userId in s.chatHistory {
      PairedUserMessages(s.chatHistory[userId]);
    } else {
      MessagesByAbsent(s.feedbackData, userId);
    }
  }
}
