/** The in-memory data of app.py: the account table, the per-user chat
    transcripts and the global feedback log. */
module Records {

  /** The sender tags of transcript entries. */
  const UserTag := "user"
  const AiTag := "ai"

  /** One line of a transcript: `{'sender': ..., 'text': ...}`. */
  datatype Entry = Entry(sender: string, text: string)

  /** One record of the feedback log: who wrote what, and how it was scored. */
  datatype FeedbackRecord = FeedbackRecord(username: string, text: string, sentiment: string, sentimentScore: real)

  /** An account of the `users` table. */
  datatype Account = Account(password: string)

  /** `chat_history` and `feedback_data` together. */
  datatype State = State(chatHistory: map<string, seq<Entry>>, feedbackData: seq<FeedbackRecord>)

  /** The process starts with no transcripts and no feedback. */
  const Initial := State(map[], [])

  /** `users`: the one built-in account. */
  const Users: map<string, Account> := map["citizen1" := Account("password123")]

  /** A user's transcript, the empty one if it has not been created yet. */
  function TranscriptOf(s: State, userId: string): seq<Entry> {
    if userId in s.chatHistory then s.chatHistory[userId] else []
  }
}
