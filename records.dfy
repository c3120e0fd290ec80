/** What the Practice screen stores at the end of a session and the Dashboard
    reads: the list kept under the browser storage key `speechSenseSessions`,
    most recent session first. */
module Records {

  /** The `type` field of a feedback entry: "positive" or "warning". */
  datatype Kind = Positive | Warning

  /** One coaching message, timestamped `mm:ss` from the session clock. */
  datatype Feedback = Feedback(kind: Kind, message: string, timestamp: string)

  /** One completed practice session. Confidence is stored rounded; words per
      minute and volume are stored as the walk left them. */
  datatype SessionRecord = SessionRecord(
    duration: nat,
    confidenceScore: int,
    wpm: real,
    volume: real,
    feedback: seq<Feedback>)

  /** The stored list of sessions. Practice prepends to it, the Dashboard
      reads it and seeds it when it is empty. */
  class SessionStore {
    var sessions: seq<SessionRecord>

    constructor (initial: seq<SessionRecord>)
      ensures sessions == initial
    {
      sessions := initial;
    }
  }
}
