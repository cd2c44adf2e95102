/**
 * The in-memory session store of ai_service.py: the `chat_sessions` dictionary
 * from user id to conversation history and mood log, with
 * `get_or_create_chat_session`, the per-turn bookkeeping of `enhanced_chat`,
 * the read of `get_mood_tracking` and the reset of `reset_chat`.
 * The hosted model's answer is a parameter of the turn (`None` when the call
 * failed); nothing here talks to the network or the database, but a turn
 * returns the two rows it would store.
 */
module Sessions {
  import opened Text
  import S = Sentiment
  import I = Indicators
  import R = Recommender
  import T = Tracking

  datatype Option<V> = None | Some(value: V)

  datatype ChatError = InvalidMessage

  datatype Result<V> = Ok(value: V) | Err(error: ChatError)

  datatype Role = User | Model

  /** What a turn carries: the fixed system prompt, the fixed greeting, or a message text. */
  datatype Part = SystemPrompt | Greeting | Said(text: string)

  /** One `{'role': ..., 'parts': [...]}` entry of the history. */
  datatype Turn = Turn(role: Role, part: Part)

  /** One `mood_tracking` entry (its timestamp is not modelled). */
  datatype MoodSample = MoodSample(sentiment: real, indicators: seq<string>)

  /** One value of `chat_sessions` (its `last_activity` timestamp is not modelled). */
  datatype Session = Session(history: seq<Turn>, moodTracking: seq<MoodSample>)

  /** The row `save_chat_to_database` would insert. */
  datatype ChatRow = ChatRow(userId: string, message: string, response: string, score: real, indicators: seq<string>)

  /** The row `update_user_tracking` would write. */
  datatype TrackingRow = TrackingRow(userId: string, moodScore: real, level: T.DepressionLevel, recommendedActions: seq<string>)

  /** The JSON body `enhanced_chat` answers with, and the rows it stores. */
  datatype TurnReport = TurnReport(
    reply: string,
    analysis: S.SentimentResult,
    indicators: seq<string>,
    recommendations: seq<string>,
    emergencyDetected: bool,
    moodTrend: T.MoodTrend,
    emergencyResources: Option<R.EmergencyResources>,
    chatRow: ChatRow,
    trackingRow: TrackingRow)

  /** History is cut once it holds more than this many turns. */
  const MaxHistory: nat := 30

  /** `get_mood_tracking` returns at most this many samples (7 * 24). */
  const MoodWindow: nat := 7 * 24

  /** The system prompt followed by the greeting, which every new session starts with. */
  const Preamble: seq<Turn> := [Turn(User, SystemPrompt), Turn(Model, Greeting)]

  const NewSession := Session(Preamble, [])

  /** The reply used when the hosted model's call raised. */
  const FallbackReply: string :=
    "Tôi hiểu bạn đang cần được lắng nghe. Mặc dù có một chút trục trặc kỹ thuật, tôi vẫn muốn bạn biết rằng cảm xúc của bạn là hoàn toàn hợp lý và bạn không cô đơn trong điều này."

  /**
   * The session invariant the store keeps: the system prompt stays first and
   * the history holds between 2 and 31 turns.
   */
  predicate WellFormed(s: Session)
  {
    2 <= |s.history| <= MaxHistory + 1 && s.history[0] == Turn(User, SystemPrompt)
  }

  /**
   * The history limit: a history longer than 30 turns becomes its first turn
   * followed by its newest 30; a shorter one is kept whole.
   */
  function Prune(h: seq<Turn>): (r: seq<Turn>)
    ensures |h| > MaxHistory ==> |r| == MaxHistory + 1 && r[0] == h[0]
    ensures |h| > MaxHistory ==> r[1..] == h[|h| - MaxHistory..]
    ensures |h| <= MaxHistory ==> r == h
  {
    if |h| > MaxHistory then [h[0]] + h[|h| - MaxHistory..] else h
  }

  /** The session after one turn: both turns appended, then pruned; the mood sample appended. */
  function RecordTurn(s: Session, message: string, reply: string, sample: MoodSample): (s': Session)
    ensures s'.moodTracking == s.moodTracking + [sample]
    ensures |s'.history| == if |s.history| + 2 > MaxHistory then MaxHistory + 1 else |s.history| + 2
  {
    Session(Prune(s.history + [Turn(User, Said(message)), Turn(Model, Said(reply))]),
            s.moodTracking + [sample])
  }

  /** `mood_data[-7*24:] if len(mood_data) > 7*24 else mood_data`: the newest 168 samples. */
  function RecentMood(m: seq<MoodSample>): (r: seq<MoodSample>)
    ensures |r| <= MoodWindow
    ensures |m| <= MoodWindow ==> r == m
    ensures |m| > MoodWindow ==> |r| == MoodWindow
    ensures r == m[|m| - |r|..]
  {
    if |m| > MoodWindow then m[|m| - MoodWindow..] else m
  }

  /** The sentiment values of a mood log, oldest first. */
  function Sentiments(m: seq<MoodSample>): (r: seq<real>)
    ensures |r| == |m|
    ensures forall i :: 0 <= i < |m| ==> r[i] == m[i].sentiment
  {
    if m == [] then [] else Sentiments(m[..|m| - 1]) + [m[|m| - 1].sentiment]
  }

  /** A fresh session is well formed. */
  lemma NewSessionWellFormed()
    ensures WellFormed(NewSession) && NewSession.moodTracking == []
  {
  }

  /**
   * A turn keeps the session well formed: the system prompt stays first, the
   * history never exceeds 31 turns, it ends with the user's message and the
   * reply, and the mood log grows by exactly the new sample.
   */
  lemma RecordTurnKeepsInvariant(s: Session, message: string, reply: string, sample: MoodSample)
    requires WellFormed(s)
    ensures var s' := RecordTurn(s, message, reply, sample);
      && WellFormed(s')
      && s'.history[|s'.history| - 2..] == [Turn(User, Said(message)), Turn(Model, Said(reply))]
      && s'.moodTracking == s.moodTracking + [sample]
  {
    var h := s.history + [Turn(User, Said(message)), Turn(Model, Said(reply))];
    var p := Prune(h);
    if |h| > MaxHistory {
      assert p[|p| - 2..] == h[|h| - 2..];
    }
  }

  /**
   * Pruning keeps the first turn and a suffix of the rest: once the history
   * has been cut, every later turn of it is one of the newest turns of the
   * uncut history, in order.
   */
  lemma PruneKeepsNewest(h: seq<Turn>)
    requires h != []
    ensures |Prune(h)| <= |h| && Prune(h)[0] == h[0]
    ensures Prune(h)[1..] == h[|h| - (|Prune(h)| - 1)..]
  {
  }

  /** The session `get_or_create_chat_session` hands out for `userId`. */
  function SessionOf(store: map<string, Session>, userId: string): Session
  {
    if userId in store then store[userId] else NewSession
  }

  /** The store after `userId` sends `message` and gets `reply`, logging `sample`. */
  function Advance(store: map<string, Session>, userId: string, message: string, reply: string, sample: MoodSample): (store': map<string, Session>)
    ensures store'.Keys == store.Keys + {userId}
    ensures forall u :: u in store && u != userId ==> store'[u] == store[u]
    ensures store'[userId].moodTracking == SessionOf(store, userId).moodTracking + [sample]
  {
    store[userId := RecordTurn(SessionOf(store, userId), message, reply, sample)]
  }

  /**
   * A turn keeps every session of the store well formed, and changes no
   * session but the sender's.
   */
  lemma AdvanceKeepsStore(store: map<string, Session>, userId: string, message: string, reply: string, sample: MoodSample)
    requires forall u :: u in store ==> WellFormed(store[u])
    ensures var store' := Advance(store, userId, message, reply, sample);
      && store'.Keys == store.Keys + {userId}
      && (forall u :: u in store' ==> WellFormed(store'[u]))
      && (forall u :: u in store && u != userId ==> store'[u] == store[u])
  {
    NewSessionWellFormed();
    RecordTurnKeepsInvariant(SessionOf(store, userId), message, reply, sample);
  }

  /**
   * After a turn, what `get_mood_tracking` reads for the sender ends with the
   * new sample, and the mood trend the turn reports compares that sample with
   * the one logged just before it.
   */
  lemma AdvanceLogsSample(store: map<string, Session>, userId: string, message: string, reply: string, sample: MoodSample)
    ensures var m := Advance(store, userId, message, reply, sample)[userId].moodTracking;
      && m == SessionOf(store, userId).moodTracking + [sample]
      && RecentMood(m) != [] && RecentMood(m)[|RecentMood(m)| - 1] == sample
      && (T.MoodTrendOf(Sentiments(m)) == T.Improving <==>
            |m| > 1 && sample.sentiment > m[|m| - 2].sentiment)
  {
    var m := SessionOf(store, userId).moodTracking + [sample];
    assert Advance(store, userId, message, reply, sample)[userId].moodTracking == m;
    var r := RecentMood(m);
    assert r[|r| - 1] == m[|m| - 1];
    var xs := Sentiments(m);
    assert |xs| == |m| && xs[|m| - 1] == sample.sentiment;
    if |m| > 1 {
      assert xs[|m| - 2] == m[|m| - 2].sentiment;
    }
  }

  /** Storing twice under one key keeps only the second value. */
  lemma StoreTwice(store: map<string, Session>, userId: string, first: Session, second: Session)
    ensures store[userId := first][userId := second] == store[userId := second]
  {
  }

  /** The reply of a turn: the hosted model's answer, or the fallback text when the call raised. */
  function ReplyText(reply: Option<string>): string
  {
    if reply.Some? then reply.value else FallbackReply
  }

  /** The mood sample a message is logged with: its score and its indicators. */
  function SampleOf(message: string): MoodSample
  {
    MoodSample(S.AnalyzeSentiment(message).score, I.Matching(I.Categories, Lower(message)))
  }

  /**
   * The response `enhanced_chat` answers with once `mood` (the log with the
   * new sample already appended) is known, together with the two rows it
   * stores. The hotlines are attached exactly when the emergency flag is
   * raised, five activities are always recommended and stored, both rows
   * carry the message's score, and the trend is improving exactly when the
   * new sample beats the one before it.
   */
  function Outcome(mood: seq<MoodSample>, userId: string, message: string, botReply: string): (report: TurnReport)
    requires mood != [] && mood[|mood| - 1] == SampleOf(message)
    ensures report.emergencyResources.Some? <==> report.emergencyDetected
    ensures report.emergencyDetected <==>
      T.EmergencyDetected(SampleOf(message).indicators, S.AnalyzeSentiment(message).score)
    ensures |report.recommendations| == 5 && report.trackingRow.recommendedActions == report.recommendations
    ensures report.reply == botReply && report.chatRow.response == botReply
    ensures report.chatRow.score == report.trackingRow.moodScore == report.analysis.score == mood[|mood| - 1].sentiment
    ensures report.moodTrend == T.Improving <==>
      |mood| > 1 && mood[|mood| - 1].sentiment > mood[|mood| - 2].sentiment
  {
    var analysis := S.AnalyzeSentiment(message);
    var inds := I.Matching(I.Categories, Lower(message));
    var emergency := T.EmergencyDetected(inds, analysis.score);
    var recs := R.TierActivities(R.Severity(analysis.score, |inds|));
    var xs := Sentiments(mood);
    assert |xs| > 1 ==> xs[|xs| - 1] == mood[|mood| - 1].sentiment && xs[|xs| - 2] == mood[|mood| - 2].sentiment;
    TurnReport(
      botReply, analysis, inds, recs, emergency,
      T.MoodTrendOf(xs),
      if emergency then Some(R.Emergency) else None,
      ChatRow(userId, message, botReply, analysis.score, inds),
      TrackingRow(userId, analysis.score, T.LevelOf(analysis.score), recs))
  }

  /**
   * The part of `enhanced_chat` that assembles the answer, step by step as
   * the source does. It differs from `Outcome` only in calling the
   * `RecommendActivities` method, and exists to tie that method to `Outcome`.
   */
  method Respond(mood: seq<MoodSample>, userId: string, message: string, botReply: string,
                 analysis: S.SentimentResult, inds: seq<string>) returns (report: TurnReport)
    requires analysis == S.AnalyzeSentiment(message)
    requires inds == I.Matching(I.Categories, Lower(message))
    requires mood != [] && mood[|mood| - 1] == SampleOf(message)
    ensures report == Outcome(mood, userId, message, botReply)
  {
    var recs := R.RecommendActivities(analysis.score, inds);
    var emergency := T.EmergencyDetected(inds, analysis.score);
    var trend := T.MoodTrendOf(Sentiments(mood));
    var resources := if emergency then Some(R.Emergency) else None;
    var chatRow := ChatRow(userId, message, botReply, analysis.score, inds);
    var trackingRow := TrackingRow(userId, analysis.score, T.LevelOf(analysis.score), recs);
    report := TurnReport(botReply, analysis, inds, recs, emergency, trend, resources, chatRow, trackingRow);
  }

  /** A store of sessions keyed by user id. */
  class SessionStore {
    var sessions: map<string, Session>

    /** Every stored session is well formed. */
    ghost predicate Valid()
      reads this
    {
      forall u :: u in sessions ==> WellFormed(sessions[u])
    }

    /** What `get_mood_tracking` answers for `userId`. */
    function MoodView(userId: string): seq<MoodSample>
      reads this
    {
      if userId in sessions then RecentMood(sessions[userId].moodTracking) else []
    }

    /** The empty `chat_sessions = {}`. */
    constructor ()
      ensures Valid() && sessions == map[]
    {
      sessions := map[];
    }

    /**
     * `get_or_create_chat_session(user_id)`: an existing session is returned
     * unchanged and the store left alone; otherwise a fresh session holding
     * the preamble and an empty mood log is stored and returned.
     */
    method GetOrCreate(userId: string) returns (s: Session)
      requires Valid()
      modifies this
      ensures Valid()
      ensures s == SessionOf(old(sessions), userId)
      ensures sessions == old(sessions)[userId := s]
      ensures userId in old(sessions) ==> sessions == old(sessions)
    {
      if userId !in sessions {
        NewSessionWellFormed();
        sessions := sessions[userId := NewSession];
      }
      s := sessions[userId];
    }

    /**
     * `reset_chat`: drop the user's session if there is one, then create a
     * fresh one. The user's mood log reads back empty afterwards.
     */
    method Reset(userId: string)
      requires Valid()
      modifies this
      ensures Valid()
      ensures sessions == old(sessions)[userId := NewSession]
      ensures MoodView(userId) == []
    {
      if userId in sessions {
        sessions := map u | u in sessions && u != userId :: sessions[u];
      }
      var _ := GetOrCreate(userId);
    }

    /**
     * `get_mood_tracking(user_id)`: the newest 168 mood samples of the user's
     * session, or nothing for an unknown user. It changes nothing.
     */
    method MoodTracking(userId: string) returns (samples: seq<MoodSample>)
      ensures samples == MoodView(userId)
      ensures |samples| <= MoodWindow
      ensures userId !in sessions ==> samples == []
      ensures userId in sessions ==>
        var log := sessions[userId].moodTracking;
        && |samples| == (if |log| > MoodWindow then MoodWindow else |log|)
        && samples == log[|log| - |samples|..]
    {
      if userId in sessions {
        samples := RecentMood(sessions[userId].moodTracking);
      } else {
        samples := [];
      }
    }

    /**
     * One `enhanced_chat` request with message `message` and the hosted
     * model's answer `reply` (`None` when the call raised). A blank message is
     * refused and changes nothing. Otherwise the message is analysed, the
     * session fetched or created, both turns and the mood sample appended,
     * the response built, and the history cut back to the first turn plus
     * the newest 30. Other users' sessions are untouched.
     */
    method ChatTurn(userId: string, message: string, reply: Option<string>) returns (result: Result<TurnReport>)
      requires Valid()
      modifies this
      ensures Valid()
      ensures result.Err? <==> IsBlank(message)
      ensures result.Err? ==> sessions == old(sessions)
      ensures result.Ok? ==>
        && sessions == Advance(old(sessions), userId, message, ReplyText(reply), SampleOf(message))
        && result.value == Outcome(SessionOf(old(sessions), userId).moodTracking + [SampleOf(message)],
                                   userId, message, ReplyText(reply))
    {
      if IsBlank(message) {
        return Err(InvalidMessage);
      }
      var analysis := S.AnalyzeSentiment(message);
      var inds := I.ExtractIndicators(message);
      var session := GetOrCreate(userId);
      var history := session.history + [Turn(User, Said(message))];
      var botReply := if reply.Some? then reply.value else FallbackReply;
      history := history + [Turn(Model, Said(botReply))];
      var mood := session.moodTracking + [MoodSample(analysis.score, inds)];
      var report := Respond(mood, userId, message, botReply, analysis, inds);
      assert history == session.history + [Turn(User, Said(message)), Turn(Model, Said(botReply))];
      if |history| > MaxHistory {
        history := [history[0]] + history[|history| - MaxHistory..];
      }
      assert Session(history, mood) == RecordTurn(session, message, botReply, SampleOf(message));
      StoreTwice(old(sessions), userId, session, Session(history, mood));
      AdvanceKeepsStore(old(sessions), userId, message, botReply, SampleOf(message));
      sessions := sessions[userId := Session(history, mood)];
      result := Ok(report);
    }
  }
}
