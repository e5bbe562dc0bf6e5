/**
 * The client's application store (frontend/store/appStore.ts): who the
 * user is, the current mood and the recent moods, the chat messages, the
 * personality score and the connection flag. Each action replaces some
 * fields and keeps the others.
 */
module AppStore {
  import opened Text
  import opened Types

  /** How many moods the history keeps. */
  const HistoryLimit: nat := 20

  /** `[...history, mood].slice(-20)`. */
  function WithMood(history: seq<Mood>, mood: Mood): seq<Mood>
  {
    LastN(history + [mood], HistoryLimit)
  }

  /** The history window: the new mood is always last, at most 20 moods are
   *  kept, nothing is dropped below the limit, and at the limit the oldest
   *  mood is the one dropped. */
  lemma {:induction false} WithMoodWindow(history: seq<Mood>, mood: Mood)
    ensures var r := WithMood(history, mood);
      0 < |r| <= HistoryLimit && r[|r| - 1] == mood
      && (|history| < HistoryLimit ==> r == history + [mood])
      && (|history| >= HistoryLimit ==> r == history[|history| - (HistoryLimit - 1)..] + [mood])
  {
    var h := history + [mood];
    var r := WithMood(history, mood);
    assert r == h[|h| - |r|..];
    if |history| >= HistoryLimit {
      assert |r| == HistoryLimit;
      assert h[|h| - HistoryLimit..] == history[|history| - (HistoryLimit - 1)..] + [mood];
    }
  }

  class AppStore {
    var userId: string
    var username: string
    var currentMood: Mood
    var moodHistory: seq<Mood>
    var messages: seq<ChatMessage>
    var personalityScore: Option<PersonalityScore>
    var isConnected: bool

    constructor()
      ensures |moodHistory| <= HistoryLimit
      ensures userId == "" && username == "" && currentMood == Mood.Neutral
      ensures moodHistory == [] && messages == [] && personalityScore == None && !isConnected
    {
      userId := "";
      username := "";
      currentMood := Mood.Neutral;
      moodHistory := [];
      messages := [];
      personalityScore := None;
      isConnected := false;
    }

    method SetUserId(id: string)
      modifies this
      ensures userId == id
      ensures username == old(username) && currentMood == old(currentMood) && moodHistory == old(moodHistory)
      ensures messages == old(messages) && personalityScore == old(personalityScore) && isConnected == old(isConnected)
    {
      userId := id;
    }

    method SetUsername(name: string)
      modifies this
      ensures username == name
      ensures userId == old(userId) && currentMood == old(currentMood) && moodHistory == old(moodHistory)
      ensures messages == old(messages) && personalityScore == old(personalityScore) && isConnected == old(isConnected)
    {
      username := name;
    }

    method SetCurrentMood(mood: Mood)
      modifies this
      ensures currentMood == mood
      ensures userId == old(userId) && username == old(username) && moodHistory == old(moodHistory)
      ensures messages == old(messages) && personalityScore == old(personalityScore) && isConnected == old(isConnected)
    {
      currentMood := mood;
    }

    /** `addMoodToHistory(mood)`: appended last, oldest dropped beyond 20. */
    method AddMoodToHistory(mood: Mood)
      modifies this
      ensures moodHistory == WithMood(old(moodHistory), mood)
      ensures |moodHistory| <= HistoryLimit
      ensures userId == old(userId) && username == old(username) && currentMood == old(currentMood)
      ensures messages == old(messages) && personalityScore == old(personalityScore) && isConnected == old(isConnected)
    {
      var window := WithMood(moodHistory, mood);
      assert |window| <= HistoryLimit;
      moodHistory := window;
    }

    /** `addMessage(message)`: exactly one message appended. */
    method AddMessage(message: ChatMessage)
      modifies this
      ensures messages == old(messages) + [message]
      ensures userId == old(userId) && username == old(username) && currentMood == old(currentMood)
      ensures moodHistory == old(moodHistory) && personalityScore == old(personalityScore) && isConnected == old(isConnected)
    {
      messages := messages + [message];
    }

    method SetPersonalityScore(score: PersonalityScore)
      modifies this
      ensures personalityScore == Some(score)
      ensures userId == old(userId) && username == old(username) && currentMood == old(currentMood)
      ensures moodHistory == old(moodHistory) && messages == old(messages) && isConnected == old(isConnected)
    {
      personalityScore := Some(score);
    }

    method SetConnected(connected: bool)
      modifies this
      ensures isConnected == connected
      ensures userId == old(userId) && username == old(username) && currentMood == old(currentMood)
      ensures moodHistory == old(moodHistory) && messages == old(messages) && personalityScore == old(personalityScore)
    {
      isConnected := connected;
    }

    /** `reset()`: clears the session's mood, history, messages and score,
     *  but keeps the identity and the connection flag. */
    method Reset()
      modifies this
      ensures |moodHistory| <= HistoryLimit
      ensures currentMood == Mood.Neutral && moodHistory == [] && messages == [] && personalityScore == None
      ensures userId == old(userId) && username == old(username) && isConnected == old(isConnected)
    {
      currentMood := Mood.Neutral;
      moodHistory := [];
      messages := [];
      personalityScore := None;
    }
  }
}
