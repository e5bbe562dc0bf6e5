/**
 * The records the application passes between its parts (the backend's
 * shared type declarations), as Dafny datatypes.
 */
module Types {

  /** The five moods the chat detects. */
  datatype Mood = Funny | Neutral | Reflective | Sad | Confident

  /** The three roast intensities. */
  datatype Intensity = Funny | Brutal | Sarcastic

  function MoodName(m: Mood): string
  {
    match m
    case Funny => "funny"
    case Neutral => "neutral"
    case Reflective => "reflective"
    case Sad => "sad"
    case Confident => "confident"
  }

  datatype ChatMessage = ChatMessage(
    id: string, userId: string, username: string, text: string, mood: Mood, timestamp: int)

  datatype PersonalityScore = PersonalityScore(
    humor: int, emotional: int, analytical: int, ambition: int,
    social: int, creativity: int, resilience: int)

  datatype RoomStatus = Waiting | Active | Finished

  datatype RoomPlayer = RoomPlayer(
    userId: string, username: string, score: int, roasts: seq<string>, isReady: bool)

  datatype RoastBattleRoom = RoastBattleRoom(
    roomCode: string, players: seq<RoomPlayer>, status: RoomStatus,
    currentRound: int, maxRounds: int, createdAt: int)

  datatype RoastSubmission = RoastSubmission(
    playerId: string, roast: string, targetId: string, score: int, timestamp: int)

  datatype LeaderboardEntry = LeaderboardEntry(
    userId: string, username: string, score: int, rank: int)

  datatype AdviceResponse = AdviceResponse(
    category: string, advice: string, tips: seq<string>, mood: string)
}
