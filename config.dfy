/** The constants of the bot's configuration module. */
module Config {
  /** The reaction that counts as an upvote (U+1F525, fire). */
  const UpvoteEmoji: string := "\U{1F525}"
  /** The reaction that counts as a downvote (U+1F345, tomato). */
  const DownvoteEmoji: string := "\U{1F345}"

  /** Starting dollar balance of a usage account. */
  const InitialDabloons: real := 0.5

  const DefaultModelEngine: string := "gpt-4.1-mini"
  const DefaultTemperature: real := 1.0
  const DefaultFreqPenalty: real := 0.0
  const DefaultPresPenalty: real := 0.0
  const DefaultTopP: real := 1.0

  /** The bot's name as it appears at the head of its own prompt lines. */
  const BotName: string := "Gluemo"

  /** The personality used when no configuration file overrides it. */
  const FallbackPersonality: string := "You are an assistant named Gluemo."
}
