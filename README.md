# Corujita chat bot: a Dafny model

Corujita is a Twitch chat bot. For every chat message it does the following, in order:

1. It ignores the message when it is the bot's own, or when the sender has no usable name.
2. It registers the sender in a per-user stage store.
3. It answers a rock-paper-scissors ("jokenpo") command when the message addresses the bot.
4. Otherwise it answers a heads-or-tails ("cara ou coroa") bet.
5. Otherwise it runs the onboarding flow:
   - a greeting at stage 0, a question at stage 1, silence at stage 2;
   - then the stage advances, up to 2;
   - the streamer `fantonlord` skips the greeting and the question silently.

This project models that pipeline and the pieces it uses:

- the stage store `UserStateManager`;
- the two game rule sets;
- the greeting and question templates with their `{username}` substitution;
- the `.env` parser of the configuration, with the `||` fallbacks for the channel and the token;
- the random helpers `randomInt`, `randomElement` and the Fisher-Yates `shuffle`.

Modules and files:

| module | file | models |
|---|---|---|
| `Wrappers` | `wrappers.dfy` | `Option` and `Result` |
| `Text` | `text.dfy` | the JavaScript string operations used, on ASCII |
| `Template` | `template.dfy` | `{username}` substitution |
| `Random` | `random.dfy` | `src/utils/random.ts` |
| `Jokenpo` | `jokenpo.dfy` | `src/messages/jokenpo.ts` |
| `CaraOuCoroa` | `cara_ou_coroa.dfy` | `src/messages/caraOuCoroa.ts` |
| `Greetings` | `greetings.dfy` | `src/messages/greetings.ts` |
| `Questions` | `questions.dfy` | `src/messages/questions.ts` |
| `UserState` | `user_state.dfy` | `src/state/UserState.ts` |
| `Config` | `config.dfy` | `src/config/Config.ts` |
| `MessageHandler` | `message_handler.dfy` | `src/bot/MessageHandler.ts` |
| `Dispatch` | `dispatch.dfy` | lemmas about the whole pipeline |

How the state and the outside world are modelled:

- The stage store is a class whose `userStates` field is a map. Its methods reassign that field.
- The message handler is a class. Every `chatClient.say(channel, text)` appends `(channel, text)` to its field `said`.
- `MessageHandler.HandleMessage` is proved equal to a reference function, `MessageHandler.Respond`, which gives the next map and the action taken.
- The methods it calls are each proved equal to the part of `Respond` they carry out:
  - `AnswerMessage` to `Answer`;
  - `AnswerNoJokenpoMessage` to `AnswerNoJokenpo`;
  - `FollowStage` to `StageStep`;
  - `SayOnboarding` to `Onboarding`.
- `Say` appends one line and does nothing else.
- `Date.now()` is a parameter `now`.
- Each `Math.random()` draw is a parameter: a real in [0, 1) that the caller supplies.
- The `.env` parser receives the file content as `Option<string>`: `None` when the file does not exist.
- The process environment and the built-in fallback token are parameters.

## Model

| member | source | states |
|---|---|---|
| Text.Lower | src/bot/MessageHandler.ts:40 | the result has the input's length, and each character is the ASCII lower-case of the input's character |
| Text.LowerIdempotent | src/state/UserState.ts:29-30 | lowering an already lowered name changes nothing, so `advanceUserStage` finds the record it passes on to `getUserStage` |
| Text.Capitalize | src/messages/jokenpo.ts:74 | the first character is upper-cased and the rest is kept |
| Text.Trim | src/config/Config.ts:24 | the result is the slice of the input left once the white characters before and after it are cut off, and it is empty or has no white character at either end |
| Text.TrimDropsTrailingWhite | src/config/Config.ts:21-24 | a white character at the end of a line does not change the trimmed line |
| Text.IndexOf | src/bot/MessageHandler.ts:49-51 | the result is -1 exactly when `sub` occurs nowhere; otherwise it is the leftmost occurrence |
| Text.ReplaceFirst | src/messages/greetings.ts:83 | with no occurrence the string is unchanged; otherwise only the first occurrence is replaced and the text around it is kept |
| Text.CharIndex | src/config/Config.ts:27-28 | the first index of the character, or the length when the character does not occur |
| Text.SplitOn | src/config/Config.ts:21 | at least one piece, no piece contains the separator, and joining the pieces with it gives back the input |
| Text.SplitWhite | src/bot/MessageHandler.ts:110 | the pieces joined with the maximal white runs between them give back the input; no piece holds a white character; only the first and the last piece can be empty, and the first is empty exactly when the input is empty or starts with a white character |
| Text.WordRun | src/bot/MessageHandler.ts:59 | the length of the maximal run of `\w` characters at the front |
| Text.Interleave | src/bot/MessageHandler.ts:110 | the pieces glued back with their gaps; `Text.SplitWhite` states that this gives back the split string |
| Text.WhiteGaps | src/bot/MessageHandler.ts:110 | every gap between two pieces of the split is a non-empty run of white characters |
| Text.TrimSlice | src/config/Config.ts:24 | trimming keeps a slice of the input and drops only white characters at both ends |
| Template.FirstPlaceholder | src/messages/greetings.ts:83 | in a template whose first `{` starts `@{username}`, that is the occurrence `replace` finds |
| Template.FillMarked | src/messages/greetings.ts:83 | filling keeps the text around the placeholder, gives length template − 10 + name length, and contains `@` followed by the name |
| Template.FillAddresses | src/messages/questions.ts:171 | the same length and `@`-mention facts for every well-formed template |
| Template.FillSplit | src/messages/questions.ts:171 | filling `pre + "@{username}" + post` gives `pre + "@" + name + post` when `pre` has no `{` |
| Template.FillFront | src/messages/jokenpo.ts:78-81 | filling a template that opens with `@{username}` gives `"@" + name` followed by the rest |
| Random.RandomInt | src/utils/random.ts:8-10 | for min < max the result lies in [min, max); for an empty range it lies between max and min |
| Random.RandomElement | src/utils/random.ts:15-20 | fails exactly on an empty array and otherwise returns a member of the array |
| Random.SwapIndices | src/utils/random.ts:28 | the partner index of step i is `randomInt(0, i + 1)` and lies in [0, i] |
| Random.Swap | src/utils/random.ts:29 | the two positions trade their elements and every other position is kept |
| Random.SwapPermutes | src/utils/random.ts:29 | a swap keeps the multiset of elements |
| Random.ShuffleStep | src/utils/random.ts:27-30 | one loop step is the swap at i followed by the steps below i |
| Random.ShuffleFrom | src/utils/random.ts:27-30 | the loop steps from index i down to 1; keeps the length, and `Random.ShuffleFromPermutes` and `Random.ShuffleFromKeepsAbove` state what it does |
| Random.FisherYates | src/utils/random.ts:25-32 | the value `shuffle` returns; `Random.FisherYatesPermutes` and `Random.FisherYatesShort` state what it is |
| Random.ShuffleFromPermutes | src/utils/random.ts:27-30 | the loop from any index keeps the multiset of elements |
| Random.FisherYatesPermutes | src/utils/random.ts:25-32 | `shuffle` returns a sequence of the same length and the same multiset as its input |
| Random.ShuffleFromKeepsAbove | src/utils/random.ts:27-30 | positions above the loop index are never touched again |
| Random.FisherYatesShort | src/utils/random.ts:27 | arrays of length 0 or 1 come back unchanged |
| Random.SwapInPlace | src/utils/random.ts:29 | the array afterwards is the old contents with the two positions swapped |
| Random.Shuffle | src/utils/random.ts:25-32 | a fresh array holds the Fisher-Yates result of the input's contents, which is a permutation of them; the argument is not modified |
| Jokenpo.GetBotChoice | src/messages/jokenpo.ts:13-16 | the bot plays pedra, papel or tesoura on the first, second or last third of the draws |
| Jokenpo.NormalizeChoice | src/messages/jokenpo.ts:21-35 | a move is returned only when the lowered, trimmed input is its Portuguese name or English synonym; with no such move the result is null |
| Jokenpo.NormalizeAccepts | src/messages/jokenpo.ts:21-35 | conversely, an input whose normal form names a move is read as that move |
| Jokenpo.NormalizeNames | src/messages/jokenpo.ts:24-32 | every move is recognised by its own name and by its English synonym |
| Jokenpo.DetermineWinner | src/messages/jokenpo.ts:41-63 | the result is in {-1, 0, 1}; it is 0 exactly on a tie, -1 exactly when the user's move beats the bot's in the cycle, and 1 exactly when the bot's beats the user's |
| Jokenpo.WinnerAntisymmetric | src/messages/jokenpo.ts:54-62 | swapping the players negates the result |
| Jokenpo.BeatsExactlyOne | src/messages/jokenpo.ts:49-59 | every move beats exactly one move and loses to exactly one |
| Jokenpo.GenerateJokenpoResponse | src/messages/jokenpo.ts:68-95 | the reply is `"@" + username + " " + capitalised bot move + "! "` followed by the verdict for the result (Ganhei, Perdi or Empate with its emote) |
| Jokenpo.CapitalizedNames | src/messages/jokenpo.ts:74 | the reply shows "Pedra", "Papel" and "Tesoura" |
| CaraOuCoroa.FlipCoin | src/messages/caraOuCoroa.ts:11-13 | the coin shows cara exactly when the draw is below one half, and coroa otherwise |
| CaraOuCoroa.NormalizeCoinChoice | src/messages/caraOuCoroa.ts:18-29 | a side is returned only when the lowered, trimmed input is its Portuguese name or English synonym; with no such side the result is null |
| CaraOuCoroa.NormalizeCoinAccepts | src/messages/caraOuCoroa.ts:18-29 | conversely, an input whose normal form names a side is read as that side |
| CaraOuCoroa.NormalizeCoinNames | src/messages/caraOuCoroa.ts:21-26 | every side is recognised by its own name and by its English synonym |
| CaraOuCoroa.DidUserWin | src/messages/caraOuCoroa.ts:34-39 | the user wins exactly when the bet equals the coin |
| CaraOuCoroa.BetWinsOnOneHalf | src/messages/caraOuCoroa.ts:11-39 | a bet on cara wins exactly on draws below one half, and a bet on coroa wins exactly on the others |
| CaraOuCoroa.GenerateCoinFlipResponse | src/messages/caraOuCoroa.ts:44-66 | the reply is `"@" + username + " " + capitalised coin side + "! "` followed by "Acertou fanton7LUL" on a win or "Não foi dessa vez fanton7Hey" on a loss; the bet does not appear |
| CaraOuCoroa.CapitalizedSides | src/messages/caraOuCoroa.ts:50-51 | the reply shows "Cara" and "Coroa" |
| Greetings.GreetingParts | src/messages/greetings.ts:11-74 | the text before each template's `@{username}` holds no `{` |
| Greetings.GreetingWellFormed | src/messages/greetings.ts:10-75 | each of the 64 templates contains `@{username}`, and that is its first placeholder |
| Greetings.Greeting | src/messages/greetings.ts:11-74 | the template at an index, in source order; `Greetings.GreetingWellFormed` states that each one addresses the user |
| Greetings.GetRandomGreeting | src/messages/greetings.ts:80-84 | for every draw the index is in bounds; the result is some template with its first `{username}` replaced by the name, of length template − 10 + name length, and it contains `@` followed by the name |
| Questions.QuestionParts | src/messages/questions.ts:12-162 | the text before each template's `@{username}` holds no `{` |
| Questions.QuestionWellFormed | src/messages/questions.ts:10-163 | each of the 57 templates contains `@{username}`, and that is its first placeholder |
| Questions.Question | src/messages/questions.ts:12-162 | the template at an index, in source order; `Questions.QuestionWellFormed` states that each one addresses the user |
| Questions.GetRandomQuestion | src/messages/questions.ts:168-172 | for every draw the index is in bounds; the result is some template with its first `{username}` replaced by the name, of length template − 10 + name length, and it contains `@` followed by the name |
| UserState.StageOf | src/state/UserState.ts:20-23 | the stored stage of the lower-cased name, and 0 for a name without a record |
| UserState.Advanced | src/state/UserState.ts:28-42 | below stage 2 the lower-cased name's record moves to the next stage, keeps its first-message time (or starts one now) and is touched now; at stage 2 the map is unchanged; no other record changes |
| UserState.Registered | src/state/UserState.ts:47-60 | a new name gets a stage-0 record started now; a known name only has its last interaction time set to now; no other record changes |
| UserState.Evicted | src/state/UserState.ts:94-106 | a record is kept exactly when `now - lastInteractionTime > maxAgeMs` is false, and kept records are unchanged |
| UserState.StageCaseInsensitive | src/state/UserState.ts:21 | a name and its lower-cased form have the same stage |
| UserState.AdvanceStep | src/state/UserState.ts:32-41 | advancing raises the user's stage by one, saturating at 2, and no other user's stage changes |
| UserState.RegisterKeepsStages | src/state/UserState.ts:51-59 | registering never changes any user's stage |
| UserState.UpdatesKeepInvariants | src/state/UserState.ts:36-58 | both updates keep every key lower-cased and, when the clock does not go back, keep first time ≤ last time ≤ now |
| UserState.ReplayMonotone | src/state/UserState.ts:28-60 | along any sequence of registrations and advances no user's stage goes down |
| UserState.Replay | src/state/UserState.ts:28-60 | a sequence of registrations and advances applied in order; `UserState.ReplayMonotone` states that stages never go down along it |
| UserState.EvictIdempotent | src/state/UserState.ts:94-106 | a second cleanup at the same moment removes nothing more |
| UserState.JustRegisteredSurvives | src/state/UserState.ts:47-106 | a user who has just written survives a cleanup at the same moment under any non-negative age limit |
| UserState.UserStateManager.constructor | src/state/UserState.ts:15 | the store starts empty |
| UserState.UserStateManager.GetUserStage | src/state/UserState.ts:20-23 | the stage of the lower-cased name, 0 when there is no record |
| UserState.UserStateManager.AdvanceUserStage | src/state/UserState.ts:28-42 | the new map is `Advanced` of the old one |
| UserState.UserStateManager.RegisterFirstMessage | src/state/UserState.ts:47-60 | the new map is `Registered` of the old one |
| UserState.UserStateManager.ResetUserState | src/state/UserState.ts:65-67 | only the lower-cased name's record is removed |
| UserState.UserStateManager.ResetAllStates | src/state/UserState.ts:72-74 | the map becomes empty |
| UserState.UserStateManager.GetUserState | src/state/UserState.ts:79-81 | a record is returned exactly when the lower-cased name has one, and it is that record |
| UserState.UserStateManager.GetTotalUsers | src/state/UserState.ts:86-88 | the number of records |
| UserState.UserStateManager.CleanupOldStates | src/state/UserState.ts:94-106 | exactly the stale records are deleted, the others are unchanged, and the result is the number deleted |
| Config.Unquote | src/config/Config.ts:34-39 | an unquoted value is returned as is; a quoted value loses exactly its matching outer pair; a lone quote character becomes empty |
| Config.ParseTrimmedMeaning | src/config/Config.ts:24-31 | a trimmed line gives no entry exactly when it is blank, starts with `#` or has no `=`; otherwise the key is the trimmed text before the first `=` and the value the trimmed, unquoted text after it |
| Config.ParseEntry | src/config/Config.ts:24-39 | the loop body for one line computes what `ParseLine` gives for it |
| Config.ParseLine | src/config/Config.ts:24-39 | the entry one line gives; `Config.ParseTrimmedMeaning`, `Config.CarriageReturnIgnored` and `Config.FormatParse` state what it is |
| Config.Write | src/config/Config.ts:41 | writing one entry into the record; a `__proto__` key is not stored; `Config.LastLineWins` and `Config.KeysFromLines` state the effect on the record |
| Config.ParseLines | src/config/Config.ts:23-42 | the record after all the lines; `Config.ParseLinesSnoc`, `Config.KeysFromLines`, `Config.LastLineWins` and `Config.IgnoredLine` state what it holds |
| Config.EnvOf | src/config/Config.ts:15-46 | the record `loadEnvFile` returns; `Config.LoadEnvFile` is proved to compute it |
| Config.LoadLines | src/config/Config.ts:23-42 | the loop over the lines builds `ParseLines` of all the lines |
| Config.LoadEnvFile | src/config/Config.ts:15-46 | an empty record when there is no file; otherwise the content is split on `\n` and the lines are parsed in order |
| Config.ParseLinesSnoc | src/config/Config.ts:23-42 | one more line writes that line's entry, if any, over the record of the lines before it |
| Config.KeysFromLines | src/config/Config.ts:41 | every key of the record was set by some line, and `__proto__` is never a key |
| Config.LastLineWins | src/config/Config.ts:41 | a key other than `__proto__` gets the value of the last line that sets it |
| Config.IgnoredLine | src/config/Config.ts:25-28 | a blank line, a comment line or a line without `=` leaves the record unchanged |
| Config.CarriageReturnIgnored | src/config/Config.ts:21-24 | a trailing `\r` does not change how a line is parsed |
| Config.FormatParse | src/config/Config.ts:24-41 | the line `key=value` reads back as (key, value) for a trimmed key that has no `=` and does not start with `#`, and a trimmed unquoted value; the value may contain `=` |
| Config.Setting | src/config/Config.ts:51-59 | the `.env` value when it is present and non-empty, else the process environment's when present and non-empty, else the default |
| Config.Channel | src/config/Config.ts:59 | the channel is never empty, and it comes from `.env`, the environment or is `fantonlord` |
| Config.OauthToken | src/config/Config.ts:51-54 | the token comes from `.env`, the environment or the fallback, and is non-empty when the fallback is |
| MessageHandler.AliasHasName | src/bot/MessageHandler.ts:41-46 | every alias of the bot contains "corujita" |
| MessageHandler.MentionsBotIff | src/bot/MessageHandler.ts:41-51 | the bot is mentioned exactly when the lowered message contains "corujita" |
| MessageHandler.MentionsBot | src/bot/MessageHandler.ts:41-51 | some alias occurs in the lowered message; `MessageHandler.MentionsBotIff` states that this means it contains "corujita" |
| MessageHandler.MatchesAt | src/bot/MessageHandler.ts:59 | the pattern matches at a position; `MessageHandler.Capture` and `MessageHandler.MatchFrom` state what the match gives |
| MessageHandler.Capture | src/bot/MessageHandler.ts:59-64 | the captured group is the non-empty run of `\w` characters that starts right after the white run following the keyword and ends before the next character that is not a word character, or at the end |
| MessageHandler.MatchFrom | src/bot/MessageHandler.ts:59 | a match found from position i is the leftmost one at or after i; none is found exactly when no position at or after i matches |
| MessageHandler.JokenpoMatch | src/bot/MessageHandler.ts:59-62 | `/jokenpo\s+(\w+)/` gives the capture of its leftmost match, and null exactly when it matches nowhere |
| MessageHandler.PlayJokenpo | src/bot/MessageHandler.ts:72-81 | the reply is `"@" + username + " "`, the bot's drawn move capitalised, `"! "`, then "Ganhei fanton7LUL" when the bot's move beats the user's, "Perdi fanton7Hey" when the user's beats the bot's, and "Empate fanton7Hey" otherwise |
| MessageHandler.JokenpoReply | src/bot/MessageHandler.ts:36-82 | what `handleJokenpoCommand` returns; `Dispatch.JokenpoReplyConditions`, `Dispatch.JokenpoReplyPlays` and `Dispatch.UnaddressedIsNoCommand` state when it replies and with what |
| MessageHandler.FirstBet | src/bot/MessageHandler.ts:113-119 | the index of the first word that names a side: every word before it names none |
| MessageHandler.BetSkipped | src/bot/MessageHandler.ts:113-119 | a word before the first bet that names no side lets the loop go on |
| MessageHandler.BetFound | src/bot/MessageHandler.ts:115-117 | the loop's first word that names a side is the first bet |
| MessageHandler.FirstCoinChoice | src/bot/MessageHandler.ts:110-123 | there is no bet exactly when no word names a side |
| MessageHandler.PlayCoinFlip | src/bot/MessageHandler.ts:126-135 | the reply is `"@" + username + " "`, the flipped side capitalised, `"! "`, then "Acertou fanton7LUL" when the bet equals the side and "Não foi dessa vez fanton7Hey" otherwise |
| MessageHandler.CoinFlipReply | src/bot/MessageHandler.ts:88-136 | what `handleCoinFlipCommand` returns; `Dispatch.CoinFlipReplyConditions` and `MessageHandler.MessageHandler.HandleCoinFlipCommand` state when it replies and with what |
| MessageHandler.ResolveName | src/bot/MessageHandler.ts:152 | the display name when it is non-empty, else the user name when it is non-empty, else "unknown" |
| MessageHandler.Utterance | src/bot/MessageHandler.ts:163-196 | only a game reply, a greeting or a question is said; a game says its reply, a greeting is one of the greeting templates filled with the name, and a question one of the question templates filled with the name |
| MessageHandler.Dropped | src/bot/MessageHandler.ts:147-157 | the message is the bot's own or has no usable name; `Dispatch.DroppedMessages` states that exactly these change nothing |
| MessageHandler.Respond | src/bot/MessageHandler.ts:141-203 | the reference definition of `handleMessage`; `Dispatch.DroppedMessages`, `Dispatch.SenderRegistered`, `Dispatch.GamesFirst`, `Dispatch.OnboardingStep`, `Dispatch.StoreUpdates` and `Dispatch.StagesMonotone` state what it does |
| MessageHandler.Answer | src/bot/MessageHandler.ts:163-199 | a registered user's message: rock-paper-scissors first; `Dispatch.GamesFirst` states the order |
| MessageHandler.AnswerNoJokenpo | src/bot/MessageHandler.ts:170-199 | heads or tails, else the stage flow; `Dispatch.GamesFirst` and `Dispatch.OnboardingStep` state the result |
| MessageHandler.StageStep | src/bot/MessageHandler.ts:176-199 | the stage flow; `Dispatch.OnboardingStep` states the new stage and the action for every stage |
| MessageHandler.Onboarding | src/bot/MessageHandler.ts:186-196 | the action a stage calls for; `Dispatch.OnboardingStep` and `Dispatch.UtteranceAddresses` state it |
| MessageHandler.Emitted | src/bot/MessageHandler.ts:165-195 | one `say` call to the channel per utterance, and none without one |
| MessageHandler.MessageHandler.constructor | src/bot/MessageHandler.ts:29-30 | the handler uses the given store and has said nothing |
| MessageHandler.MessageHandler.Say | src/bot/MessageHandler.ts:165 | exactly one line is appended to what was said; the store is untouched |
| MessageHandler.MessageHandler.AdvanceStage | src/bot/MessageHandler.ts:181 | the store is advanced for the name and nothing is said |
| MessageHandler.MessageHandler.HandleCoinFlipCommand | src/bot/MessageHandler.ts:88-136 | the loop that stops at the first bet computes `CoinFlipReply` |
| MessageHandler.MessageHandler.HandleMessage | src/bot/MessageHandler.ts:141-203 | the new store and the lines said are those of `Respond`: at most one line, to the message's channel |
| MessageHandler.MessageHandler.AnswerMessage | src/bot/MessageHandler.ts:163-199 | after registration: a rock-paper-scissors reply when there is one, and the rest otherwise |
| MessageHandler.MessageHandler.AnswerNoJokenpoMessage | src/bot/MessageHandler.ts:170-199 | a heads-or-tails reply when there is one, and the stage flow otherwise |
| MessageHandler.MessageHandler.FollowStage | src/bot/MessageHandler.ts:176-199 | the streamer's stages 0 and 1 advance silently; otherwise the stage's line is said and the stage advances |
| MessageHandler.MessageHandler.SayOnboarding | src/bot/MessageHandler.ts:186-196 | a greeting at stage 0, a question at stage 1, nothing at stage 2; the store is untouched |
| Dispatch.JokenpoReplyConditions | src/bot/MessageHandler.ts:40-81 | there is a reply exactly when the lowered message contains "corujita" and "jokenpo", the pattern matches and the capture names a move; the reply plays that move |
| Dispatch.JokenpoReplyPlays | src/bot/MessageHandler.ts:53-81 | conversely, a message naming the bot whose leftmost match captures a move is answered by playing that move |
| Dispatch.LeftmostMatch | src/bot/MessageHandler.ts:59 | the leftmost match is the one reported |
| Dispatch.CoinFlipReplyConditions | src/bot/MessageHandler.ts:92-135 | there is a reply exactly when the lowered message contains "corujita" and some word names a side; the reply plays the first such side |
| Dispatch.FirstCoinChoiceIsFirst | src/bot/MessageHandler.ts:110-123 | there is a bet exactly when some word names a side, and then it is that word's side with no earlier word naming one |
| Dispatch.UnaddressedIsNoCommand | src/bot/MessageHandler.ts:53-55 | a message that does not contain "corujita" is neither game command |
| Dispatch.GameRepliesAddressUser | src/bot/MessageHandler.ts:163-174 | both game replies start with `@` and the name and are never empty, so the truthiness tests mean "a reply was produced" |
| Dispatch.DroppedMessages | src/bot/MessageHandler.ts:147-157 | a message is dropped, with the store untouched, exactly when it is the bot's own (case-insensitively) or its resolved name is "unknown" |
| Dispatch.SenderRegistered | src/bot/MessageHandler.ts:160 | every message that is not dropped leaves its sender with a record, and no other user's stage changes |
| Dispatch.GamesFirst | src/bot/MessageHandler.ts:163-174 | a rock-paper-scissors reply takes priority over a heads-or-tails reply, a game reply is the only kind of reply before the stage flow, and a game keeps the sender's stage |
| Dispatch.OnboardingStep | src/bot/MessageHandler.ts:176-199 | a message that is no game command advances the stage by one up to 2; the streamer skips stages 0 and 1, and everyone else is greeted at 0, asked at 1 and left quiet at 2 |
| Dispatch.GreetedExactly | src/bot/MessageHandler.ts:147-190 | a greeting happens exactly for a message that is not dropped, is no game command, and comes from a stage-0 user who is not the streamer |
| Dispatch.StoreUpdates | src/bot/MessageHandler.ts:147-199 | the store is unchanged for a dropped message, registered-only after a game reply, and registered and then advanced otherwise |
| Dispatch.StagesMonotone | src/bot/MessageHandler.ts:141-203 | after any message every user's stage is at least what it was |
| Dispatch.RespondKeepsInvariants | src/bot/MessageHandler.ts:160-199 | keys stay lower-cased and times stay ordered across every message |
| Dispatch.NewcomerConversation | src/bot/MessageHandler.ts:176-199 | a newcomer who is not the streamer and writes three plain messages is greeted, asked a question, then left alone at stage 2 |
| Dispatch.StreamerConversation | src/bot/MessageHandler.ts:178-183 | the streamer's first two plain messages pass silently, and the third finds stage 2 |
| Dispatch.UtteranceAddresses | src/bot/MessageHandler.ts:186-196 | greetings and questions contain `@` and the user's name; skipping, staying quiet and dropping say nothing |

## Left out

- `src/bot/Bot.ts`, `src/index.ts`, `src/utils/email.ts` and `src/utils/twitchApi.ts` are not part of this model. They are chat-client wiring, process start-up, an SMTP send and HTTP calls.
- File system and environment: `fs.existsSync`/`readFileSync` and `process.env` are not modelled. The file content arrives as `Option<string>` and the environment as a map.
- Configuration checks: the console messages and the `process.exit(1)` of the token check are not modelled, and neither is the warning about a missing `oauth:` prefix. `Config.OauthToken` states when the exit cannot happen.
- The hard-coded fallback token is a parameter of `Config.OauthToken`. Its value is not reproduced.
- Logging: console logging and the `try`/`catch` of `handleMessage` are not modelled. Nothing inside the `try` can fail in the model, because both template tables are non-empty constants.
- `Date.now()` is the parameter `now`. One call of a method sees one value of the clock, where the source may read it twice.
- `Math.random()` is a real draw in [0, 1) supplied by the caller. `Math.floor` is Dafny's `Floor` on exact reals, so rounding of floating-point products is not modelled.
- Text is ASCII only. `toLowerCase`, `toUpperCase`, `trim`, `\s` and `\w` treat only ASCII letters and the ASCII white characters; Unicode casing and Unicode white space are not modelled.
- `replace` with a string pattern is taken literally: `$`-patterns in the user name are not interpreted.
- Aliasing: `getUserState` returns the stored record, which a JavaScript caller could then mutate. The model returns it as a value.
- In the source, `registerFirstMessage` mutates the stored record in place. The model writes a new record with the changed time under the same key, which has the same effect on the map.
- `handleJokenpoCommand` has no loop or state, so it is the function `MessageHandler.JokenpoReply`. That function and `MessageHandler.CoinFlipReply`, `MessageHandler.Respond`, `MessageHandler.Answer`, `MessageHandler.AnswerNoJokenpo`, `MessageHandler.StageStep` and `MessageHandler.Onboarding` carry no `ensures`. What they guarantee is proved in the `Dispatch` lemmas named in their rows.
- Greetings.GetRandomGreeting: states that the result is the filled template at some index in bounds, not which index a given draw selects.
- Questions.GetRandomQuestion: states that the result is the filled template at some index in bounds, not which index a given draw selects.
- The `cleanupOldStates` default of one day is the constant `UserState.DefaultMaxAgeMs`; `CleanupOldStates` always takes the limit explicitly. The method takes `now` as a parameter.
- The legacy free functions at the end of `src/state/UserState.ts` only forward to the store and are not modelled separately.
