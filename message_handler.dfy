/** The per-message dispatch of the chat bot: drop the bot's own messages and
    nameless users, register the user, try rock-paper-scissors, then heads or
    tails, then the onboarding bypass for the streamer, and otherwise greet,
    ask or stay quiet according to the user's stage, then advance it.
    `chatClient.say` is modelled as appending to `said`; the three random
    draws a message may consume are parameters. */
module MessageHandler {
  import opened Wrappers
  import opened Text
  import opened Template
  import Random
  import Jokenpo
  import CaraOuCoroa
  import Greetings
  import Questions
  import Config
  import opened UserState

  /** The names by which a message can address the bot (`botMentions`). */
  const BotMentions: seq<string> := ["heycorujita", "@heycorujita", "corujita", "@corujita"]

  /** The streamer, who skips the greeting and the question. */
  const Streamer: string := "fantonlord"

  /** Some alias of the bot occurs in the lowered message. */
  predicate MentionsBot(lowerMessage: string) {
    exists k :: 0 <= k < |BotMentions| && Contains(lowerMessage, BotMentions[k])
  }

  /** The name every alias of the bot contains. */
  const BotName: string := "corujita"

  /** Each alias contains the bot's name. */
  lemma AliasHasName(k: int)
    requires 0 <= k < |BotMentions|
    ensures Contains(BotMentions[k], BotName)
  {
    var alias := BotMentions[k];
    var offset := |alias| - |BotName|;
    assert alias[offset..] == BotName;
    ContainsAt(alias, BotName, offset);
  }

  /** Every alias contains "corujita", so the bot is mentioned exactly
      when the lowered message contains "corujita". */
  lemma MentionsBotIff(lowerMessage: string)
    ensures MentionsBot(lowerMessage) <==> Contains(lowerMessage, BotName)
  {
    if MentionsBot(lowerMessage) {
      var k :| 0 <= k < |BotMentions| && Contains(lowerMessage, BotMentions[k]);
      AliasHasName(k);
      ContainsTransitive(lowerMessage, BotMentions[k], BotName);
    } else {
      assert BotMentions[2] == BotName;
    }
  }

  /** The keyword of the rock-paper-scissors command. */
  const Keyword: string := "jokenpo"

  /** `/jokenpo\s+(\w+)/` matches at position `i` of `s`: the keyword, at
      least one white character, then at least one word character. */
  predicate MatchesAt(s: string, i: int) {
    OccursAt(s, Keyword, i)
    && var j := SkipWhite(s, i + |Keyword|);
    j > i + |Keyword| && WordRun(s[j..]) > 0
  }

  /** The characters of `s` from the end of the keyword at `i` up to `j`
      are all white, and there is at least one. */
  ghost predicate GapAfterKeyword(s: string, i: int, j: int) {
    0 <= i && i + |Keyword| < j <= |s| && AllWhite(s[i + |Keyword|..j])
  }

  /** The captured group of a match at `i`: both quantifiers are greedy, so
      the group starts where the white run after the keyword ends and is the
      whole run of word characters from there. */
  function Capture(s: string, i: int): (w: string)
    requires MatchesAt(s, i)
    ensures w != [] && forall k :: 0 <= k < |w| ==> IsWordChar(w[k])
    ensures exists j :: GapAfterKeyword(s, i, j) && j + |w| <= |s|
                        && w == s[j..j + |w|] && (j + |w| == |s| || !IsWordChar(s[j + |w|]))
  {
    var j := SkipWhite(s, i + |Keyword|);
    var n := WordRun(s[j..]);
    assert GapAfterKeyword(s, i, j);
    assert j + n < |s| ==> s[j..][n] == s[j + n];
    s[j..j + n]
  }

  /** Searching for the leftmost match at or after position `i`. */
  function MatchFrom(s: string, i: nat): (r: Option<string>)
    requires i <= |s|
    ensures r.Some? ==> exists p :: i <= p && MatchesAt(s, p) && r.value == Capture(s, p)
                                    && forall q :: i <= q < p ==> !MatchesAt(s, q)
    ensures r.None? ==> forall p :: i <= p ==> !MatchesAt(s, p)
    decreases |s| - i
  {
    if MatchesAt(s, i) then Some(Capture(s, i))
    else if i == |s| then None
    else MatchFrom(s, i + 1)
  }

  /** The pattern `jokenpo\s+(\w+)` searched in the lowered message, reduced
      to its captured group. */
  function JokenpoMatch(s: string): (r: Option<string>)
    ensures r.Some? ==> exists p :: MatchesAt(s, p) && r.value == Capture(s, p)
                                    && forall q :: 0 <= q < p ==> !MatchesAt(s, q)
    ensures r.None? <==> forall p :: !MatchesAt(s, p)
  {
    MatchFrom(s, 0)
  }

  /** `handleJokenpoCommand(message, username)`: a reply only when the bot is
      mentioned, the message has `jokenpo`, the pattern matches and the
      captured word names a move; the reply plays the drawn move against it. */
  function JokenpoReply(message: string, username: string, botDraw: real): (r: Option<string>)
    requires Random.IsDraw(botDraw)
  {
    var lowerMessage := Lower(message);
    if !MentionsBot(lowerMessage) || !Contains(lowerMessage, Keyword) then None
    else
      var jokenpoMatch := JokenpoMatch(lowerMessage);
      if jokenpoMatch.None? then None
      else
        var userChoice := Jokenpo.NormalizeChoice(jokenpoMatch.value);
        if userChoice.None? then None
        else
          Some(PlayJokenpo(username, userChoice.value, botDraw))
  }

  /** The game once the user's move is known: the bot draws its move, the
      winner is decided and the reply built. */
  function PlayJokenpo(username: string, userChoice: Jokenpo.Move, botDraw: real): (r: string)
    requires Random.IsDraw(botDraw)
    ensures var botChoice := Jokenpo.GetBotChoice(botDraw);
      r == "@" + username + " " + Capitalize(Jokenpo.Name(botChoice)) + "! "
           + (if Jokenpo.Beats(botChoice, userChoice) then "Ganhei fanton7LUL"
              else if Jokenpo.Beats(userChoice, botChoice) then "Perdi fanton7Hey"
              else "Empate fanton7Hey")
  {
    var botChoice := Jokenpo.GetBotChoice(botDraw);
    var result := Jokenpo.DetermineWinner(userChoice, botChoice);
    Jokenpo.GenerateJokenpoResponse(username, userChoice, botChoice, result)
  }

  /** The index of the first word that reads as a side of the coin, or the
      number of words when none does. */
  function FirstBet(words: seq<string>): (i: nat)
    ensures i <= |words|
    ensures forall j :: 0 <= j < i ==> CaraOuCoroa.NormalizeCoinChoice(words[j]).None?
    ensures i < |words| ==> CaraOuCoroa.NormalizeCoinChoice(words[i]).Some?
    decreases |words|
  {
    if words == [] then 0
    else if CaraOuCoroa.NormalizeCoinChoice(words[0]).Some? then 0
    else 1 + FirstBet(words[1..])
  }

  /** A word before the first bet is no bet. */
  lemma BetSkipped(words: seq<string>, i: nat)
    requires i < |words| && i <= FirstBet(words)
    requires CaraOuCoroa.NormalizeCoinChoice(words[i]).None?
    ensures i < FirstBet(words)
  {
  }

  /** A bet reached without passing one is the first bet. */
  lemma BetFound(words: seq<string>, i: nat)
    requires i < |words| && i <= FirstBet(words)
    requires CaraOuCoroa.NormalizeCoinChoice(words[i]).Some?
    ensures FirstBet(words) == i
  {
  }

  /** The side named by the first word that names one, if any. */
  function FirstCoinChoice(words: seq<string>): (r: Option<CaraOuCoroa.Side>)
    ensures r.None? <==> forall i :: 0 <= i < |words| ==> CaraOuCoroa.NormalizeCoinChoice(words[i]).None?
  {
    var i := FirstBet(words);
    if i < |words| then CaraOuCoroa.NormalizeCoinChoice(words[i]) else None
  }

  /** What `handleCoinFlipCommand(message, username)` returns: a reply only
      when the bot is mentioned and some whitespace-separated word of the
      lowered message names a side; the first such word is the bet. */
  function CoinFlipReply(message: string, username: string, coinDraw: real): (r: Option<string>)
    requires Random.IsDraw(coinDraw)
  {
    var lowerMessage := Lower(message);
    if !MentionsBot(lowerMessage) then None
    else
      var userChoice := FirstCoinChoice(SplitWhite(lowerMessage));
      if userChoice.None? then None
      else
        Some(PlayCoinFlip(username, userChoice.value, coinDraw))
  }

  /** The game once the bet is known: the coin is flipped, the bet judged
      and the reply built. */
  function PlayCoinFlip(username: string, userChoice: CaraOuCoroa.Side, coinDraw: real): (r: string)
    requires Random.IsDraw(coinDraw)
    ensures var coinResult := CaraOuCoroa.FlipCoin(coinDraw);
      r == "@" + username + " " + Capitalize(CaraOuCoroa.Name(coinResult)) + "! "
           + (if userChoice == coinResult then "Acertou fanton7LUL" else "Não foi dessa vez fanton7Hey")
  {
    var coinResult := CaraOuCoroa.FlipCoin(coinDraw);
    var userWon := CaraOuCoroa.DidUserWin(userChoice, coinResult);
    CaraOuCoroa.GenerateCoinFlipResponse(username, userChoice, coinResult, userWon)
  }

  /** The sender's name: the display name, else the login name, else the
      stand-in "unknown" when both are empty. */
  function ResolveName(displayName: string, user: string): (username: string)
    ensures displayName != "" ==> username == displayName
    ensures displayName == "" && user != "" ==> username == user
    ensures displayName == "" && user == "" ==> username == "unknown"
  {
    if displayName != "" then displayName else if user != "" then user else "unknown"
  }

  /** The message is ignored before anything else: it is the bot's own, or
      its sender has no usable name. */
  predicate Dropped(user: string, displayName: string) {
    Lower(user) == Lower(Config.BotUsername) || ResolveName(displayName, user) == "unknown"
  }

  /** What `handleMessage` does with one message, once classified. */
  datatype Action =
    | Drop          // the bot's own message, or no usable name: nothing happens
    | Play(reply: string)  // a game command: the reply is said, the stage is kept
    | Skip          // the streamer at stage 0 or 1: the stage advances silently
    | Greet         // stage 0: a greeting is said, the stage advances
    | Ask           // stage 1: a question is said, the stage advances
    | Quiet         // stage 2: nothing is said

  /** The reference definition of `handleMessage`: the new contents of the
      stage store and what is done, for one message. */
  function Respond(m: StateMap, user: string, displayName: string, message: string, now: int,
                   botDraw: real, coinDraw: real): (StateMap, Action)
    requires Random.IsDraw(botDraw) && Random.IsDraw(coinDraw)
  {
    if Dropped(user, displayName) then (m, Drop)
    else
      var username := ResolveName(displayName, user);
      Answer(Registered(m, username, now), username, message, now, botDraw, coinDraw)
  }

  /** A message of a registered user: rock-paper-scissors first, then heads
      or tails, and the onboarding step only when neither command matched.
      A game keeps the stage. */
  function Answer(m: StateMap, username: string, message: string, now: int,
                  botDraw: real, coinDraw: real): (StateMap, Action)
    requires Random.IsDraw(botDraw) && Random.IsDraw(coinDraw)
  {
    var jokenpoResult := JokenpoReply(message, username, botDraw);
    if jokenpoResult.Some? then (m, Play(jokenpoResult.value))
    else AnswerNoJokenpo(m, username, message, now, coinDraw)
  }

  /** A message that is no rock-paper-scissors command: heads or tails, or
      the onboarding step. */
  function AnswerNoJokenpo(m: StateMap, username: string, message: string, now: int,
                           coinDraw: real): (StateMap, Action)
    requires Random.IsDraw(coinDraw)
  {
    var coinFlipResult := CoinFlipReply(message, username, coinDraw);
    if coinFlipResult.Some? then (m, Play(coinFlipResult.value))
    else StageStep(m, username, now)
  }

  /** The onboarding step of a message that is no game command: the stage
      advances in every case; the streamer passes stages 0 and 1 silently,
      and everyone else gets the line of the stage they were at. */
  function StageStep(m: StateMap, username: string, now: int): (StateMap, Action) {
    var stage := StageOf(m, username);
    var advanced := Advanced(m, username, now);
    if Lower(username) == Streamer && (stage == 0 || stage == 1) then (advanced, Skip)
    else (advanced, Onboarding(stage))
  }

  /** What a stage calls for: a greeting at 0, a question at 1, nothing at 2. */
  function Onboarding(stage: Stage): Action {
    if stage == 0 then Greet else if stage == 1 then Ask else Quiet
  }

  /** The text an action says to `username`, if any; greetings and questions
      come from their tables through the template draw. */
  function Utterance(action: Action, username: string, templateDraw: real): (r: Option<string>)
    requires Random.IsDraw(templateDraw)
    ensures r.Some? <==> action.Play? || action.Greet? || action.Ask?
    ensures action.Play? ==> r == Some(action.reply)
    ensures action.Greet? ==> exists k :: 0 <= k < Greetings.GreetingCount && r.value == Fill(Greetings.Greeting(k), username)
    ensures action.Ask? ==> exists k :: 0 <= k < Questions.QuestionCount && r.value == Fill(Questions.Question(k), username)
  {
    match action
    case Play(reply) => Some(reply)
    case Greet => Some(Greetings.GetRandomGreeting(username, templateDraw))
    case Ask => Some(Questions.GetRandomQuestion(username, templateDraw))
    case _ => None
  }

  /** The `chatClient.say` calls for an utterance: one call or none. */
  function Emitted(channel: string, utterance: Option<string>): (calls: seq<(string, string)>)
    ensures utterance.None? ==> calls == []
    ensures utterance.Some? ==> calls == [(channel, utterance.value)]
  {
    if utterance.Some? then [(channel, utterance.value)] else []
  }

  /** `MessageHandler`: answers chat messages through `chatClient`. */
  class MessageHandler {
    /** The shared `userStateManager`. */
    const store: UserStateManager
    /** Every `chatClient.say(channel, text)` so far, in order. */
    var said: seq<(string, string)>

    constructor(store: UserStateManager)
      ensures this.store == store && said == []
    {
      this.store := store;
      said := [];
    }

    /** `chatClient.say(channel, text)`: one more line said; the stage store
        is another object and keeps its contents. */
    method Say(channel: string, text: string)
      modifies this
      ensures said == old(said) + [(channel, text)]
      ensures store.userStates == old(store.userStates)
    {
      said := said + [(channel, text)];
    }

    /** `advanceUserStage(username)` on the shared store; nothing is said. */
    method AdvanceStage(username: string, now: int)
      modifies store
      ensures store.userStates == Advanced(old(store.userStates), username, now)
      ensures said == old(said)
    {
      store.AdvanceUserStage(username, now);
    }

    /** `handleCoinFlipCommand(message, username)`: scans the words for the
        first bet and stops there. */
    method HandleCoinFlipCommand(message: string, username: string, coinDraw: real) returns (r: Option<string>)
      requires Random.IsDraw(coinDraw)
      ensures r == CoinFlipReply(message, username, coinDraw)
    {
      var lowerMessage := Lower(message);
      if !MentionsBot(lowerMessage) {
        return None;
      }
      var words := SplitWhite(lowerMessage);
      ghost var first := FirstBet(words);
      var userChoice: Option<CaraOuCoroa.Side> := None;
      var i := 0;
      while i < |words|
        invariant 0 <= i <= first && userChoice.None?
      {
        var normalized := CaraOuCoroa.NormalizeCoinChoice(words[i]);
        if normalized.Some? {
          BetFound(words, i);
          userChoice := normalized;
          break;
        }
        BetSkipped(words, i);
        i := i + 1;
      }
      if userChoice.None? {
        return None;
      }
      r := Some(PlayCoinFlip(username, userChoice.value, coinDraw));
    }

    /** `handleMessage(channel, user, message, msg)`, with `msg`'s display
        name passed in: the store and the output follow `Respond`, and at most
        one line is said, to the message's channel. */
    method HandleMessage(channel: string, user: string, message: string, displayName: string, now: int,
                         botDraw: real, coinDraw: real, templateDraw: real)
      requires Random.IsDraw(botDraw) && Random.IsDraw(coinDraw) && Random.IsDraw(templateDraw)
      modifies this, store
      ensures var (next, action) := Respond(old(store.userStates), user, displayName, message, now, botDraw, coinDraw);
        store.userStates == next
        && said == old(said) + Emitted(channel, Utterance(action, ResolveName(displayName, user), templateDraw))
    {
      if Lower(user) == Lower(Config.BotUsername) {
        return;
      }
      var username := ResolveName(displayName, user);
      if username == "unknown" {
        return;
      }
      store.RegisterFirstMessage(username, now);
      AnswerMessage(channel, username, message, now, botDraw, coinDraw, templateDraw);
    }

    /** The part of `handleMessage` after registration: a rock-paper-scissors
        reply when that command matched, and the rest otherwise. */
    method AnswerMessage(channel: string, username: string, message: string, now: int,
                         botDraw: real, coinDraw: real, templateDraw: real)
      requires Random.IsDraw(botDraw) && Random.IsDraw(coinDraw) && Random.IsDraw(templateDraw)
      modifies this, store
      ensures var (next, action) := Answer(old(store.userStates), username, message, now, botDraw, coinDraw);
        store.userStates == next
        && said == old(said) + Emitted(channel, Utterance(action, username, templateDraw))
    {
      var jokenpoResult := JokenpoReply(message, username, botDraw);
      if jokenpoResult.Some? {
        Say(channel, jokenpoResult.value);
        return;
      }
      AnswerNoJokenpoMessage(channel, username, message, now, coinDraw, templateDraw);
    }

    /** A heads-or-tails reply when that command matched, and the onboarding
        step otherwise. */
    method AnswerNoJokenpoMessage(channel: string, username: string, message: string, now: int,
                                  coinDraw: real, templateDraw: real)
      requires Random.IsDraw(coinDraw) && Random.IsDraw(templateDraw)
      modifies this, store
      ensures var (next, action) := AnswerNoJokenpo(old(store.userStates), username, message, now, coinDraw);
        store.userStates == next
        && said == old(said) + Emitted(channel, Utterance(action, username, templateDraw))
    {
      var coinFlipResult := HandleCoinFlipCommand(message, username, coinDraw);
      if coinFlipResult.Some? {
        Say(channel, coinFlipResult.value);
        return;
      }
      FollowStage(channel, username, now, templateDraw);
    }

    /** The tail of `handleMessage` once no game command matched: the
        streamer's first two stages are skipped silently; otherwise the
        stage's line is said, and the stage advances. */
    method FollowStage(channel: string, username: string, now: int, templateDraw: real)
      requires Random.IsDraw(templateDraw)
      modifies this, store
      ensures var (next, action) := StageStep(old(store.userStates), username, now);
        store.userStates == next
        && said == old(said) + Emitted(channel, Utterance(action, username, templateDraw))
    {
      var stage := store.GetUserStage(username);
      var isFantonlord := Lower(username) == Streamer;
      if isFantonlord && (stage == 0 || stage == 1) {
        AdvanceStage(username, now);
        return;
      }
      SayOnboarding(channel, username, stage, templateDraw);
      AdvanceStage(username, now);
    }

    /** A random greeting at stage 0, a random question at stage 1, and
        nothing at stage 2. */
    method SayOnboarding(channel: string, username: string, stage: Stage, templateDraw: real)
      requires Random.IsDraw(templateDraw)
      modifies this
      ensures said == old(said) + Emitted(channel, Utterance(Onboarding(stage), username, templateDraw))
      ensures store.userStates == old(store.userStates)
    {
      if stage == 0 {
        var greeting := Greetings.GetRandomGreeting(username, templateDraw);
        Say(channel, greeting);
      }
      if stage == 1 {
        var question := Questions.GetRandomQuestion(username, templateDraw);
        Say(channel, question);
      }
    }
  }
}
