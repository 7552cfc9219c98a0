/** What `handleMessage` promises, stated over its reference definition
    `Respond`: when a message is a game command, in which order a message is
    classified, and how the onboarding stages unfold. */
module Dispatch {
  import opened Wrappers
  import opened Text
  import Random
  import Jokenpo
  import CaraOuCoroa
  import Config
  import opened UserState
  import opened MessageHandler

  /** `handleJokenpoCommand` answers exactly when the lowered message names
      the bot, has the keyword, matches the pattern and the captured word
      names a move; the reply plays that move against the drawn one. */
  lemma JokenpoReplyConditions(message: string, username: string, botDraw: real)
    requires Random.IsDraw(botDraw)
    ensures var lower := Lower(message);
      var r := JokenpoReply(message, username, botDraw);
      (r.Some? <==> Contains(lower, BotName) && Contains(lower, Keyword)
                    && JokenpoMatch(lower).Some? && Jokenpo.NormalizeChoice(JokenpoMatch(lower).value).Some?)
      && (r.Some? ==> r.value == PlayJokenpo(username, Jokenpo.NormalizeChoice(JokenpoMatch(lower).value).value, botDraw))
  {
    MentionsBotIff(Lower(message));
  }

  /** Conversely: a message naming the bot whose leftmost match captures a
      move is answered by playing that move. */
  lemma JokenpoReplyPlays(message: string, username: string, botDraw: real, p: int, move: Jokenpo.Move)
    requires Random.IsDraw(botDraw)
    requires Contains(Lower(message), BotName)
    requires MatchesAt(Lower(message), p) && forall q :: 0 <= q < p ==> !MatchesAt(Lower(message), q)
    requires Jokenpo.NormalizeChoice(Capture(Lower(message), p)) == Some(move)
    ensures JokenpoReply(message, username, botDraw) == Some(PlayJokenpo(username, move, botDraw))
  {
    var lower := Lower(message);
    MentionsBotIff(lower);
    ContainsAt(lower, Keyword, p);
    LeftmostMatch(lower, p);
  }

  /** The leftmost match is the one `JokenpoMatch` reports. */
  lemma LeftmostMatch(s: string, p: int)
    requires MatchesAt(s, p) && forall q :: 0 <= q < p ==> !MatchesAt(s, q)
    ensures JokenpoMatch(s) == Some(Capture(s, p))
  {
    var r := JokenpoMatch(s);
    assert r.Some?;
    var p' :| MatchesAt(s, p') && r.value == Capture(s, p') && forall q :: 0 <= q < p' ==> !MatchesAt(s, q);
    assert !(p' < p) && !(p < p');
  }

  /** `handleCoinFlipCommand` answers exactly when the lowered message names
      the bot and one of its words names a side; the reply plays the first
      such side. */
  lemma CoinFlipReplyConditions(message: string, username: string, coinDraw: real)
    requires Random.IsDraw(coinDraw)
    ensures var lower := Lower(message);
      var r := CoinFlipReply(message, username, coinDraw);
      var bet := FirstCoinChoice(SplitWhite(lower));
      (r.Some? <==> Contains(lower, BotName) && bet.Some?)
      && (r.Some? ==> r.value == PlayCoinFlip(username, bet.value, coinDraw))
  {
    MentionsBotIff(Lower(message));
  }

  /** The bet is the side named by the first word that names one: some word
      names a side exactly when there is a bet, and every word before the
      bet names none. */
  lemma FirstCoinChoiceIsFirst(words: seq<string>)
    ensures var bet := FirstCoinChoice(words);
      (bet.Some? <==> exists i :: 0 <= i < |words| && CaraOuCoroa.NormalizeCoinChoice(words[i]).Some?)
      && (bet.Some? ==> exists i :: 0 <= i < |words| && bet == CaraOuCoroa.NormalizeCoinChoice(words[i])
                          && forall j :: 0 <= j < i ==> CaraOuCoroa.NormalizeCoinChoice(words[j]).None?)
  {
    var i := FirstBet(words);
    if i < |words| {
      assert FirstCoinChoice(words) == CaraOuCoroa.NormalizeCoinChoice(words[i]);
    }
  }

  /** A message that does not name the bot is no command at all. */
  lemma UnaddressedIsNoCommand(message: string, username: string, botDraw: real, coinDraw: real)
    requires Random.IsDraw(botDraw) && Random.IsDraw(coinDraw)
    requires !Contains(Lower(message), BotName)
    ensures JokenpoReply(message, username, botDraw).None?
    ensures CoinFlipReply(message, username, coinDraw).None?
  {
    MentionsBotIff(Lower(message));
  }

  /** A string starts with each of its prefixes. */
  lemma StartsWithPrefix(a: string, b: string)
    ensures StartsWith(a + b, a)
  {
    assert (a + b)[..|a|] == a;
  }

  /** Both game replies open with `@` and the user's name and are never
      empty, so the truthiness tests of `handleMessage` coincide with "a reply
      was produced". */
  lemma GameRepliesAddressUser(username: string, move: Jokenpo.Move, side: CaraOuCoroa.Side,
                               botDraw: real, coinDraw: real)
    requires Random.IsDraw(botDraw) && Random.IsDraw(coinDraw)
    ensures var r := PlayJokenpo(username, move, botDraw);
      StartsWith(r, "@" + username) && |r| > |username| + 1
    ensures var r := PlayCoinFlip(username, side, coinDraw);
      StartsWith(r, "@" + username) && |r| > |username| + 1
  {
    var bot := Jokenpo.GetBotChoice(botDraw);
    StartsWithPrefix("@" + username, " " + Capitalize(Jokenpo.Name(bot)) + "! "
                                     + Jokenpo.Verdict(Jokenpo.DetermineWinner(move, bot)));
    var coin := CaraOuCoroa.FlipCoin(coinDraw);
    StartsWithPrefix("@" + username, " " + Capitalize(CaraOuCoroa.Name(coin)) + "! "
                                     + CaraOuCoroa.Outcome(CaraOuCoroa.DidUserWin(side, coin)));
  }

  /** A message is dropped, with the store untouched, exactly when it is the
      bot's own or its sender has no usable name; both checks come before
      registration. */
  lemma DroppedMessages(m: StateMap, user: string, displayName: string, message: string, now: int,
                        botDraw: real, coinDraw: real)
    requires Random.IsDraw(botDraw) && Random.IsDraw(coinDraw)
    ensures var (next, action) := Respond(m, user, displayName, message, now, botDraw, coinDraw);
      (action == Drop <==> Dropped(user, displayName))
      && (action == Drop ==> next == m)
      && (Lower(user) == Lower(Config.BotUsername) ==> action == Drop)
      && (displayName == "" && user == "" ==> action == Drop)
  {
    if !Dropped(user, displayName) {
      var username := ResolveName(displayName, user);
      var base := Registered(m, username, now);
      var a := Answer(base, username, message, now, botDraw, coinDraw).1;
      assert a != Drop by {
        if JokenpoReply(message, username, botDraw).None? {
          if CoinFlipReply(message, username, coinDraw).None? {
            assert a == StageStep(base, username, now).1;
          }
        }
      }
    }
  }

  /** Every message that is not dropped registers its sender, and no other
      user's stage changes. */
  lemma SenderRegistered(m: StateMap, user: string, displayName: string, message: string, now: int,
                         botDraw: real, coinDraw: real, other: string)
    requires Random.IsDraw(botDraw) && Random.IsDraw(coinDraw)
    requires !Dropped(user, displayName)
    ensures var next := Respond(m, user, displayName, message, now, botDraw, coinDraw).0;
      var username := ResolveName(displayName, user);
      Lower(username) in next
      && (Lower(other) != Lower(username) ==> StageOf(next, other) == StageOf(m, other))
  {
    var username := ResolveName(displayName, user);
    var base := Registered(m, username, now);
    RegisterKeepsStages(m, username, now, other);
    if JokenpoReply(message, username, botDraw).None? && CoinFlipReply(message, username, coinDraw).None? {
      AdvanceStep(base, username, now, other);
    }
  }

  /** Classification order: a rock-paper-scissors reply wins over a heads or
      tails reply, and a game reply is any reply at all; a game keeps the
      sender's stage. */
  lemma GamesFirst(m: StateMap, user: string, displayName: string, message: string, now: int,
                   botDraw: real, coinDraw: real)
    requires Random.IsDraw(botDraw) && Random.IsDraw(coinDraw)
    requires !Dropped(user, displayName)
    ensures var username := ResolveName(displayName, user);
      var (next, action) := Respond(m, user, displayName, message, now, botDraw, coinDraw);
      var jokenpo := JokenpoReply(message, username, botDraw);
      var coin := CoinFlipReply(message, username, coinDraw);
      (jokenpo.Some? ==> action == Play(jokenpo.value))
      && (jokenpo.None? && coin.Some? ==> action == Play(coin.value))
      && (action.Play? <==> jokenpo.Some? || coin.Some?)
      && (action.Play? ==> StageOf(next, username) == StageOf(m, username))
  {
    var username := ResolveName(displayName, user);
    RegisterKeepsStages(m, username, now, username);
  }

  /** A message that is no game command advances the sender's stage by one,
      up to 2; the streamer passes stages 0 and 1 silently, everyone else is
      greeted at stage 0, asked at stage 1 and left alone at stage 2. */
  lemma OnboardingStep(m: StateMap, user: string, displayName: string, message: string, now: int,
                       botDraw: real, coinDraw: real)
    requires Random.IsDraw(botDraw) && Random.IsDraw(coinDraw)
    requires !Dropped(user, displayName)
    requires JokenpoReply(message, ResolveName(displayName, user), botDraw).None?
    requires CoinFlipReply(message, ResolveName(displayName, user), coinDraw).None?
    ensures var username := ResolveName(displayName, user);
      var stage := StageOf(m, username);
      var (next, action) := Respond(m, user, displayName, message, now, botDraw, coinDraw);
      StageOf(next, username) == (if stage < 2 then stage + 1 else 2)
      && (Lower(username) == Streamer && stage < 2 ==> action == Skip)
      && (Lower(username) != Streamer && stage == 0 ==> action == Greet)
      && (Lower(username) != Streamer && stage == 1 ==> action == Ask)
      && (stage == 2 ==> action == Quiet)
  {
    var username := ResolveName(displayName, user);
    RegisterKeepsStages(m, username, now, username);
    AdvanceStep(Registered(m, username, now), username, now, username);
  }

  /** Only a newcomer who is not the streamer is greeted, and only with a
      message that is no game command. */
  lemma GreetedExactly(m: StateMap, user: string, displayName: string, message: string, now: int,
                       botDraw: real, coinDraw: real)
    requires Random.IsDraw(botDraw) && Random.IsDraw(coinDraw)
    ensures var username := ResolveName(displayName, user);
      Respond(m, user, displayName, message, now, botDraw, coinDraw).1 == Greet
      <==> !Dropped(user, displayName)
           && JokenpoReply(message, username, botDraw).None? && CoinFlipReply(message, username, coinDraw).None?
           && Lower(username) != Streamer && StageOf(m, username) == 0
  {
    var username := ResolveName(displayName, user);
    RegisterKeepsStages(m, username, now, username);
  }

  /** The store changes in two ways only: a message that is not dropped
      registers its sender, and a message that is no game command then
      advances the sender's stage. */
  lemma StoreUpdates(m: StateMap, user: string, displayName: string, message: string, now: int,
                     botDraw: real, coinDraw: real)
    requires Random.IsDraw(botDraw) && Random.IsDraw(coinDraw)
    ensures var username := ResolveName(displayName, user);
      var (next, action) := Respond(m, user, displayName, message, now, botDraw, coinDraw);
      (Dropped(user, displayName) ==> next == m)
      && (!Dropped(user, displayName) && action.Play? ==> next == Registered(m, username, now))
      && (!Dropped(user, displayName) && !action.Play? ==> next == Advanced(Registered(m, username, now), username, now))
  {
    if !Dropped(user, displayName) {
      var username := ResolveName(displayName, user);
      var base := Registered(m, username, now);
      var r := Respond(m, user, displayName, message, now, botDraw, coinDraw);
      if JokenpoReply(message, username, botDraw).Some? {
        assert r == (base, Play(JokenpoReply(message, username, botDraw).value));
      } else if CoinFlipReply(message, username, coinDraw).Some? {
        assert r == (base, Play(CoinFlipReply(message, username, coinDraw).value));
      } else {
        assert r == StageStep(base, username, now);
      }
    }
  }

  /** Stages never go back: after any message every user's stage is at least
      what it was. */
  lemma StagesMonotone(m: StateMap, user: string, displayName: string, message: string, now: int,
                       botDraw: real, coinDraw: real, other: string)
    requires Random.IsDraw(botDraw) && Random.IsDraw(coinDraw)
    ensures StageOf(Respond(m, user, displayName, message, now, botDraw, coinDraw).0, other) >= StageOf(m, other)
  {
    StoreUpdates(m, user, displayName, message, now, botDraw, coinDraw);
    var username := ResolveName(displayName, user);
    RegisterKeepsStages(m, username, now, other);
    AdvanceStep(Registered(m, username, now), username, now, other);
  }

  /** The store's invariants survive every message when the clock does not
      run backwards: keys stay lower-cased and times stay in order. */
  lemma RespondKeepsInvariants(m: StateMap, user: string, displayName: string, message: string,
                               before: int, now: int, botDraw: real, coinDraw: real)
    requires Random.IsDraw(botDraw) && Random.IsDraw(coinDraw)
    requires LowerKeys(m) && TimesOrdered(m, before) && before <= now
    ensures var next := Respond(m, user, displayName, message, now, botDraw, coinDraw).0;
      LowerKeys(next) && TimesOrdered(next, now)
  {
    StoreUpdates(m, user, displayName, message, now, botDraw, coinDraw);
    var username := ResolveName(displayName, user);
    UpdatesKeepInvariants(m, username, before, now);
    UpdatesKeepInvariants(Registered(m, username, now), username, now, now);
    assert TimesOrdered(m, now) by {
      assert forall k :: k in m ==> m[k].lastInteractionTime <= now;
    }
  }

  /** A newcomer who is not the streamer and writes three plain messages is
      greeted, then asked a question, then left alone at stage 2. */
  lemma NewcomerConversation(m: StateMap, user: string, displayName: string,
                             first: string, second: string, third: string, t1: int, t2: int, t3: int,
                             botDraw: real, coinDraw: real)
    requires Random.IsDraw(botDraw) && Random.IsDraw(coinDraw)
    requires !Dropped(user, displayName) && Lower(ResolveName(displayName, user)) != Streamer
    requires StageOf(m, ResolveName(displayName, user)) == 0
    requires !Contains(Lower(first), BotName) && !Contains(Lower(second), BotName) && !Contains(Lower(third), BotName)
    ensures var (m1, a1) := Respond(m, user, displayName, first, t1, botDraw, coinDraw);
      var (m2, a2) := Respond(m1, user, displayName, second, t2, botDraw, coinDraw);
      var (m3, a3) := Respond(m2, user, displayName, third, t3, botDraw, coinDraw);
      a1 == Greet && a2 == Ask && a3 == Quiet && StageOf(m3, ResolveName(displayName, user)) == 2
  {
    var username := ResolveName(displayName, user);
    UnaddressedIsNoCommand(first, username, botDraw, coinDraw);
    UnaddressedIsNoCommand(second, username, botDraw, coinDraw);
    UnaddressedIsNoCommand(third, username, botDraw, coinDraw);
    var m1 := Respond(m, user, displayName, first, t1, botDraw, coinDraw).0;
    OnboardingStep(m, user, displayName, first, t1, botDraw, coinDraw);
    var m2 := Respond(m1, user, displayName, second, t2, botDraw, coinDraw).0;
    OnboardingStep(m1, user, displayName, second, t2, botDraw, coinDraw);
    OnboardingStep(m2, user, displayName, third, t3, botDraw, coinDraw);
  }

  /** The streamer's first two plain messages pass silently and the third
      finds stage 2. */
  lemma StreamerConversation(m: StateMap, user: string, displayName: string,
                             first: string, second: string, third: string, t1: int, t2: int, t3: int,
                             botDraw: real, coinDraw: real)
    requires Random.IsDraw(botDraw) && Random.IsDraw(coinDraw)
    requires !Dropped(user, displayName) && Lower(ResolveName(displayName, user)) == Streamer
    requires StageOf(m, ResolveName(displayName, user)) == 0
    requires !Contains(Lower(first), BotName) && !Contains(Lower(second), BotName) && !Contains(Lower(third), BotName)
    ensures var (m1, a1) := Respond(m, user, displayName, first, t1, botDraw, coinDraw);
      var (m2, a2) := Respond(m1, user, displayName, second, t2, botDraw, coinDraw);
      var (m3, a3) := Respond(m2, user, displayName, third, t3, botDraw, coinDraw);
      a1 == Skip && a2 == Skip && a3 == Quiet && StageOf(m3, ResolveName(displayName, user)) == 2
  {
    var username := ResolveName(displayName, user);
    UnaddressedIsNoCommand(first, username, botDraw, coinDraw);
    UnaddressedIsNoCommand(second, username, botDraw, coinDraw);
    UnaddressedIsNoCommand(third, username, botDraw, coinDraw);
    var m1 := Respond(m, user, displayName, first, t1, botDraw, coinDraw).0;
    OnboardingStep(m, user, displayName, first, t1, botDraw, coinDraw);
    var m2 := Respond(m1, user, displayName, second, t2, botDraw, coinDraw).0;
    OnboardingStep(m1, user, displayName, second, t2, botDraw, coinDraw);
    OnboardingStep(m2, user, displayName, third, t3, botDraw, coinDraw);
  }

  /** The lines said for an action: greetings and questions address the user
      by `@` and name; skipping and staying quiet say nothing. */
  lemma UtteranceAddresses(action: Action, username: string, templateDraw: real)
    requires Random.IsDraw(templateDraw)
    ensures var r := Utterance(action, username, templateDraw);
      (action.Greet? || action.Ask? ==> r.Some? && Contains(r.value, "@" + username))
      && (action.Skip? || action.Quiet? || action.Drop? ==> r.None?)
  {
  }
}
