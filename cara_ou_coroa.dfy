/** Heads or tails ("cara ou coroa"): the coin flip, reading the user's bet,
    and the bot's reply. */
module CaraOuCoroa {
  import opened Wrappers
  import opened Text
  import opened Template
  import Random

  /** `CoinSide`: "cara" (heads) or "coroa" (tails). */
  datatype Side = Cara | Coroa

  /** The side's name as the bot writes it. */
  function Name(s: Side): string {
    match s
    case Cara => "cara"
    case Coroa => "coroa"
  }

  /** The English synonym accepted for the side. */
  function EnglishName(s: Side): string {
    match s
    case Cara => "heads"
    case Coroa => "tails"
  }

  /** `flipCoin()`: "cara" exactly when the draw is below one half. */
  function FlipCoin(draw: real): (s: Side)
    requires Random.IsDraw(draw)
    ensures s == Cara <==> draw < 0.5
  {
    if draw < 0.5 then Cara else Coroa
  }

  /** `normalizeCoinChoice(input)`: lower-cases and trims, then accepts the
      Portuguese name or the English synonym of a side. */
  function NormalizeCoinChoice(input: string): (r: Option<Side>)
    ensures r.Some? ==> Trim(Lower(input)) in {Name(r.value), EnglishName(r.value)}
    ensures r.None? ==> forall s: Side :: Trim(Lower(input)) != Name(s) && Trim(Lower(input)) != EnglishName(s)
  {
    var normalized := Trim(Lower(input));
    if normalized == "cara" || normalized == "heads" then Some(Cara)
    else if normalized == "coroa" || normalized == "tails" then Some(Coroa)
    else None
  }

  /** The converse of `NormalizeCoinChoice`'s contract. */
  lemma NormalizeCoinAccepts(input: string, s: Side)
    requires Trim(Lower(input)) in {Name(s), EnglishName(s)}
    ensures NormalizeCoinChoice(input) == Some(s)
  {
  }

  /** Every side is recognised by its own name and by its English synonym. */
  lemma NormalizeCoinNames(s: Side)
    ensures NormalizeCoinChoice(Name(s)) == Some(s)
    ensures NormalizeCoinChoice(EnglishName(s)) == Some(s)
  {
    LowerWordNormal(Name(s));
    LowerWordNormal(EnglishName(s));
    NormalizeCoinAccepts(Name(s), s);
    NormalizeCoinAccepts(EnglishName(s), s);
  }

  /** `didUserWin(userChoice, coinResult)`: the bet matches the coin. */
  function DidUserWin(userChoice: Side, coinResult: Side): (won: bool)
    ensures won <==> userChoice == coinResult
  {
    userChoice == coinResult
  }

  /** Whatever the bet, it wins on exactly one of the two halves of the draws:
      a bet on "cara" wins below one half, a bet on "coroa" at or above it. */
  lemma {:induction false} BetWinsOnOneHalf(userChoice: Side, draw: real)
    requires Random.IsDraw(draw)
    ensures DidUserWin(userChoice, FlipCoin(draw)) <==> (userChoice == Cara <==> draw < 0.5)
  {
    match userChoice
    case Cara =>
    case Coroa =>
  }

  /** The text the bot appends to the coin's side. */
  function Outcome(userWon: bool): string {
    if userWon then "Acertou fanton7LUL" else "Não foi dessa vez fanton7Hey"
  }

  /** `generateCoinFlipResponse(username, userChoice, coinResult, userWon)`:
      the template `@{username} <Side>! <outcome>` with the user's name
      filled in. The reply shows the coin's side, never the bet. */
  function GenerateCoinFlipResponse(username: string, userChoice: Side, coinResult: Side, userWon: bool): (r: string)
    ensures r == "@" + username + (" " + Capitalize(Name(coinResult)) + "! " + Outcome(userWon))
  {
    var coinResultText := Capitalize(Name(coinResult));
    var rest := " " + coinResultText + "! " + Outcome(userWon);
    FillFront(rest, username);
    Fill(Mention + rest, username)
  }

  /** The capitalised side names the reply shows. */
  lemma CapitalizedSides()
    ensures Capitalize(Name(Cara)) == "Cara"
    ensures Capitalize(Name(Coroa)) == "Coroa"
  {
  }
}
