/** Rock-paper-scissors ("jokenpo"): move names and their English synonyms,
    the cyclic winner rule and the bot's reply. */
module Jokenpo {
  import opened Wrappers
  import opened Text
  import opened Template
  import Random

  /** `JokenpoChoice`: "pedra" (rock), "papel" (paper), "tesoura" (scissors). */
  datatype Move = Pedra | Papel | Tesoura

  /** The move's name as the bot writes it. */
  function Name(m: Move): string {
    match m
    case Pedra => "pedra"
    case Papel => "papel"
    case Tesoura => "tesoura"
  }

  /** The English synonym accepted for the move. */
  function EnglishName(m: Move): string {
    match m
    case Pedra => "rock"
    case Papel => "paper"
    case Tesoura => "scissors"
  }

  /** The `choices` array, in source order. */
  const Choices: seq<Move> := [Pedra, Papel, Tesoura]

  /** `getBotChoice()`: the move at the index the draw scales to among the
      three, so each move takes
      one third of the draws. */
  function GetBotChoice(draw: real): (m: Move)
    requires Random.IsDraw(draw)
    ensures draw < 1.0 / 3.0 ==> m == Pedra
    ensures 1.0 / 3.0 <= draw < 2.0 / 3.0 ==> m == Papel
    ensures 2.0 / 3.0 <= draw ==> m == Tesoura
  {
    Choices[Random.RandomInt(0, |Choices|, draw)]
  }

  /** `normalizeChoice(input)`: lower-cases and trims, then accepts the
      Portuguese name or the English synonym of a move. */
  function NormalizeChoice(input: string): (r: Option<Move>)
    ensures r.Some? ==> Trim(Lower(input)) in {Name(r.value), EnglishName(r.value)}
    ensures r.None? ==> forall m: Move :: Trim(Lower(input)) != Name(m) && Trim(Lower(input)) != EnglishName(m)
  {
    var normalized := Trim(Lower(input));
    if normalized == "pedra" || normalized == "rock" then Some(Pedra)
    else if normalized == "papel" || normalized == "paper" then Some(Papel)
    else if normalized == "tesoura" || normalized == "scissors" then Some(Tesoura)
    else None
  }

  /** The converse of `NormalizeChoice`'s contract: an input whose normal
      form is a name or synonym of `m` is read as `m`. */
  lemma NormalizeAccepts(input: string, m: Move)
    requires Trim(Lower(input)) in {Name(m), EnglishName(m)}
    ensures NormalizeChoice(input) == Some(m)
  {
  }

  /** Every move is recognised by its own name and by its English synonym. */
  lemma NormalizeNames(m: Move)
    ensures NormalizeChoice(Name(m)) == Some(m)
    ensures NormalizeChoice(EnglishName(m)) == Some(m)
  {
    LowerWordNormal(Name(m));
    LowerWordNormal(EnglishName(m));
    NormalizeAccepts(Name(m), m);
    NormalizeAccepts(EnglishName(m), m);
  }

  /** The reference rule: `x` beats `y` when `x` is one step after `y` in the
      cycle pedra, papel, tesoura (papel beats pedra, tesoura beats papel,
      pedra beats tesoura). */
  function Index(m: Move): int {
    match m
    case Pedra => 0
    case Papel => 1
    case Tesoura => 2
  }

  predicate Beats(x: Move, y: Move) {
    (Index(x) - Index(y)) % 3 == 1
  }

  /** `determineWinner(user, bot)`: 1 when the bot wins, -1 when the user
      wins, 0 on a tie; it agrees with the cyclic reference rule. */
  function DetermineWinner(userChoice: Move, botChoice: Move): (r: int)
    ensures r in {-1, 0, 1}
    ensures r == 0 <==> userChoice == botChoice
    ensures r == -1 <==> Beats(userChoice, botChoice)
    ensures r == 1 <==> Beats(botChoice, userChoice)
  {
    if userChoice == botChoice then 0
    else if (userChoice == Pedra && botChoice == Tesoura)
         || (userChoice == Papel && botChoice == Pedra)
         || (userChoice == Tesoura && botChoice == Papel) then -1
    else 1
  }

  /** Swapping the players negates the result. */
  lemma WinnerAntisymmetric(u: Move, b: Move)
    ensures DetermineWinner(u, b) == -DetermineWinner(b, u)
  {
  }

  /** Each move beats exactly one move and loses to exactly one move. */
  lemma BeatsExactlyOne(x: Move)
    ensures exists y :: Beats(x, y) && forall z :: Beats(x, z) ==> z == y
    ensures exists y :: Beats(y, x) && forall z :: Beats(z, x) ==> z == y
  {
    match x
    case Pedra =>
      assert Beats(Pedra, Tesoura) && Beats(Papel, Pedra);
    case Papel =>
      assert Beats(Papel, Pedra) && Beats(Tesoura, Papel);
    case Tesoura =>
      assert Beats(Tesoura, Papel) && Beats(Pedra, Tesoura);
  }

  /** The verdict the bot appends for a result. */
  function Verdict(result: int): string {
    if result == 1 then "Ganhei fanton7LUL"
    else if result == -1 then "Perdi fanton7Hey"
    else "Empate fanton7Hey"
  }

  /** `generateJokenpoResponse(username, userChoice, botChoice, result)`:
      the template `@{username} <BotMove>! <verdict>` with the user's name
      filled in. The user's move does not appear in the reply. */
  function GenerateJokenpoResponse(username: string, userChoice: Move, botChoice: Move, result: int): (r: string)
    ensures r == "@" + username + (" " + Capitalize(Name(botChoice)) + "! " + Verdict(result))
  {
    var botChoiceText := Capitalize(Name(botChoice));
    var rest := " " + botChoiceText + "! " + Verdict(result);
    FillFront(rest, username);
    Fill(Mention + rest, username)
  }

  /** The capitalised move names the reply shows. */
  lemma CapitalizedNames()
    ensures Capitalize(Name(Pedra)) == "Pedra"
    ensures Capitalize(Name(Papel)) == "Papel"
    ensures Capitalize(Name(Tesoura)) == "Tesoura"
  {
  }
}
