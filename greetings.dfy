/** The welcome messages: 64 templates, each addressing the user as `@{username}`. */
module Greetings {
  import opened Text
  import opened Template
  import Random

  /** `greetings.length`. */
  const GreetingCount := 64

  /** The template at index `k` cut around its `@{username}`: the text
      before it, which holds no `{`, and the text after it. */
  function GreetingParts(k: int): (parts: (string, string))
    requires 0 <= k < GreetingCount
    ensures '{' !in parts.0
  {
    match k
    case 0 => ("Olá ", ", tudo bem? fanton7Hey")
    case 1 => ("Oi ", ", como vai? fanton7Hey")
    case 2 => ("E aí ", ", beleza? fanton7Hey")
    case 3 => ("Fala ", ", tranquilo? fanton7Hey")
    case 4 => ("Opa ", ", tudo certo? fanton7Hey")
    case 5 => ("Salve ", ", como está? fanton7Hey")
    case 6 => ("Hey ", ", tudo joia? fanton7Hey")
    case 7 => ("Eae ", ", de boa? fanton7Hey")
    case 8 => ("Oi ", ", como está aí? fanton7Hey")
    case 9 => ("Olá ", ", tudo tranquilo? fanton7Hey")
    case 10 => ("Fala aí ", ", beleza? fanton7Hey")
    case 11 => ("Opa ", ", tudo bem contigo? fanton7Hey")
    case 12 => ("E aí ", ", como vai a vida? fanton7Hey")
    case 13 => ("Salve ", ", tudo certo por aí? fanton7Hey")
    case 14 => ("Hey ", ", como está? fanton7Hey")
    case 15 => ("Oi ", ", tudo bem? fanton7Hey")
    case 16 => ("Olá ", ", como vai? fanton7Hey")
    case 17 => ("Eae ", ", de boa? fanton7Hey")
    case 18 => ("Fala ", ", tranquilo? fanton7Hey")
    case 19 => ("Opa ", ", tudo certo? fanton7Hey")
    case 20 => ("Salve ", ", beleza? fanton7Hey")
    case 21 => ("Hey ", ", como está aí? fanton7Hey")
    case 22 => ("Oi ", ", tudo joia? fanton7Hey")
    case 23 => ("Olá ", ", como vai? fanton7Hey")
    case 24 => ("E aí ", ", tudo bem? fanton7Hey")
    case 25 => ("Fala aí ", ", tranquilo? fanton7Hey")
    case 26 => ("Opa ", ", beleza? fanton7Hey")
    case 27 => ("Salve ", ", como está? fanton7Hey")
    case 28 => ("Hey ", ", tudo certo? fanton7Hey")
    case 29 => ("Oi ", ", de boa? fanton7Hey")
    case 30 => ("Olá ", ", como vai a vida? fanton7Hey")
    case 31 => ("Eae ", ", tudo bem contigo? fanton7Hey")
    case 32 => ("Fala ", ", tranquilo por aí? fanton7Hey")
    case 33 => ("Opa ", ", beleza? fanton7Hey")
    case 34 => ("Salve ", ", como está? fanton7Hey")
    case 35 => ("Hey ", ", tudo joia? fanton7Hey")
    case 36 => ("Oi ", ", de boa? fanton7Hey")
    case 37 => ("Olá ", ", como vai? fanton7Hey")
    case 38 => ("E aí ", ", tudo certo? fanton7Hey")
    case 39 => ("Fala aí ", ", beleza? fanton7Hey")
    case 40 => ("Opa ", ", como está? fanton7Hey")
    case 41 => ("Salve ", ", tranquilo? fanton7Hey")
    case 42 => ("Hey ", ", tudo bem? fanton7Hey")
    case 43 => ("Oi ", ", como vai aí? fanton7Hey")
    case 44 => ("Olá ", ", de boa? fanton7Hey")
    case 45 => ("Eae ", ", tudo certo? fanton7Hey")
    case 46 => ("Fala ", ", beleza? fanton7Hey")
    case 47 => ("Opa ", ", como está? fanton7Hey")
    case 48 => ("Salve ", ", tranquilo? fanton7Hey")
    case 49 => ("Hey ", ", tudo joia? fanton7Hey")
    case 50 => ("Oi ", ", de boa? fanton7Hey")
    case 51 => ("Olá ", ", como vai? fanton7Hey")
    case 52 => ("E aí ", ", tudo bem contigo? fanton7Hey")
    case 53 => ("Fala aí ", ", beleza? fanton7Hey")
    case 54 => ("Opa ", ", como está por aí? fanton7Hey")
    case 55 => ("Salve ", ", tranquilo? fanton7Hey")
    case 56 => ("Hey ", ", tudo certo? fanton7Hey")
    case 57 => ("Oi ", ", de boa? fanton7Hey")
    case 58 => ("Olá ", ", como vai a vida? fanton7Hey")
    case 59 => ("Eae ", ", tudo bem? fanton7Hey")
    case 60 => ("Fala ", ", beleza? fanton7Hey")
    case 61 => ("Opa ", ", como está? fanton7Hey")
    case 62 => ("Salve ", ", tranquilo? fanton7Hey")
    case _ => ("Hey ", ", tudo joia? fanton7Hey")
  }

  /** `greetings[k].message`, the template at index `k`, in source order. */
  function Greeting(k: int): string
    requires 0 <= k < GreetingCount
  {
    GreetingParts(k).0 + Mention + GreetingParts(k).1
  }

  /** Every template addresses its user as `@{username}`, and that is its
      first placeholder. */
  lemma GreetingWellFormed(k: int)
    requires 0 <= k < GreetingCount
    ensures WellFormed(Greeting(k))
  {
    Marked(Greeting(k), GreetingParts(k).0, GreetingParts(k).1);
  }

  /** `getRandomGreeting(username)`: the template at the
      index the draw scales to within the table, with its first
      `{username}` replaced by the name. The reply mentions the user as `@`
      and the name, and is the template with the ten placeholder characters
      traded for the name. */
  function GetRandomGreeting(username: string, draw: real): (r: string)
    requires Random.IsDraw(draw)
    ensures exists k :: 0 <= k < GreetingCount && r == Fill(Greeting(k), username)
                        && |r| == |Greeting(k)| - |Placeholder| + |username|
    ensures Contains(r, "@" + username)
  {
    var randomIndex := Random.ScaledFloor(draw, GreetingCount);
    GreetingWellFormed(randomIndex);
    FillAddresses(Greeting(randomIndex), username);
    Fill(Greeting(randomIndex), username)
  }
}
