/** The conversation starters: 57 templates, each addressing the user as `@{username}`. */
module Questions {
  import opened Text
  import opened Template
  import Random

  /** `questions.length`. */
  const QuestionCount := 57

  /** The template at index `k` cut around its `@{username}`: the text
      before it, which holds no `{`, and the text after it. */
  function QuestionParts(k: int): (parts: (string, string))
    requires 0 <= k < QuestionCount
    ensures '{' !in parts.0
  {
    match k
    case 0 => ("fala ", ", que tipo de jogo você curte jogar mais? fanton7Hey")
    case 1 => ("", ", você anda jogando mais pra se divertir ou pra competir mesmo? fanton7Hey")
    case 2 => ("", ", tem algum jogo que sempre acaba voltando a jogar? fanton7Hey")
    case 3 => ("", ", qual foi o último jogo que te prendeu de verdade?")
    case 4 => ("", ", você é mais de jogar sozinho ou com a galera?")
    case 5 => ("", ", prefere jogo mais calmo ou aquele que já começa no caos? fanton7LUL")
    case 6 => ("", ", tem algum jogo que você ama mas passa raiva ao mesmo tempo? fanton7Hey")
    case 7 => ("", ", já teve jogo que você largou e depois voltou?")
    case 8 => ("", ", costuma zerar jogo ou vai jogando até cansar?")
    case 9 => ("", ", qual tipo de jogo mais te prende por horas?")
    case 10 => ("", ", você costuma assistir live fazendo outra coisa ou focado mesmo?")
    case 11 => ("", ", prefere live mais conversa ou mais gameplay?")
    case 12 => ("", ", o que mais te faz ficar numa live até o fim?")
    case 13 => ("", ", você curte chat mais caótico ou mais tranquilo? fanton7Hey")
    case 14 => ("", ", normalmente você fala no chat ou fica mais de boa?")
    case 15 => ("", ", já aconteceu de você entrar numa live e perder a noção do tempo?")
    case 16 => ("", ", o que mais te incomoda numa live?")
    case 17 => ("", ", você prefere lives longas ou algo mais direto?")
    case 18 => ("", ", costuma assistir live todo dia ou só quando dá?")
    case 19 => ("", ", hoje foi um dia mais tranquilo ou puxado?")
    case 20 => ("", ", você tá mais cansado ou de boa agora?")
    case 21 => ("", ", hoje sua paciência tá alta ou já foi de base? fanton7LUL")
    case 22 => ("", ", teve algo hoje que te deixou de bom humor?")
    case 23 => ("", ", quando o dia é ruim, você prefere descansar ou se distrair?")
    case 24 => ("", ", você costuma desligar a cabeça como?")
    case 25 => ("", ", hoje é mais dia de rir ou só existir mesmo? fanton7Hey")
    case 26 => ("", ", você é mais calmo ou estressa fácil jogando?")
    case 27 => ("", ", costuma rir de coisa besta ou nem tanto?")
    case 28 => ("", ", você é do tipo competitivo até em jogo bobo?")
    case 29 => ("", ", costuma levar jogo muito a sério ou só curtir?")
    case 30 => ("", ", já tiltou feio em algum jogo? fanton7Hey")
    case 31 => ("", ", você é mais persistente ou larga quando enche?")
    case 32 => ("", ", prefere aprender tudo ou ir descobrindo jogando?")
    case 33 => ("", ", além de jogar, o que você curte fazer pra passar o tempo?")
    case 34 => ("", ", você costuma consumir mais vídeo curto ou live longa?")
    case 35 => ("", ", prefere coisa mais tranquila ou sempre algo animado?")
    case 36 => ("", ", quando sobra tempo, você vai mais pra jogo, série ou vídeo?")
    case 37 => ("", ", você costuma repetir conteúdo que gosta ou sempre buscar coisa nova?")
    case 38 => ("", ", o que normalmente te anima quando o dia tá meio meh? fanton7Hey")
    case 39 => ("", ", você é do tipo que guarda as coisas ou fala tudo logo?")
    case 40 => ("", ", quando algo dá errado, você ri ou se irrita? fanton7Hey")
    case 41 => ("", ", hoje você tá mais de boa ou meio no limite?")
    case 42 => ("", ", costuma se cobrar muito ou deixa fluir?")
    case 43 => ("", ", você curte mais rotina ou gosta quando tudo muda?")
    case 44 => ("", ", costuma planejar as coisas ou decide na hora?")
    case 45 => ("", ", você é mais noturno ou funciona melhor de dia?")
    case 46 => ("", ", hoje você tá mais falante ou só acompanhando?")
    case 47 => ("", ", prefere papo mais sério ou zoeira?")
    case 48 => ("", ", o que mais te chama atenção numa live?")
    case 49 => ("", ", você costuma interagir quando o streamer puxa papo?")
    case 50 => ("", ", prefere quando o streamer lê o chat toda hora ou só às vezes?")
    case 51 => ("", ", você gosta mais quando a live flui ou quando tem muita interação?")
    case 52 => ("", ", se fosse escolher agora, jogo difícil ou relax?")
    case 53 => ("", ", você curte desafio ou prefere algo mais de boa?")
    case 54 => ("", ", hoje tá mais pra focar ou só desligar a mente?")
    case 55 => ("", ", você costuma jogar até cansar ou sabe a hora de parar?")
    case _ => ("", ", já teve jogo que te surpreendeu de verdade? fanton7Hey")
  }

  /** `questions[k].question`, the template at index `k`, in source order. */
  function Question(k: int): string
    requires 0 <= k < QuestionCount
  {
    QuestionParts(k).0 + Mention + QuestionParts(k).1
  }

  /** Every template addresses its user as `@{username}`, and that is its
      first placeholder. */
  lemma QuestionWellFormed(k: int)
    requires 0 <= k < QuestionCount
    ensures WellFormed(Question(k))
  {
    Marked(Question(k), QuestionParts(k).0, QuestionParts(k).1);
  }

  /** `getRandomQuestion(username)`: the template at the
      index the draw scales to within the table, with its first
      `{username}` replaced by the name. The reply mentions the user as `@`
      and the name, and is the template with the ten placeholder characters
      traded for the name. */
  function GetRandomQuestion(username: string, draw: real): (r: string)
    requires Random.IsDraw(draw)
    ensures exists k :: 0 <= k < QuestionCount && r == Fill(Question(k), username)
                        && |r| == |Question(k)| - |Placeholder| + |username|
    ensures Contains(r, "@" + username)
  {
    var randomIndex := Random.ScaledFloor(draw, QuestionCount);
    QuestionWellFormed(randomIndex);
    FillAddresses(Question(randomIndex), username);
    Fill(Question(randomIndex), username)
  }
}
