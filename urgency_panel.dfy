/** The urgency panel picks its text from keywords in the lower-cased addiction name. */
module UrgencyPanel {

  datatype UrgencyContent = UrgencyContent(title: string, content: string)

  const PORNOGRAPHY: UrgencyContent := UrgencyContent(
    "Protegendo Seu Caminho Digital",
    "Você está prestes a entrar em um ambiente online vasto e, às vezes, arriscado. Para ajudar a manter sua jornada digital segura e saudável, este aplicativo monitorará sua atividade na internet. Você receberá relatórios regulares sobre seus hábitos de navegação, permitindo que você reflita sobre suas escolhas e tome decisões mais conscientes. Sua privacidade e segurança são nossa prioridade. Ao continuar, você concorda em utilizar essa ferramenta para fomentar um uso mais responsável e equilibrado da internet.\n\nVamos começar sua jornada para um uso digital mais saudável!")

  const FOOD: UrgencyContent := UrgencyContent(
    "Olá! Pronto para cuidar da sua saúde hoje?",
    "1. Registro de Refeições: O que você comeu hoje? Adicione suas refeições para acompanhar calorias e nutrientes.\n\n2. Atividade Física: Que atividades você fez? Basta digitar ou selecionar da lista para monitorar seu progresso.\n\n3. Hidratação: Quantos copos de água você bebeu hoje? Manter-se hidratado é fundamental!\n\n4. Metas de Saúde: O que você quer alcançar? Controle seu progresso e ajuste suas metas quando necessário.\n\nVamos juntos transformar seus hábitos!")

  const ALCOHOL: UrgencyContent := UrgencyContent(
    "Bem-vindo ao Caminho da Sobriedade!",
    "Como você se sente hoje?\n\nReflexão Diária: Compartilhe suas emoções e pensamentos. O que foi desafiador hoje? O que te fez sentir grato?\n\nHabilidades e Estratégias: Quais técnicas você usou para enfrentar os desafios hoje? Compartilhe suas estratégias de coping.\n\nMetas Pessoais: Quais são suas metas para os próximos dias? Escreva seus objetivos e lembre-se de que você não está sozinho nessa jornada.\n\nLembre-se: Cada dia é uma nova oportunidade!")

  const DEFAULT: UrgencyContent := UrgencyContent(
    "Momento de Urgência",
    "Você está passando por um momento difícil, mas você é forte!\n\nRespire fundo e lembre-se:\n• Você já chegou até aqui\n• Cada momento de resistência é uma vitória\n• Você não está sozinho nessa jornada\n• Amanhã você vai agradecer por ter resistido hoje\n\nO que você pode fazer agora:\n1. Respire profundamente por 5 minutos\n2. Beba um copo de água\n3. Faça uma caminhada rápida\n4. Ligue para alguém de confiança\n5. Escreva seus sentimentos\n\nVocê consegue! 💪")

  /** String.prototype.toLowerCase for the letters the keywords use: ASCII A-Z and the
      Latin-1 capitals (À to Þ, except ×) move to their small forms; other characters stay. */
  function ToLowerChar(c: char): char
  {
    if 'A' <= c <= 'Z' || ('\U{C0}' <= c <= '\U{DE}' && c != '\U{D7}') then (c as int + 32) as char
    else c
  }

  function ToLower(s: string): (r: string)
    ensures |r| == |s| && forall i :: 0 <= i < |s| ==> r[i] == ToLowerChar(s[i])
  {
    seq(|s|, i requires 0 <= i < |s| => ToLowerChar(s[i]))
  }

  predicate OccursAt(s: string, sub: string, i: int)
  {
    0 <= i && i + |sub| <= |s| && s[i..i + |sub|] == sub
  }

  /** String.prototype.includes, scanning from the front: it finds sub exactly when sub occurs
      somewhere in s. */
  function Includes(s: string, sub: string): (b: bool)
    ensures b <==> exists i :: OccursAt(s, sub, i)
  {
    if |s| < |sub| then false
    else
      ShiftOccurs(s, sub);
      s[..|sub|] == sub || Includes(s[1..], sub)
  }

  /** An occurrence in s is one at the front or one in the rest of s. */
  lemma ShiftOccurs(s: string, sub: string)
    ensures (exists i :: OccursAt(s, sub, i))
            <==> |sub| <= |s| && (s[..|sub|] == sub || (|s| > 0 && exists j :: OccursAt(s[1..], sub, j)))
  {
    if exists i :: OccursAt(s, sub, i) {
      var i :| OccursAt(s, sub, i);
      if i > 0 {
        assert s[1..][i - 1..i - 1 + |sub|] == s[i..i + |sub|];
        assert OccursAt(s[1..], sub, i - 1);
      }
    }
    if |sub| <= |s| && |s| > 0 && exists j :: OccursAt(s[1..], sub, j) {
      var j :| OccursAt(s[1..], sub, j);
      assert s[1..][j..j + |sub|] == s[j + 1..j + 1 + |sub|];
      assert OccursAt(s, sub, j + 1);
    }
    if |sub| <= |s| && s[..|sub|] == sub {
      assert OccursAt(s, sub, 0);
    }
  }

  predicate MentionsPornography(name: string)
  {
    Includes(name, "pornografia") || Includes(name, "pornô")
  }

  predicate MentionsFood(name: string)
  {
    Includes(name, "comida") || Includes(name, "alimentação") || Includes(name, "comer")
  }

  predicate MentionsAlcohol(name: string)
  {
    Includes(name, "álcool") || Includes(name, "alcool") || Includes(name, "bebida")
  }

  /** getContent: the first keyword group the lower-cased name mentions decides. Each text is
      chosen exactly when its group is the earliest one the name mentions: pornography before
      food before alcohol, and the default text when none is mentioned. */
  function GetContent(name: string): (c: UrgencyContent)
    ensures var lower := ToLower(name);
            && (c == PORNOGRAPHY <==> MentionsPornography(lower))
            && (c == FOOD <==> !MentionsPornography(lower) && MentionsFood(lower))
            && (c == ALCOHOL
                <==> !MentionsPornography(lower) && !MentionsFood(lower) && MentionsAlcohol(lower))
            && (c == DEFAULT
                <==> !MentionsPornography(lower) && !MentionsFood(lower) && !MentionsAlcohol(lower))
  {
    TitlesDiffer();
    var lower := ToLower(name);
    if Includes(lower, "pornografia") || Includes(lower, "pornô") then PORNOGRAPHY
    else if Includes(lower, "comida") || Includes(lower, "alimentação") || Includes(lower, "comer")
    then FOOD
    else if Includes(lower, "álcool") || Includes(lower, "alcool") || Includes(lower, "bebida")
    then ALCOHOL
    else DEFAULT
  }

  lemma TitlesDiffer()
    ensures PORNOGRAPHY.title[0] == 'P' && FOOD.title[0] == 'O'
    ensures ALCOHOL.title[0] == 'B' && DEFAULT.title[0] == 'M'
  {
  }

  /** Lower-casing twice is lower-casing once, so the choice ignores the name's case. */
  lemma ContentIgnoresCase(name: string)
    ensures GetContent(ToLower(name)) == GetContent(name)
  {
    assert ToLower(ToLower(name)) == ToLower(name);
  }

  // The worked examples below fix the name through their precondition and reach the text
  // through the contract of GetContent: the lower-cased name is computed once, and each keyword
  // is shown present (by an occurrence) or absent (by length or by its first letter).

  lemma PornographyExample(name: string)
    requires name == "Pornô"
    ensures GetContent(name) == PORNOGRAPHY
  {
    var lower := ToLower(name);
    assert lower == "pornô";
    Mentions(lower, "pornô", 0);
  }

  lemma AlcoholExample(name: string)
    requires name == "ÁLCOOL"
    ensures GetContent(name) == ALCOHOL
  {
    var lower := ToLower(name);
    assert lower == "álcool" by {
      assert ToLowerChar('Á') == 'á' && ToLowerChar('L') == 'l';
      assert ToLowerChar('C') == 'c' && ToLowerChar('O') == 'o';
    }
    NotStarted(lower, "pornô");
    NotStarted(lower, "pornografia");
    NotStarted(lower, "comida");
    NotStarted(lower, "comer");
    Shorter(lower, "alimentação");
    Mentions(lower, "álcool", 0);
  }

  lemma DefaultExample(name: string)
    requires name == "Jogo"
    ensures GetContent(name) == DEFAULT
  {
    var lower := ToLower(name);
    assert lower == "jogo";
    NotStarted(lower, "pornô");
    NotStarted(lower, "comer");
    NotStarted(lower, "bebida");
    Shorter(lower, "pornografia");
    Shorter(lower, "comida");
    Shorter(lower, "alimentação");
    Shorter(lower, "álcool");
    Shorter(lower, "alcool");
  }

  /** A name that mentions food and drink gets the food text: food comes first. */
  lemma FoodBeforeAlcoholExample(name: string)
    requires name == "Comida e bebida"
    ensures GetContent(name) == FOOD
  {
    var lower := ToLower(name);
    assert lower == "comida e bebida";
    NotStarted(lower, "pornô");
    NotStarted(lower, "pornografia");
    Mentions(lower, "comida", 0);
  }

  lemma Mentions(s: string, sub: string, i: int)
    requires OccursAt(s, sub, i)
    ensures Includes(s, sub)
  {
  }

  lemma Shorter(s: string, sub: string)
    requires |s| < |sub|
    ensures !Includes(s, sub)
  {
  }

  /** A keyword whose first letter starts no stretch of the name long enough to hold it
      is not in the name. */
  lemma NotStarted(s: string, sub: string)
    requires |sub| > 0
    requires forall i :: 0 <= i && i + |sub| <= |s| ==> s[i] != sub[0]
    ensures !Includes(s, sub)
  {
  }
}
