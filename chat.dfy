/** The help chat: the keyword classifier behind `generateResponse` and the
    message list that `handleSendMessage` grows. */
module Chat {
  import opened Types

  // ---------------------------------------------------------------------
  // Lower-casing and substring search
  // ---------------------------------------------------------------------

  /** The upper-case letters this model lower-cases: ASCII A-Z and the
      Latin-1 capitals U+00C0..U+00DE (U+00D7, the multiplication sign, is
      not a letter). */
  predicate IsUpper(c: char)
  {
    'A' <= c <= 'Z' || ('\U{00C0}' <= c <= '\U{00DE}' && c != '\U{00D7}')
  }

  /** `toLowerCase` on one character: each capital maps to the letter 32
      code points above it; every other character is kept. */
  function LowerChar(c: char): (d: char)
    ensures !IsUpper(d)
    ensures IsUpper(c) ==> d as int == c as int + 32
    ensures !IsUpper(c) ==> d == c
  {
    if IsUpper(c) then (c as int + 32) as char else c
  }

  function Lower(s: string): (r: string)
    ensures |r| == |s|
    ensures forall i :: 0 <= i < |s| ==> r[i] == LowerChar(s[i])
  {
    seq(|s|, i requires 0 <= i < |s| => LowerChar(s[i]))
  }

  /** Lower-casing twice is lower-casing once. */
  lemma LowerIdempotent(s: string)
    ensures Lower(Lower(s)) == Lower(s)
  {
    assert forall i :: 0 <= i < |s| ==> Lower(Lower(s))[i] == Lower(s)[i];
  }

  /** `k` occurs in `s` starting at index `i`. */
  predicate MatchesAt(s: string, k: string, i: int)
  {
    0 <= i && i + |k| <= |s| && s[i..i + |k|] == k
  }

  /** `s.includes(k)`. */
  predicate Contains(s: string, k: string)
  {
    exists i :: 0 <= i <= |s| - |k| && MatchesAt(s, k, i)
  }

  /** A keyword holding a character the message lacks does not occur in it. */
  lemma AbsentChar(s: string, k: string, c: char)
    requires c in k && c !in s
    ensures !Contains(s, k)
  {
    forall i | 0 <= i <= |s| - |k| ensures !MatchesAt(s, k, i) {
    }
  }

  /** A message containing `big` contains every piece of `big`. */
  lemma ContainsPiece(s: string, big: string, k: string, off: int)
    requires Contains(s, big)
    requires MatchesAt(big, k, off)
    ensures Contains(s, k)
  {
    var i :| 0 <= i <= |s| - |big| && MatchesAt(s, big, i);
    forall t | 0 <= t < |k| ensures s[i + off + t] == k[t] {
      assert s[i + off + t] == s[i..i + |big|][off + t];
      assert k[t] == big[off..off + |k|][t];
    }
    assert s[i + off..i + off + |k|] == k;
    assert MatchesAt(s, k, i + off);
  }

  // ---------------------------------------------------------------------
  // The rule table
  // ---------------------------------------------------------------------

  datatype Topic = Signs | Development | Games | Reports | Help | HowToUse | Age | Time
                 | Greeting | Thanks | Farewell

  datatype Rule = Rule(topic: Topic, keywords: seq<string>)

  /** The `if` chain of `generateResponse`, in its order. */
  const Rules: seq<Rule> := [
    Rule(Signs, ["sinais", "sintomas", "autismo"]),
    Rule(Development, ["desenvolvimento", "marcos", "idade"]),
    Rule(Games, ["jogos", "atividades", "como funciona"]),
    Rule(Reports, ["relatório", "resultado", "diagnóstico"]),
    Rule(Help, ["ajuda", "médico", "profissional"]),
    Rule(HowToUse, ["como usar", "tutorial", "começar"]),
    Rule(Age, ["quantos anos", "que idade", "criança pequena"]),
    Rule(Time, ["tempo", "quanto jogar", "duração"]),
    Rule(Greeting, ["olá", "oi", "hello", "luna"]),
    Rule(Thanks, ["obrigado", "obrigada", "valeu"]),
    Rule(Farewell, ["tchau", "até logo", "bye"])
  ]

  /** A rule fires when any one of its keywords occurs in the message. */
  predicate Fires(message: string, rule: Rule)
  {
    exists j :: 0 <= j < |rule.keywords| && Contains(message, rule.keywords[j])
  }

  /** The index of the first rule that fires, or `|rules|` when none does. */
  function FirstMatch(rules: seq<Rule>, message: string): (k: nat)
    ensures k <= |rules|
    ensures k < |rules| ==> Fires(message, rules[k])
    ensures forall j :: 0 <= j < k ==> !Fires(message, rules[j])
  {
    if rules == [] then 0
    else if Fires(message, rules[0]) then 0
    else 1 + FirstMatch(rules[1..], message)
  }

  /** The topic `generateResponse` answers, decided on the lower-cased
      message; None means the fallback. */
  function Classify(userMessage: string): (t: Option<Topic>)
    ensures t.None? <==> forall j :: 0 <= j < |Rules| ==> !Fires(Lower(userMessage), Rules[j])
  {
    var k := FirstMatch(Rules, Lower(userMessage));
    if k < |Rules| then Some(Rules[k].topic) else None
  }

  /** The first rule that fires decides the answer, whatever later rules
      would say. */
  lemma FirstFiringRuleDecides(userMessage: string, k: int)
    requires 0 <= k < |Rules|
    requires Fires(Lower(userMessage), Rules[k])
    requires forall j :: 0 <= j < k ==> !Fires(Lower(userMessage), Rules[j])
    ensures Classify(userMessage) == Some(Rules[k].topic)
  {
    var m := FirstMatch(Rules, Lower(userMessage));
    if m < k {
    } else if m > k {
    }
  }

  /** Matching ignores case: a message and its lower-cased form get the
      same answer. */
  lemma ClassifyIgnoresCase(userMessage: string)
    ensures Classify(Lower(userMessage)) == Classify(userMessage)
  {
    LowerIdempotent(userMessage);
  }

  /** Any message containing "idade" is answered by the first or second
      rule: the development answer unless a signs keyword comes first. */
  lemma IdadeIsDevelopment(userMessage: string)
    requires Contains(Lower(userMessage), "idade")
    ensures Classify(userMessage) == Some(Signs) || Classify(userMessage) == Some(Development)
  {
    assert Rules[1].keywords[2] == "idade";
    assert Fires(Lower(userMessage), Rules[1]);
  }

  /** So the age answer is reached only through "quantos anos" or
      "criança pequena": its "que idade" keyword always loses to "idade". */
  lemma AgeOnlyViaPhrases(userMessage: string)
    requires Classify(userMessage) == Some(Age)
    ensures !Contains(Lower(userMessage), "que idade")
    ensures Contains(Lower(userMessage), "quantos anos") || Contains(Lower(userMessage), "criança pequena")
  {
    var m := Lower(userMessage);
    if Contains(m, "que idade") {
      assert MatchesAt("que idade", "idade", 4);
      ContainsPiece(m, "que idade", "idade", 4);
      IdadeIsDevelopment(userMessage);
    }
    var k := FirstMatch(Rules, m);
    assert k == 6;
    var j :| 0 <= j < |Rules[6].keywords| && Contains(m, Rules[6].keywords[j]);
  }

  /** Likewise "atividades" contains "idade", so that keyword of the games
      rule never decides the answer. */
  lemma AtividadesIsShadowed(userMessage: string)
    requires Contains(Lower(userMessage), "atividades")
    ensures Classify(userMessage) == Some(Signs) || Classify(userMessage) == Some(Development)
  {
    assert MatchesAt("atividades", "idade", 4);
    ContainsPiece(Lower(userMessage), "atividades", "idade", 4);
    IdadeIsDevelopment(userMessage);
  }

  const QuickReply: string := "Como usar os jogos?"

  lemma QuickReplyLowered()
    ensures Lower(QuickReply) == "como usar os jogos?"
  {
  }

  lemma QuickReplyNoMarcos()
    ensures !Contains("como usar os jogos?", "marcos")
  {
    var s := "como usar os jogos?";
    forall i: int ensures !MatchesAt(s, "marcos", i) {
      if 0 <= i && i + 6 <= |s| {
        assert s[i..i + 6][0] == s[i] && s[i..i + 6][1] == s[i + 1];
        assert i == 0 || i == 1 || i == 2 || i == 3 || i == 4 || i == 5 || i == 6
            || i == 7 || i == 8 || i == 9 || i == 10 || i == 11 || i == 12 || i == 13;
      }
    }
  }

  /** The signs rule does not fire on the quick reply. */
  lemma QuickReplySkipsSigns()
    ensures !Fires("como usar os jogos?", Rules[0])
  {
    var s := "como usar os jogos?";
    AbsentChar(s, "sinais", 'i');
    AbsentChar(s, "sintomas", 'i');
    AbsentChar(s, "autismo", 'i');
  }

  /** Nor does the development rule. */
  lemma QuickReplySkipsDevelopment()
    ensures !Fires("como usar os jogos?", Rules[1])
  {
    var s := "como usar os jogos?";
    AbsentChar(s, "desenvolvimento", 'd');
    AbsentChar(s, "idade", 'i');
    QuickReplyNoMarcos();
  }

  /** The quick reply "Como usar os jogos?" fires the how-to-use rule too,
      but the games rule comes first and wins. */
  lemma QuickReplyIsGames()
    ensures Fires(Lower(QuickReply), Rules[5])
    ensures Classify(QuickReply) == Some(Games)
  {
    var s := "como usar os jogos?";
    QuickReplyLowered();
    assert MatchesAt(s, "como usar", 0);
    assert MatchesAt(s, "jogos", 13);
    assert Rules[2].keywords[0] == "jogos" && Contains(s, "jogos");
    assert Rules[5].keywords[0] == "como usar" && Contains(s, "como usar");
    QuickReplySkipsSigns();
    QuickReplySkipsDevelopment();
    FirstFiringRuleDecides(QuickReply, 2);
  }

  // ---------------------------------------------------------------------
  // Answer texts
  // ---------------------------------------------------------------------

  const SignsText: string :=
    "🔍 Os primeiros sinais de autismo podem incluir: dificuldade "
    + "na comunicação social, comportamentos repetitivos, sensibilidade "
    + "sensorial, dificuldade com mudanças na rotina. 🚨 Lembre-se: "
    + "apenas profissionais podem fazer diagnósticos! Se você tem dúvidas, "
    + "converse com um pediatra. 👩\U{200D}⚕\U{FE0F}"

  const DevelopmentText: string :=
    "📈 O desenvolvimento infantil é como uma aventura única para "
    + "cada criança! 🌱 Marcos importantes incluem: sorrir socialmente "
    + "(2-3 meses), balbuciar (6 meses), primeiras palavras (12 meses), "
    + "andar (12-18 meses). Cada criança tem seu próprio ritmo especial! "
    + "⭐"

  const GamesText: string :=
    "🎮 Nossos jogos são super especiais! Eles observam: memória visual "
    + "🧠, reconhecimento de padrões 🔄, coordenação 🎯, atenção 👀, e "
    + "sequenciamento 📝. São como brincadeiras que ajudam a entender "
    + "como a criança aprende e se desenvolve! 🌈"

  const ReportsText: string :=
    "📊 Os relatórios mostram como a criança se saiu nos jogos, mas "
    + "🚨 NÃO são diagnósticos médicos! São como um \"diário de brincadeiras\" "
    + "que você pode mostrar para médicos e terapeutas. Eles ajudam "
    + "os profissionais a entender melhor a criança! 👨\U{200D}⚕\U{FE0F}"

  const HelpText: string :=
    "🆘 Se você suspeita de autismo, procure ajuda de: pediatra 👩\U{200D}⚕\U{FE0F}, "
    + "neuropediatra 🧠, psicólogo infantil 🧸 ou psiquiatra infantil. "
    + "O diagnóstico precoce é como encontrar a chave certa para ajudar "
    + "a criança! 🗝\U{FE0F}✨"

  const HowToUseText: string :=
    "📱 Para usar nossa plataforma: 1\U{FE0F}\U{20E3} Crie um perfil para a criança, "
    + "2\U{FE0F}\U{20E3} Escolha um jogo divertido, 3\U{FE0F}\U{20E3} Deixe a criança brincar, "
    + "4\U{FE0F}\U{20E3} Veja os resultados nos relatórios! É fácil e divertido! "
    + "🎉"

  const AgeText: string :=
    "👶 Nossos jogos são perfeitos para crianças de 2 a 8 anos! Cada "
    + "jogo tem níveis diferentes de dificuldade. Se a criança é muito "
    + "pequena, um adulto pode ajudar! 🤝"

  const TimeText: string :=
    "⏰ Recomendamos sessões de 10-15 minutos para não cansar a criança. "
    + "O importante é que seja divertido, não uma obrigação! Se a criança "
    + "não quiser jogar, tudo bem - tente outro dia! 😊"

  const GreetingText: string :=
    "👋 Oi! Que bom falar com você! 🌟 Sou a Luna e adoro ajudar famílias! "
    + "O que você gostaria de saber sobre autismo, desenvolvimento "
    + "infantil ou nossos jogos? 🤗"

  const ThanksText: string :=
    "🥰 Fico muito feliz em ajudar! Estou sempre aqui quando precisar! "
    + "💜 Lembre-se: para questões médicas específicas, sempre consulte "
    + "um profissional de saúde. Cuide-se! ✨"

  const FarewellText: string :=
    "👋 Tchau! Foi um prazer conversar com você! Volte sempre que "
    + "quiser! Estarei aqui esperando! 🌈💜"

  const WelcomeText: string :=
    "🌟 Oi amiguinho! Eu sou a Luna, sua assistente virtual especial! "
    + "🤖💜 Estou aqui para ajudar você e sua família com dúvidas sobre "
    + "autismo, desenvolvimento infantil e como usar nossa plataforma. "
    + "O que você gostaria de saber?"

  const FallbackHead: string :=
    "🤔 Entendi sua pergunta sobre \""

  const FallbackTail: string :=
    "\"! Posso ajudar com informações sobre: \n    \n    🔍 Sinais de "
    + "autismo\n    📈 Desenvolvimento infantil  \n    🎮 Como usar nossos "
    + "jogos\n    📊 Interpretação de relatórios\n    🆘 Onde buscar ajuda "
    + "profissional\n    \n    Sobre o que você gostaria de saber mais? "
    + "😊"

  function AnswerText(t: Topic): string
  {
    match t
    case Signs => SignsText
    case Development => DevelopmentText
    case Games => GamesText
    case Reports => ReportsText
    case Help => HelpText
    case HowToUse => HowToUseText
    case Age => AgeText
    case Time => TimeText
    case Greeting => GreetingText
    case Thanks => ThanksText
    case Farewell => FarewellText
  }

  /** `generateResponse`: the answer of the first rule that fires on the
      lower-cased message; when none fires, a fallback that quotes the
      message as typed, not lower-cased. */
  function GenerateResponse(userMessage: string): (reply: string)
    ensures Classify(userMessage).Some? ==> reply == AnswerText(Classify(userMessage).value)
    ensures Classify(userMessage).None? ==>
              |reply| == |FallbackHead| + |userMessage| + |FallbackTail|
              && MatchesAt(reply, userMessage, |FallbackHead|)
  {
    match Classify(userMessage)
    case Some(t) => AnswerText(t)
    case None =>
      var reply := FallbackHead + userMessage + FallbackTail;
      assert reply[|FallbackHead|..|FallbackHead| + |userMessage|] == userMessage;
      reply
  }

  // ---------------------------------------------------------------------
  // The message list
  // ---------------------------------------------------------------------

  datatype Message = Message(id: string, text: string, isBot: bool, timestamp: int)

  /** The reply a send schedules: the timeout closure captured the input
      text of the render in which the message was sent. */
  datatype PendingReply = PendingReply(captured: string)

  class ChatState {
    var messages: seq<Message>
    var inputText: string
    var isTyping: bool

    /** The chat opens with Luna's welcome message, id "1". */
    constructor (now: int)
      ensures messages == [Message("1", WelcomeText, true, now)]
      ensures inputText == "" && !isTyping
    {
      messages := [Message("1", WelcomeText, true, now)];
      inputText := "";
      isTyping := false;
    }

    /** The send button is enabled only for a non-blank input while the
        typing flag is down; the Enter key calls the handler without this
        check. */
    function SendButtonEnabled(): bool
      reads this
    {
      !IsBlank(inputText) && !isTyping
    }

    /** Typing, or one of the quick-reply buttons. */
    method SetInput(text: string)
      modifies this
      ensures inputText == text && messages == old(messages) && isTyping == old(isTyping)
    {
      inputText := text;
    }

    /** `handleSendMessage`: a blank input sends nothing. Otherwise the
        message as typed is appended, the input is cleared, the typing flag is
        raised, and a reply to that same text is scheduled. */
    method Send(stamp: Stamp) returns (pending: Option<PendingReply>)
      modifies this
      ensures IsBlank(old(inputText)) ==>
                pending == None && messages == old(messages)
                && inputText == old(inputText) && isTyping == old(isTyping)
      ensures !IsBlank(old(inputText)) ==>
                pending == Some(PendingReply(old(inputText)))
                && messages == old(messages) + [Message(stamp.id, old(inputText), false, stamp.now)]
                && inputText == "" && isTyping
      ensures old(SendButtonEnabled()) ==> pending.Some?
      ensures !IsBlank(old(inputText)) ==> !SendButtonEnabled()
    {
      if IsBlank(inputText) {
        return None;
      }
      messages := messages + [Message(stamp.id, inputText, false, stamp.now)];
      pending := Some(PendingReply(inputText));
      inputText := "";
      isTyping := true;
    }

    /** The scheduled reply arrives: the answer to the captured text is
        appended and the typing flag drops. */
    method DeliverReply(p: PendingReply, stamp: Stamp)
      modifies this
      ensures messages == old(messages) + [Message(stamp.id, GenerateResponse(p.captured), true, stamp.now)]
      ensures !isTyping && inputText == old(inputText)
      ensures SendButtonEnabled() <==> !IsBlank(inputText)
    {
      messages := messages + [Message(stamp.id, GenerateResponse(p.captured), true, stamp.now)];
      isTyping := false;
    }
  }
}
