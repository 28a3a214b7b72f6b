/**
 * The bookkeeping of the empathetic conversation engine
 * (conversation_engine/engine.py): the emotional context it keeps, the
 * message it prepends to prompts, the history of the conversation, and the
 * canned greetings, fallback replies and wellness tips.
 *
 * Which language-model service answers, and what it answers, is outside the
 * model: `GenerateResponse` takes the service's outcome as a parameter.
 * `random.choice` over a three-entry list becomes an index `choice < 3`.
 */
module Conversation {
  import opened Wrappers
  import opened Tally

  /** How many emotions the engine remembers, and how many messages a prompt carries. */
  const EmotionMemory := 10
  const PromptWindowSize := 10

  /** A message of the conversation; its timestamp is left out. */
  datatype Message = Message(role: string, content: string, emotionContext: Option<string>)

  /** A message in the form a chat API takes (`Message.to_dict`). */
  datatype ApiMessage = ApiMessage(role: string, content: string)

  /** One entry of `get_conversation_history`; the timestamp is left out. */
  datatype HistoryEntry = HistoryEntry(role: string, content: string, emotion: Option<string>)

  /**
   * What the language-model service did for one request: there was no
   * usable client, the call failed (or its answer had no content), or it
   * replied with a text.
   */
  datatype ApiOutcome = NoClient | Failed | Replied(text: string)

  /** Python truthiness of an optional string: neither `None` nor empty. */
  predicate Truthy(e: Option<string>) {
    e.Some? && e.value != ""
  }

  /** One of the seven labels the detector produces. */
  predicate KnownEmotion(e: string) {
    e == "happy" || e == "sad" || e == "angry" || e == "neutral" || e == "surprise" || e == "fear" || e == "disgust"
  }

  /** `EMOTION_CONTEXT_FR.get(e, e)`. */
  function ContextName(e: string): (name: string)
    ensures !KnownEmotion(e) ==> name == e
  {
    if e == "happy" then "heureux/heureuse"
    else if e == "sad" then "triste"
    else if e == "angry" then "en colère"
    else if e == "neutral" then "calme"
    else if e == "surprise" then "surpris(e)"
    else if e == "fear" then "anxieux/anxieuse"
    else if e == "disgust" then "dégoûté(e)"
    else e
  }

  /** The emotional context a prompt carries, before it is rendered as text. */
  datatype EmotionContext = NoContext | Context(name: string, persistent: bool)

  /** The last three recorded emotions all equal `current`. */
  predicate Persists(current: string, history: seq<string>)
    ensures Persists(current, history) <==>
              |history| >= 3 && forall k :: |history| - 3 <= k < |history| ==> history[k] == current
  {
    |history| >= 3 && history[|history| - 3] == current && history[|history| - 2] == current
    && history[|history| - 1] == current
  }

  /**
   * The context behind `_get_emotion_context_message`: none for a falsy
   * current emotion, otherwise its French name and whether it persists.
   */
  function ContextOf(current: Option<string>, history: seq<string>): (c: EmotionContext)
    ensures c == NoContext <==> !Truthy(current)
    ensures c.Context? ==> c.name == ContextName(current.value)
    ensures c.Context? ==> (c.persistent <==> Persists(current.value, history))
  {
    if !Truthy(current) then NoContext
    else Context(ContextName(current.value), Persists(current.value, history))
  }

  const ContextOpening := "[Contexte émotionnel: L'utilisateur semble "
  const PersistenceSentence := " Cette émotion semble persistante."

  /** The text form of a context; no context renders as the empty string. */
  function Render(c: EmotionContext): (text: string)
    ensures text == "" <==> c == NoContext
    ensures c.Context? ==> |text| > |ContextOpening| && text[..|ContextOpening|] == ContextOpening
  {
    match c
    case NoContext => ""
    case Context(name, persistent) =>
      ContextOpening + name + "." + (if persistent then PersistenceSentence else "") + "]"
  }

  /** The persistence sentence adds exactly its own length: the two renderings never coincide. */
  lemma PersistenceIsVisible(name: string)
    ensures |Render(Context(name, true))| == |Render(Context(name, false))| + |PersistenceSentence|
    ensures Render(Context(name, true)) != Render(Context(name, false))
  {
    assert |PersistenceSentence| > 0;
  }

  /** `_get_emotion_context_message`. */
  function EmotionContextMessage(current: Option<string>, history: seq<string>): (text: string)
    ensures text == "" <==> !Truthy(current)
  {
    Render(ContextOf(current, history))
  }

  /**
   * The messages a prompt carries: the last (at most) ten messages of the
   * history with their roles, the final one prefixed by the context and a
   * blank line when the context is not empty.
   */
  function PromptWindow(history: seq<Message>, context: string): (window: seq<ApiMessage>)
    ensures |window| == if |history| < PromptWindowSize then |history| else PromptWindowSize
    ensures forall k :: 0 <= k < |window| ==> window[k].role == history[|history| - |window| + k].role
    ensures forall k :: 0 <= k < |window| - 1 ==> window[k].content == history[|history| - |window| + k].content
    ensures |window| > 0 ==>
      window[|window| - 1].content == (if context == "" then "" else context + "\n\n") + history[|history| - 1].content
  {
    var recent := LastN(history, PromptWindowSize);
    seq(|recent|, k requires 0 <= k < |recent| =>
      ApiMessage(recent[k].role,
                 if k == |recent| - 1 && context != "" then context + "\n\n" + recent[k].content
                 else recent[k].content))
  }

  /** Without a context the prompt is exactly the recent history. */
  lemma PromptWindowWithoutContext(history: seq<Message>)
    ensures var w := PromptWindow(history, "");
      forall k :: 0 <= k < |w| ==> w[k] == ApiMessage(history[|history| - |w| + k].role, history[|history| - |w| + k].content)
  {
  }

  /** The three replies of `_generate_fallback_response` for a label; unknown labels get the neutral ones. */
  function FallbackReplies(e: string): (replies: seq<string>)
    ensures |replies| == 3
    ensures !KnownEmotion(e) ==> replies == NeutralReplies
  {
    if e == "neutral" then NeutralReplies
    else if e == "happy" then HappyReplies
    else if e == "sad" then SadReplies
    else if e == "angry" then AngryReplies
    else if e == "fear" then FearReplies
    else if e == "surprise" then SurpriseReplies
    else if e == "disgust" then DisgustReplies
    else NeutralReplies
  }

  const HappyReplies: seq<string> :=
    ["Ça fait plaisir de te voir de bonne humeur ! 😊 Qu'est-ce qui te rend si joyeux aujourd'hui ?",
     "Ton sourire est contagieux ! Continue comme ça ! Raconte-moi ta journée ?",
     "Super ! J'adore cette énergie positive ! Qu'est-ce qui s'est passé de bien ?"]

  const SadReplies: seq<string> :=
    ["Je vois que tu traverses un moment difficile... Je suis là pour toi. 💙 Tu veux en parler ?",
     "C'est ok de ne pas aller bien parfois. Qu'est-ce qui te tracasse ?",
     "Je suis là pour t'écouter, sans jugement. Prends ton temps pour me dire ce qui ne va pas."]

  const AngryReplies: seq<string> :=
    ["Je comprends que tu sois frustré(e). Prends une grande respiration... 🌬️ Qu'est-ce qui s'est passé ?",
     "La colère, c'est normal. Veux-tu en parler pour te libérer un peu ?",
     "Je t'écoute. Parfois, exprimer ce qui nous énerve fait du bien."]

  const FearReplies: seq<string> :=
    ["Je suis là, tout va bien se passer. 🤗 Qu'est-ce qui t'inquiète ?",
     "Respire doucement... Je comprends que tu puisses te sentir anxieux. Parle-moi.",
     "Tu n'es pas seul(e). Dis-moi ce qui te fait peur, on peut en discuter ensemble."]

  const SurpriseReplies: seq<string> :=
    ["Oh ! Tu as l'air surpris(e) ! Il s'est passé quelque chose d'inattendu ?",
     "Wow, je vois la surprise sur ton visage ! Raconte-moi !",
     "Qu'est-ce qui t'a surpris comme ça ? Je suis curieux !"]

  const DisgustReplies: seq<string> :=
    ["Hmm, quelque chose ne semble pas te plaire... Tu veux en parler ?",
     "Je vois que quelque chose te dérange. Qu'est-ce qui s'est passé ?",
     "On dirait que tu as vécu quelque chose de désagréable. Je t'écoute."]

  const NeutralReplies: seq<string> := ["Hey ! Comment vas-tu ? Qu'est-ce qui t'amène aujourd'hui ? 👋",
                           "Coucou ! Je suis content de te voir. De quoi voudrais-tu parler ?",
                           "Salut ! Comment se passe ta journée jusqu'ici ?"]

  /** `current or "neutral"`. */
  function OrNeutral(e: Option<string>): (name: string)
    ensures name != ""
    ensures Truthy(e) ==> name == e.value
  {
    if Truthy(e) then e.value else "neutral"
  }

  /** `_generate_fallback_response`: entry `choice` of the replies for the current emotion. */
  function FallbackResponse(current: Option<string>, choice: nat): (reply: string)
    requires choice < 3
    ensures reply in FallbackReplies(OrNeutral(current))
  {
    FallbackReplies(OrNeutral(current))[choice]
  }

  /** Without an emotion, or with an emotion outside the table, the reply is a neutral one. */
  lemma FallbackDefaultsToNeutral(current: Option<string>, choice: nat)
    requires choice < 3
    requires !Truthy(current) || !KnownEmotion(current.value)
    ensures FallbackResponse(current, choice) == NeutralReplies[choice]
  {
  }

  /** The greeting of `get_greeting` for a label; unknown labels get the neutral one. */
  function GreetingFor(e: string): (greeting: string)
    ensures !KnownEmotion(e) ==> greeting == NeutralGreeting
  {
    if e == "neutral" then NeutralGreeting
    else if e == "happy" then "Hey ! 😊 Je vois que tu es de bonne humeur ! Ça fait plaisir !"
    else if e == "sad" then "Bonjour... 💙 Je suis là si tu as besoin de parler."
    else if e == "angry" then "Salut. Je vois que quelque chose te tracasse. Je t'écoute."
    else if e == "fear" then "Coucou... 🤗 Je suis là, tout va bien. De quoi voudrais-tu parler ?"
    else if e == "surprise" then "Oh ! Bonjour ! Tu as l'air surpris(e) de me voir ! 😄"
    else if e == "disgust" then "Salut... Quelque chose ne va pas ? Je suis là pour en parler."
    else NeutralGreeting
  }

  const NeutralGreeting := "Bonjour ! 👋 Comment puis-je t'aider aujourd'hui ?"

  /** The three tips of `generate_wellness_tip` for a label; there is no surprise or disgust table. */
  function WellnessTips(e: string): (tips: seq<string>)
    ensures |tips| == 3
    ensures e != "happy" && e != "sad" && e != "angry" && e != "fear" ==> tips == NeutralTips
  {
    if e == "happy" then HappyTips
    else if e == "sad" then SadTips
    else if e == "angry" then AngryTips
    else if e == "fear" then FearTips
    else NeutralTips
  }

  const HappyTips: seq<string> :=
    ["💡 Astuce : Note ce moment de bonheur dans un journal pour t'en souvenir !",
     "💡 Partage ta bonne humeur avec quelqu'un, la joie est contagieuse !",
     "💡 Profite de cette énergie pour faire quelque chose que tu aimes !"]

  const SadTips: seq<string> :=
    ["💡 Astuce : Une petite promenade à l'air frais peut aider à éclaircir les idées.",
     "💡 Écoute une musique que tu aimes, ça peut aider à remonter le moral.",
     "💡 Prends un moment pour toi : un thé chaud, une couverture, et du repos."]

  const AngryTips: seq<string> :=
    ["💡 Astuce : Essaie la respiration 4-7-8 : inspire 4s, retiens 7s, expire 8s.",
     "💡 L'exercice physique aide à évacuer la frustration. Une petite marche ?",
     "💡 Écris ce qui t'énerve sur un papier, puis froisse-le et jette-le !"]

  const FearTips: seq<string> :=
    ["💡 Astuce : Ancre-toi dans le présent - nomme 5 choses que tu vois autour de toi.",
     "💡 La respiration profonde active le système parasympathique et calme l'anxiété.",
     "💡 Rappelle-toi : 90% de nos inquiétudes ne se réalisent jamais."]

  const NeutralTips: seq<string> := ["💡 C'est le moment parfait pour essayer quelque chose de nouveau !",
                        "💡 Profite de ce calme pour planifier quelque chose qui te fait envie.",
                        "💡 Un bon moment pour pratiquer la gratitude : 3 choses positives du jour ?"]

  /** `generate_wellness_tip`: entry `choice` of the tips for `e`. */
  function WellnessTip(e: string, choice: nat): (tip: string)
    requires choice < 3
    ensures tip in WellnessTips(e)
  {
    WellnessTips(e)[choice]
  }

  /** Surprise and disgust, which have no table of their own, get a neutral tip. */
  lemma SurpriseAndDisgustGetNeutralTips(choice: nat)
    requires choice < 3
    ensures WellnessTip("surprise", choice) == NeutralTips[choice]
    ensures WellnessTip("disgust", choice) == NeutralTips[choice]
  {
  }

  class ConversationEngine {
    var conversationHistory: seq<Message>
    var currentEmotion: Option<string>
    /** The latest recorded emotions, oldest first. */
    var emotionHistory: seq<string>
    /** Every emotion recorded since construction or the last clear. */
    ghost var emotionsSeen: seq<string>

    /**
     * The emotion history is the last ten recorded emotions, and the current
     * emotion is the last one recorded (none before any).
     */
    ghost predicate Valid()
      reads this
    {
      && emotionHistory == LastN(emotionsSeen, EmotionMemory)
      && (currentEmotion == None <==> emotionsSeen == [])
      && (currentEmotion.Some? ==> currentEmotion.value == emotionsSeen[|emotionsSeen| - 1])
    }

    constructor ()
      ensures Valid()
      ensures conversationHistory == [] && currentEmotion == None && emotionHistory == [] && emotionsSeen == []
    {
      conversationHistory := [];
      currentEmotion := None;
      emotionHistory := [];
      emotionsSeen := [];
    }

    /** The context text built from the current state. */
    function ContextMessage(): (text: string)
      reads this
      ensures text == "" <==> !Truthy(currentEmotion)
    {
      EmotionContextMessage(currentEmotion, emotionHistory)
    }

    /**
     * `set_emotion_context`: record `emotion` as current and append it to
     * the emotion history, dropping the oldest entry beyond ten.
     */
    method SetEmotionContext(emotion: string)
      requires Valid()
      modifies this
      ensures Valid()
      ensures currentEmotion == Some(emotion)
      ensures emotionsSeen == old(emotionsSeen) + [emotion]
      ensures emotionHistory == BoundedAppend(old(emotionHistory), emotion, EmotionMemory)
      ensures 0 < |emotionHistory| <= EmotionMemory && emotionHistory[|emotionHistory| - 1] == emotion
      ensures conversationHistory == old(conversationHistory)
    {
      BoundedAppendKeepsWindow(emotionsSeen, emotion, EmotionMemory);
      currentEmotion := Some(emotion);
      emotionHistory := BoundedAppend(emotionHistory, emotion, EmotionMemory);
      emotionsSeen := emotionsSeen + [emotion];
    }

    /**
     * The loop that turns the recent history into API messages, prefixing
     * the context to the last one.
     */
    method BuildPrompt() returns (messages: seq<ApiMessage>)
      ensures messages == PromptWindow(conversationHistory, ContextMessage())
    {
      var context := EmotionContextMessage(currentEmotion, emotionHistory);
      var recent := LastN(conversationHistory, PromptWindowSize);
      messages := [];
      var i := 0;
      while i < |recent|
        invariant 0 <= i <= |recent|
        invariant messages == PromptWindow(conversationHistory, context)[..i]
      {
        var content := recent[i].content;
        if i == |recent| - 1 && context != "" {
          content := context + "\n\n" + content;
        }
        messages := messages + [ApiMessage(recent[i].role, content)];
        i := i + 1;
      }
    }

    /**
     * `generate_response`: record a truthy emotion, append the user message,
     * ask the service (building the prompt when there is a client), fall
     * back to a canned reply when there is no client or the call failed, and
     * append the reply.  Both new messages carry `emotion`.
     */
    method GenerateResponse(userMessage: string, emotion: Option<string>, outcome: ApiOutcome, choice: nat)
      returns (response: string, sent: Option<seq<ApiMessage>>)
      requires Valid() && choice < 3
      modifies this
      ensures Valid()
      ensures Truthy(emotion) ==> currentEmotion == emotion && emotionsSeen == old(emotionsSeen) + [emotion.value]
                                  && emotionHistory == BoundedAppend(old(emotionHistory), emotion.value, EmotionMemory)
      ensures !Truthy(emotion) ==> currentEmotion == old(currentEmotion) && emotionsSeen == old(emotionsSeen)
                                   && emotionHistory == old(emotionHistory)
      ensures conversationHistory == old(conversationHistory)
                + [Message("user", userMessage, emotion), Message("assistant", response, emotion)]
      ensures sent == None <==> outcome == NoClient
      ensures sent.Some? ==> sent.value == PromptWindow(old(conversationHistory) + [Message("user", userMessage, emotion)],
                                                        ContextMessage())
      ensures outcome.Replied? ==> response == outcome.text
      ensures !outcome.Replied? ==> response == FallbackResponse(currentEmotion, choice)
    {
      if Truthy(emotion) {
        SetEmotionContext(emotion.value);
      }
      conversationHistory := conversationHistory + [Message("user", userMessage, emotion)];
      if outcome == NoClient {
        sent := None;
        response := FallbackResponse(currentEmotion, choice);
      } else {
        var prompt := BuildPrompt();
        sent := Some(prompt);
        response := if outcome.Replied? then outcome.text else FallbackResponse(currentEmotion, choice);
      }
      conversationHistory := conversationHistory + [Message("assistant", response, emotion)];
    }

    /** `get_conversation_history`: one entry per message, in order. */
    function ConversationHistory(): (entries: seq<HistoryEntry>)
      reads this
      ensures |entries| == |conversationHistory|
      ensures forall k :: 0 <= k < |entries| ==>
        entries[k] == HistoryEntry(conversationHistory[k].role, conversationHistory[k].content, conversationHistory[k].emotionContext)
    {
      var messages := conversationHistory;
      seq(|messages|, k requires 0 <= k < |messages| =>
        HistoryEntry(messages[k].role, messages[k].content, messages[k].emotionContext))
    }

    /** `clear_history`: no messages, no emotions, no current emotion, hence no context. */
    method ClearHistory()
      modifies this
      ensures Valid()
      ensures conversationHistory == [] && emotionHistory == [] && currentEmotion == None && emotionsSeen == []
      ensures ContextMessage() == ""
    {
      conversationHistory := [];
      emotionHistory := [];
      currentEmotion := None;
      emotionsSeen := [];
    }

    /**
     * `get_greeting`: record a truthy emotion, then greet for it, with the
     * neutral greeting for no emotion or an unknown one.
     */
    method GetGreeting(emotion: Option<string>) returns (greeting: string)
      requires Valid()
      modifies this
      ensures Valid()
      ensures greeting == GreetingFor(OrNeutral(emotion))
      ensures Truthy(emotion) ==> currentEmotion == emotion && emotionsSeen == old(emotionsSeen) + [emotion.value]
      ensures !Truthy(emotion) ==> currentEmotion == old(currentEmotion) && emotionsSeen == old(emotionsSeen)
                                   && emotionHistory == old(emotionHistory)
      ensures conversationHistory == old(conversationHistory)
    {
      if Truthy(emotion) {
        SetEmotionContext(emotion.value);
      }
      greeting := GreetingFor(OrNeutral(emotion));
    }
  }

  /** Recording the same emotion three times in a row makes it persist, whatever came before. */
  lemma ThreeInARowPersists(history: seq<string>, e: string)
    ensures Persists(e, BoundedAppend(BoundedAppend(BoundedAppend(history, e, EmotionMemory), e, EmotionMemory), e, EmotionMemory))
  {
    var h1 := BoundedAppend(history, e, EmotionMemory);
    var h2 := BoundedAppend(h1, e, EmotionMemory);
    var h3 := BoundedAppend(h2, e, EmotionMemory);
    BoundedAppendTail(history, e, EmotionMemory);
    assert |h1| >= 1 && h1[|h1| - 1] == e;
    BoundedAppendTail(h1, e, EmotionMemory);
    assert |h2| >= 2 && h2[|h2| - 1] == e && h2[|h2| - 2] == e;
    BoundedAppendTail(h2, e, EmotionMemory);
    assert |h3| >= 3 && h3[|h3| - 1] == e && h3[|h3| - 2] == e && h3[|h3| - 3] == e;
  }

  /** Recording a different emotion ends persistence. */
  lemma DifferentEmotionBreaksPersistence(history: seq<string>, e: string, f: string)
    requires e != f
    ensures !Persists(e, BoundedAppend(history, f, EmotionMemory))
  {
    BoundedAppendTail(history, f, EmotionMemory);
  }
}
