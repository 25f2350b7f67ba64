/** The demo-mode rule engine of `src/lib/gemini.ts`: a keyword emotion
    classifier, a localized reply generator with one optional
    personalization clause, and a creative-content table. All three are
    total: every lookup has a fallback. */
module Gemini {
  import opened Text
  import opened Wrappers
  import Random

  /** `supportedLanguages`: code and native name, in declaration order. */
  const SupportedLanguages: seq<(string, string)> := [
    ("en", "English"),
    ("hi", "हिन्दी (Hindi)"),
    ("bn", "বাংলা (Bengali)"),
    ("te", "తెలుగు (Telugu)"),
    ("mr", "मराठी (Marathi)"),
    ("ta", "தமிழ் (Tamil)"),
    ("gu", "ગુજરાતી (Gujarati)"),
    ("kn", "ಕನ್ನಡ (Kannada)"),
    ("ml", "മലയാളം (Malayalam)"),
    ("pa", "ਪੰਜਾਬੀ (Punjabi)"),
    ("or", "ଓଡ଼ିଆ (Odia)"),
    ("as", "অসমীয়া (Assamese)"),
    ("ur", "اردو (Urdu)"),
    ("sa", "संस्कृत (Sanskrit)"),
    ("ne", "नेपाली (Nepali)"),
    ("si", "සිංහල (Sinhala)"),
    ("my", "မြန်မာ (Myanmar)"),
    ("th", "ไทย (Thai)"),
    ("es", "Español"),
    ("fr", "Français"),
    ("de", "Deutsch"),
    ("it", "Italiano"),
    ("pt", "Português"),
    ("ru", "Русский"),
    ("ja", "日本語"),
    ("ko", "한국어"),
    ("zh", "中文"),
    ("ar", "العربية")
  ]

  // ---------------------------------------------------------------------
  // Emotion classifier (`analyzeTextEmotion`, demo branch)
  // ---------------------------------------------------------------------

  datatype EmotionAnalysis = EmotionAnalysis(emotion: string, confidence: real, suggestions: seq<string>)

  /** The keyword categories of the classifier. */
  datatype Category = Happy | Sad | Angry | Anxious | Calm {
    function Label(): string {
      match this
      case Happy => "happy"
      case Sad => "sad"
      case Angry => "angry"
      case Anxious => "anxious"
      case Calm => "calm"
    }

    function Keywords(): seq<string> {
      match this
      case Happy => ["happy", "joy", "excited", "great", "wonderful", "amazing", "love", "good"]
      case Sad => ["sad", "depressed", "down", "upset", "crying", "hurt", "lonely"]
      case Angry => ["angry", "mad", "furious", "annoyed", "frustrated", "hate"]
      case Anxious => ["anxious", "worried", "nervous", "scared", "afraid", "panic"]
      case Calm => ["calm", "peaceful", "relaxed", "serene", "tranquil"]
    }
  }

  /** The order in which the categories are tried. */
  const CategoryOrder: seq<Category> := [Happy, Sad, Angry, Anxious, Calm]

  const DetectedConfidence: real := 0.8
  const NeutralConfidence: real := 0.6

  /** The `suggestions` table: three suggestions for the winning category,
      or for neutral when none won. */
  function SuggestionsFor(winner: Option<Category>): seq<string> {
    match winner
    case Some(Happy) => ["Keep spreading that positive energy!", "Share your joy with others", "Remember this feeling for tough times"]
    case Some(Sad) => ["It's okay to feel sad sometimes", "Consider talking to someone you trust", "Try some gentle self-care activities"]
    case Some(Angry) => ["Take some deep breaths", "Try counting to ten", "Consider what's really bothering you"]
    case Some(Anxious) => ["Practice deep breathing", "Ground yourself in the present moment", "Remember that this feeling will pass"]
    case Some(Calm) => ["Enjoy this peaceful moment", "Use this calm energy for reflection", "Share your serenity with others"]
    case None => ["Take a moment to check in with yourself", "Consider what you're grateful for", "You are not alone"]
  }

  /** Every label has exactly three suggestions. */
  lemma SuggestionsAreThree(winner: Option<Category>)
    ensures |SuggestionsFor(winner)| == 3
  {
  }

  /** Some keyword of category `c` occurs somewhere in `lowerText`. */
  ghost predicate CategoryMatches(lowerText: string, c: Category) {
    exists j :: 0 <= j < |c.Keywords()| && IsSubstring(c.Keywords()[j], lowerText)
  }

  /** `keywords.some(keyword => lowerText.includes(keyword))`. */
  function AnyKeywordIn(lowerText: string, keywords: seq<string>): (b: bool)
    ensures b <==> exists j :: 0 <= j < |keywords| && IsSubstring(keywords[j], lowerText)
  {
    if |keywords| == 0 then false
    else if Includes(lowerText, keywords[0]) then true
    else
      var rest := AnyKeywordIn(lowerText, keywords[1..]);
      assert forall j :: 1 <= j < |keywords| ==> keywords[j] == keywords[1..][j - 1];
      rest
  }

  /** The position in `CategoryOrder`, from `from` on, of the first category
      that matches; `|CategoryOrder|` when none does. */
  function FirstMatchingCategory(lowerText: string, from: nat): (k: nat)
    requires from <= |CategoryOrder|
    ensures from <= k <= |CategoryOrder|
    ensures k < |CategoryOrder| ==> CategoryMatches(lowerText, CategoryOrder[k])
    ensures forall j :: from <= j < k ==> !CategoryMatches(lowerText, CategoryOrder[j])
    decreases |CategoryOrder| - from
  {
    if from == |CategoryOrder| then from
    else if AnyKeywordIn(lowerText, CategoryOrder[from].Keywords()) then from
    else FirstMatchingCategory(lowerText, from + 1)
  }

  /** The winning category for already lower-cased text: the first one, in
      the fixed order, with a keyword inside the text. */
  function DetectCategory(lowerText: string): (r: Option<Category>)
    ensures forall k :: 0 <= k < |CategoryOrder| ==>
              (r == Some(CategoryOrder[k]) <==>
                 CategoryMatches(lowerText, CategoryOrder[k]) &&
                 forall j :: 0 <= j < k ==> !CategoryMatches(lowerText, CategoryOrder[j]))
    ensures r == None <==> forall k :: 0 <= k < |CategoryOrder| ==> !CategoryMatches(lowerText, CategoryOrder[k])
  {
    var k := FirstMatchingCategory(lowerText, 0);
    if k < |CategoryOrder| then Some(CategoryOrder[k]) else None
  }

  /** The labels the classifier can return. */
  predicate IsClassifierLabel(e: string) {
    e == "happy" || e == "sad" || e == "angry" || e == "anxious" || e == "calm" || e == "neutral"
  }

  /** `analyzeTextEmotion(text)` in demo mode: the label of the winning
      category of the lower-cased text at confidence 0.8, or neutral at 0.6. */
  function Classify(text: string): (r: EmotionAnalysis)
    ensures IsClassifierLabel(r.emotion)
    ensures match DetectCategory(Lower(text))
            case Some(c) => r.emotion == c.Label() && r.confidence == DetectedConfidence
            case None => r.emotion == "neutral" && r.confidence == NeutralConfidence
    ensures r.suggestions == SuggestionsFor(DetectCategory(Lower(text)))
  {
    var winner := DetectCategory(Lower(text));
    match winner
    case Some(c) => EmotionAnalysis(c.Label(), DetectedConfidence, SuggestionsFor(winner))
    case None => EmotionAnalysis("neutral", NeutralConfidence, SuggestionsFor(winner))
  }

  /** Matching ignores ASCII case: classifying the lower-cased text gives the same result. */
  lemma ClassifyIgnoresCase(text: string)
    ensures Classify(Lower(text)) == Classify(text)
  {
    LowerIdempotent(text);
  }

  /** Any happy keyword anywhere in the text wins, whatever else it says. */
  lemma HappyKeywordWins(text: string, j: nat)
    requires j < |Happy.Keywords()| && IsSubstring(Happy.Keywords()[j], Lower(text))
    ensures Classify(text).emotion == "happy"
    ensures Classify(text).confidence == 0.8
  {
    assert CategoryMatches(Lower(text), CategoryOrder[0]);
  }

  /** The happy category is tried before the sad one: "sad but happy" is happy. */
  lemma SadButHappyIsHappy(t: string)
    requires t == "sad but happy"
    ensures Classify(t).emotion == "happy"
  {
    LowerOfLowercase(t);
    assert t == "sad but " + "happy" + "";
    OccursAfter("sad but ", "happy", "");
    HappyKeywordWins(t, 0);
  }

  /** Matching is by substring, not by word: "goodbye" contains "good". */
  lemma GoodbyeIsHappy(t: string)
    requires t == "goodbye"
    ensures Classify(t).emotion == "happy"
  {
    LowerOfLowercase(t);
    assert t[0..4] == "good";
    assert OccursAt("good", t, 0);
    HappyKeywordWins(t, 7);
  }

  /** Upper case does not hide a keyword: "GOOD" is classified as "good" is. */
  lemma UpperCaseKeywordIsHappy(t: string)
    requires t == "GOOD"
    ensures Classify(t).emotion == "happy"
  {
    var l := Lower(t);
    assert l == "good";
    assert l[0..4] == "good";
    assert OccursAt("good", l, 0);
    HappyKeywordWins(t, 7);
  }

  /** Text with no keyword of any category is neutral with confidence 0.6. */
  lemma NoKeywordIsNeutral(text: string)
    requires forall c: Category, j :: 0 <= j < |c.Keywords()| ==> !IsSubstring(c.Keywords()[j], Lower(text))
    ensures Classify(text).emotion == "neutral" && Classify(text).confidence == 0.6
    ensures Classify(text).suggestions == SuggestionsFor(None)
  {
  }

  // ---------------------------------------------------------------------
  // Reply generator (`generateAIResponse`, demo branch)
  // ---------------------------------------------------------------------

  /** The reply languages that have their own tables. */
  datatype ReplyLanguage = En | Es | Hi {
    function Code(): string {
      match this
      case En => "en"
      case Es => "es"
      case Hi => "hi"
    }
  }

  predicate HasReplyTables(language: string) {
    language == "en" || language == "es" || language == "hi"
  }

  /** `responses[language] || responses['en']`: the table a language code
      selects, en for every code without tables. */
  function ReplyLanguageOf(language: string): (l: ReplyLanguage)
    ensures HasReplyTables(language) ==> l.Code() == language
    ensures !HasReplyTables(language) ==> l == En
  {
    if language == "es" then Es else if language == "hi" then Hi else En
  }

  /** The emotions every reply language has a template pool for. */
  datatype PoolEmotion = HappyPool | SadPool | AnxiousPool | NeutralPool {
    function Key(): string {
      match this
      case HappyPool => "happy"
      case SadPool => "sad"
      case AnxiousPool => "anxious"
      case NeutralPool => "neutral"
    }
  }

  predicate HasTemplatePool(emotion: string) {
    emotion == "happy" || emotion == "sad" || emotion == "anxious" || emotion == "neutral"
  }

  /** `languageResponses[emotion] || languageResponses['neutral']`. */
  function PoolEmotionOf(emotion: string): (e: PoolEmotion)
    ensures HasTemplatePool(emotion) ==> e.Key() == emotion
    ensures !HasTemplatePool(emotion) ==> e == NeutralPool
  {
    if emotion == "happy" then HappyPool
    else if emotion == "sad" then SadPool
    else if emotion == "anxious" then AnxiousPool
    else NeutralPool
  }

  /** Every table language's code selects that language's table. */
  lemma LanguageCodeReadsBack(l: ReplyLanguage)
    ensures HasReplyTables(l.Code()) && ReplyLanguageOf(l.Code()) == l
  {
  }

  /** Every pool emotion's key selects that emotion's pool. */
  lemma EmotionKeyReadsBack(e: PoolEmotion)
    ensures HasTemplatePool(e.Key()) && PoolEmotionOf(e.Key()) == e
  {
  }

  /** Three reply templates; every pool of the `responses` table has three. */
  datatype ReplyPool = ReplyPool(first: string, second: string, third: string) {
    const Size: nat := 3

    function At(i: nat): string
      requires i < Size
    {
      if i == 0 then first else if i == 1 then second else third
    }

    predicate Contains(t: string) {
      t == first || t == second || t == third
    }
  }

  /** The `responses` table of the demo branch. */
  function Templates(language: ReplyLanguage, emotion: PoolEmotion): ReplyPool {
    match language
    case En => EnTemplates(emotion)
    case Es => EsTemplates(emotion)
    case Hi => HiTemplates(emotion)
  }

  function EnTemplates(emotion: PoolEmotion): ReplyPool {
    match emotion
    case HappyPool => ReplyPool(
      "That's wonderful to hear! Your positive energy is contagious. What's bringing you the most joy today?",
      "I love seeing you so happy! It's beautiful when we can appreciate the good moments in life.",
      "Your happiness is a gift to yourself and others. How can you carry this feeling forward?")
    case SadPool => ReplyPool(
      "I hear that you're going through a difficult time. It's completely normal to feel sad, and I'm here with you.",
      "Thank you for sharing your feelings with me. Sadness is a natural part of the human experience, and you don't have to face it alone.",
      "I can sense the weight you're carrying. Would you like to talk about what's on your mind?")
    case AnxiousPool => ReplyPool(
      "I understand that you're feeling anxious. Anxiety can be overwhelming, but remember that you've gotten through difficult moments before.",
      "It's okay to feel worried. Let's focus on what's within your control right now. Can you tell me about your immediate surroundings?",
      "Anxiety can make everything feel urgent and scary. You're safe right now, and we can work through this together.")
    case NeutralPool => ReplyPool(
      "Thank you for sharing with me. Sometimes it's okay to just be where we are without needing to feel anything specific.",
      "I appreciate you taking the time to connect. What's on your mind today?",
      "It's perfectly fine to feel neutral. How has your day been treating you?")
  }

  function EsTemplates(emotion: PoolEmotion): ReplyPool {
    match emotion
    case HappyPool => ReplyPool(
      "¡Qué maravilloso escuchar eso! Tu energía positiva es contagiosa. ¿Qué te está trayendo más alegría hoy?",
      "¡Me encanta verte tan feliz! Es hermoso cuando podemos apreciar los buenos momentos de la vida.",
      "Tu felicidad es un regalo para ti y para otros. ¿Cómo puedes llevar este sentimiento hacia adelante?")
    case SadPool => ReplyPool(
      "Escucho que estás pasando por un momento difícil. Es completamente normal sentirse triste, y estoy aquí contigo.",
      "Gracias por compartir tus sentimientos conmigo. La tristeza es una parte natural de la experiencia humana.",
      "Puedo sentir el peso que llevas. ¿Te gustaría hablar sobre lo que tienes en mente?")
    case AnxiousPool => ReplyPool(
      "Entiendo que te sientes ansioso/a. La ansiedad puede ser abrumadora, pero recuerda que has superado momentos difíciles antes.",
      "Está bien sentirse preocupado/a. Enfoquémonos en lo que está bajo tu control ahora mismo.",
      "La ansiedad puede hacer que todo se sienta urgente y aterrador. Estás seguro/a ahora mismo.")
    case NeutralPool => ReplyPool(
      "Gracias por compartir conmigo. A veces está bien estar donde estamos sin necesidad de sentir algo específico.",
      "Aprecio que te tomes el tiempo para conectar. ¿Qué tienes en mente hoy?",
      "Está perfectamente bien sentirse neutral. ¿Cómo te ha tratado el día?")
  }

  function HiTemplates(emotion: PoolEmotion): ReplyPool {
    match emotion
    case HappyPool => ReplyPool(
      "यह सुनना बहुत अच्छा है! आपकी सकारात्मक ऊर्जा संक्रामक है। आज आपको सबसे ज्यादा खुशी क्या दे रही है?",
      "मुझे आपको इतना खुश देखना अच्छा लगता है! जब हम जीवन के अच्छे पलों की सराहना कर सकते हैं तो यह सुंदर है।",
      "आपकी खुशी आपके और दूसरों के लिए एक उपहार है। आप इस भावना को कैसे आगे बढ़ा सकते हैं?")
    case SadPool => ReplyPool(
      "मैं सुन रहा हूं कि आप एक कठिन समय से गुजर रहे हैं। उदास महसूस करना बिल्कुल सामान्य है, और मैं आपके साथ हूं।",
      "अपनी भावनाओं को मेरे साथ साझा करने के लिए धन्यवाद। उदासी मानवीय अनुभव का एक प्राकृतिक हिस्सा है।",
      "मैं आपके द्वारा उठाए जा रहे बोझ को महसूस कर सकता हूं। क्या आप इस बारे में बात करना चाहेंगे कि आपके मन में क्या है?")
    case AnxiousPool => ReplyPool(
      "मैं समझता हूं कि आप चिंतित महसूस कर रहे हैं। चिंता भारी हो सकती है, लेकिन याद रखें कि आपने पहले भी कठिन क्षणों को पार किया है।",
      "चिंतित महसूस करना ठीक है। आइए उस पर ध्यान दें जो अभी आपके नियंत्रण में है।",
      "चिंता सब कुछ तत्काल और डरावना महसूस करा सकती है। आप अभी सुरक्षित हैं।")
    case NeutralPool => ReplyPool(
      "मेरे साथ साझा करने के लिए धन्यवाद। कभी-कभी बिना कुछ विशिष्ट महसूस किए हम जहां हैं वहीं रहना ठीक है।",
      "मैं आपके जुड़ने के लिए समय निकालने की सराहना करता हूं। आज आपके मन में क्या है?",
      "तटस्थ महसूस करना बिल्कुल ठीक है। आपका दिन कैसा रहा है?")
  }

  /** The pool `generateAIResponse` draws from: the language falls back to
      en, then the emotion to that language's neutral pool. */
  function TemplatePool(language: string, emotion: string): ReplyPool {
    Templates(ReplyLanguageOf(language), PoolEmotionOf(emotion))
  }

  /** Each table entry is the pool of its own language and emotion keys. */
  lemma TemplatePoolSelectsEntry(l: ReplyLanguage, e: PoolEmotion)
    ensures TemplatePool(l.Code(), e.Key()) == Templates(l, e)
  {
    LanguageCodeReadsBack(l);
    EmotionKeyReadsBack(e);
  }

  /** A language without tables replies from the en pool. */
  lemma UnknownLanguageUsesEnglish(language: string, emotion: string)
    requires !HasReplyTables(language)
    ensures TemplatePool(language, emotion) == Templates(En, PoolEmotionOf(emotion))
  {
  }

  /** Emotions without a pool, the classifier's angry and calm among them,
      reply from the neutral pool of the language. */
  lemma MissingEmotionUsesNeutral(language: string, emotion: string)
    requires !HasTemplatePool(emotion)
    ensures TemplatePool(language, emotion) == Templates(ReplyLanguageOf(language), NeutralPool)
  {
  }

  /** Two of the classifier's labels, angry and calm, have no pool of their own. */
  lemma AngryAndCalmUseNeutral()
    ensures forall c: Category :: HasTemplatePool(c.Label()) <==> c !in {Angry, Calm}
    ensures PoolEmotionOf(Angry.Label()) == NeutralPool && PoolEmotionOf(Calm.Label()) == NeutralPool
  {
  }

  /** The personalization topics, in the order the reply checks them. */
  datatype Topic = Work | Family | Tired

  /** The whole tokens that select each topic, in any reply language. */
  function TopicKeywords(t: Topic): seq<string> {
    match t
    case Work => ["work", "job", "trabajo", "काम"]
    case Family => ["family", "friend", "familia", "परिवार"]
    case Tired => ["tired", "exhausted", "cansado", "थका"]
  }

  /** The `personalizations` table of the demo branch. */
  function Clause(language: ReplyLanguage, t: Topic): string {
    match language
    case En => EnClause(t)
    case Es => EsClause(t)
    case Hi => HiClause(t)
  }

  function EnClause(t: Topic): string {
    match t
    case Work => " Work can be challenging, but remember to take care of yourself too."
    case Family => " Relationships are so important for our wellbeing."
    case Tired => " Rest is not a luxury, it's a necessity. Be gentle with yourself."
  }

  function EsClause(t: Topic): string {
    match t
    case Work => " El trabajo puede ser desafiante, pero recuerda cuidarte también."
    case Family => " Las relaciones son muy importantes para nuestro bienestar."
    case Tired => " El descanso no es un lujo, es una necesidad. Sé gentil contigo mismo/a."
  }

  function HiClause(t: Topic): string {
    match t
    case Work => " काम चुनौतीपूर्ण हो सकता है, लेकिन अपना भी ख्याल रखना याद रखें।"
    case Family => " रिश्ते हमारी भलाई के लिए बहुत महत्वपूर्ण हैं।"
    case Tired => " आराम कोई विलासिता नहीं है, यह एक आवश्यकता है। अपने साथ कोमल रहें।"
  }

  /** `userMessage.toLowerCase().split(' ')`. */
  function MessageTokens(message: string): (tokens: seq<string>)
    ensures |tokens| > 0
    ensures forall i :: 0 <= i < |tokens| ==> ' ' !in tokens[i]
    ensures Join(tokens, ' ') == Lower(message)
  {
    Split(Lower(message), ' ')
  }

  /** Some token equals one of the topic's keywords. */
  ghost predicate Mentions(tokens: seq<string>, t: Topic) {
    exists i :: 0 <= i < |tokens| && tokens[i] in TopicKeywords(t)
  }

  /** `keywords.includes(a) || keywords.includes(b) || ...` for one topic. */
  function ContainsAnyToken(tokens: seq<string>, words: seq<string>): (b: bool)
    ensures b <==> exists i :: 0 <= i < |tokens| && tokens[i] in words
  {
    if |words| == 0 then false
    else if words[0] in tokens then true
    else
      var rest := ContainsAnyToken(tokens, words[1..]);
      assert forall i :: 0 <= i < |tokens| ==> (tokens[i] in words <==> tokens[i] in words[1..]);
      rest
  }

  /** The first topic, in the order work, family, tired, that some token names. */
  function DetectTopic(tokens: seq<string>): (r: Option<Topic>)
    ensures r == Some(Work) <==> Mentions(tokens, Work)
    ensures r == Some(Family) <==> !Mentions(tokens, Work) && Mentions(tokens, Family)
    ensures r == Some(Tired) <==> !Mentions(tokens, Work) && !Mentions(tokens, Family) && Mentions(tokens, Tired)
    ensures r == None <==> !Mentions(tokens, Work) && !Mentions(tokens, Family) && !Mentions(tokens, Tired)
  {
    if ContainsAnyToken(tokens, TopicKeywords(Work)) then Some(Work)
    else if ContainsAnyToken(tokens, TopicKeywords(Family)) then Some(Family)
    else if ContainsAnyToken(tokens, TopicKeywords(Tired)) then Some(Tired)
    else None
  }

  /** The clause for a topic, in the reply language's table (en when it has none). */
  function ClauseFor(language: string, t: Topic): string {
    Clause(ReplyLanguageOf(language), t)
  }

  /** `pool[Math.floor(Math.random() * pool.length)]`, with `Math.random()`
      passed in as `r`. */
  function PickTemplate(pool: ReplyPool, r: real): (t: string)
    requires Random.IsUnitSample(r)
    ensures pool.Contains(t)
  {
    pool.At(Random.PickIndex(r, pool.Size))
  }

  /** No template of a pool is unreachable: each is picked by some sample. */
  lemma EveryTemplateReachable(pool: ReplyPool, t: string)
    requires pool.Contains(t)
    ensures exists r :: Random.IsUnitSample(r) && PickTemplate(pool, r) == t
  {
    var i: nat := if t == pool.first then 0 else if t == pool.second then 1 else 2;
    Random.EveryIndexReachable(i, pool.Size);
    assert PickTemplate(pool, i as real / pool.Size as real) == t;
  }

  /** `generateAIResponse(userMessage, emotion, language)` in demo mode,
      with `Math.random()` passed in as `r`. The reply is a template of the
      selected pool followed by the clause of the first topic the message
      names, if any. */
  function GenerateResponse(userMessage: string, emotion: string, language: string, r: real): (out: string)
    requires Random.IsUnitSample(r)
    ensures var template := PickTemplate(TemplatePool(language, emotion), r);
            |template| <= |out| && out[..|template|] == template
  {
    Personalize(PickTemplate(TemplatePool(language, emotion), r), MessageTokens(userMessage), ReplyLanguageOf(language))
  }

  /** `personalizedResponse`: the template, followed by the clause, in the
      given language, of the first topic the tokens name. */
  function Personalize(template: string, tokens: seq<string>, language: ReplyLanguage): (out: string)
    ensures |template| <= |out| && out[..|template|] == template
    ensures match DetectTopic(tokens)
            case None => out == template
            case Some(t) => out[|template|..] == Clause(language, t)
  {
    match DetectTopic(tokens)
    case None => template
    case Some(t) => template + Clause(language, t)
  }

  /** The clause follows the reply language, whatever language the keyword
      was written in; a language without tables gets the en clauses. */
  lemma ClauseFollowsReplyLanguage(language: string, t: Topic)
    ensures HasReplyTables(language) ==> ClauseFor(language, t) == Clause(ReplyLanguageOf(language), t) && ReplyLanguageOf(language).Code() == language
    ensures !HasReplyTables(language) ==> ClauseFor(language, t) == Clause(En, t)
  {
  }

  /** A message naming a topic gets the template followed by that topic's
      clause in the reply language. */
  lemma TopicAddsItsClause(userMessage: string, emotion: string, language: string, r: real, t: Topic)
    requires Random.IsUnitSample(r)
    ensures DetectTopic(MessageTokens(userMessage)) == Some(t) ==>
              GenerateResponse(userMessage, emotion, language, r)
                == PickTemplate(TemplatePool(language, emotion), r) + ClauseFor(language, t)
  {
    if DetectTopic(MessageTokens(userMessage)) == Some(t) {
      var template := PickTemplate(TemplatePool(language, emotion), r);
      var out := GenerateResponse(userMessage, emotion, language, r);
      assert out == template + out[|template|..];
    }
  }

  /** A work token outranks family and tiredness tokens in the same message. */
  lemma WorkOutranksOtherTopics(userMessage: string, emotion: string, language: string, r: real, i: nat)
    requires Random.IsUnitSample(r)
    requires i < |MessageTokens(userMessage)| && MessageTokens(userMessage)[i] in TopicKeywords(Work)
    ensures GenerateResponse(userMessage, emotion, language, r)
              == PickTemplate(TemplatePool(language, emotion), r) + ClauseFor(language, Work)
  {
    assert Mentions(MessageTokens(userMessage), Work);
    TopicAddsItsClause(userMessage, emotion, language, r, Work);
  }

  /** A message naming no topic gets the bare template. */
  lemma NoTopicNoClause(userMessage: string, emotion: string, language: string, r: real)
    requires Random.IsUnitSample(r)
    requires DetectTopic(MessageTokens(userMessage)) == None
    ensures GenerateResponse(userMessage, emotion, language, r) == PickTemplate(TemplatePool(language, emotion), r)
  {
  }

  /** A message of one lower-case word is that single token. */
  lemma OneWordMessage(m: string)
    requires ' ' !in m && HasNoUpper(m)
    ensures MessageTokens(m) == [m]
  {
    LowerOfLowercase(m);
    SplitWithoutSeparator(m, ' ');
  }

  /** A single token selects the first topic whose keyword list holds it. */
  lemma OneTokenTopic(w: string)
    ensures DetectTopic([w]) == (if w in TopicKeywords(Work) then Some(Work)
                                 else if w in TopicKeywords(Family) then Some(Family)
                                 else if w in TopicKeywords(Tired) then Some(Tired)
                                 else None)
  {
    assert forall t :: Mentions([w], t) <==> w in TopicKeywords(t) by {
      forall t ensures Mentions([w], t) <==> w in TopicKeywords(t) {
        if w in TopicKeywords(t) { assert [w][0] == w; }
      }
    }
  }

  /** Keywords count only as whole space-separated tokens: "working" and
      "work." name no topic. */
  lemma PartialTokensNameNoTopic(m: string)
    requires m == "working" || m == "work."
    ensures DetectTopic(MessageTokens(m)) == None
  {
    OneWordMessage(m);
    OneTokenTopic(m);
  }

  /** The Spanish "trabajo" names the work topic in any reply language. */
  lemma SpanishKeywordNamesWork(m: string)
    requires m == "trabajo"
    ensures DetectTopic(MessageTokens(m)) == Some(Work)
  {
    OneWordMessage(m);
    OneTokenTopic(m);
  }

  /** "tired from work" splits into its three words. */
  lemma TiredFromWorkTokens(m: string)
    requires m == "tired from work"
    ensures MessageTokens(m) == ["tired", "from", "work"]
  {
    LowerOfLowercase(m);
    TiredFromWorkJoined(m);
    SplitJoin(["tired", "from", "work"], ' ');
  }

  lemma TiredFromWorkJoined(m: string)
    requires m == "tired from work"
    ensures Join(["tired", "from", "work"], ' ') == m
  {
    var tokens := ["tired", "from", "work"];
    assert Join(tokens[2..], ' ') == "work";
    assert Join(tokens[1..], ' ') == "from work";
  }

  /** "tired from work": work is checked first, so the work topic wins. */
  lemma TiredFromWorkNamesWork(m: string)
    requires m == "tired from work"
    ensures DetectTopic(MessageTokens(m)) == Some(Work)
  {
    TiredFromWorkTokens(m);
    var tokens := MessageTokens(m);
    assert tokens[2] == TopicKeywords(Work)[0];
    assert Mentions(tokens, Work);
  }

  // ---------------------------------------------------------------------
  // Creative content (`generateCreativeContent`, demo branch)
  // ---------------------------------------------------------------------

  datatype CreativeType = Art | Music | Story {
    /** The type's name as it appears in the chat message. */
    function Name(): string {
      match this
      case Art => "art"
      case Music => "music"
      case Story => "story"
    }
  }

  /** The `content` table of the demo branch. */
  function CreativeText(contentType: CreativeType, emotion: PoolEmotion): string {
    match contentType
    case Art => ArtText(emotion)
    case Music => MusicText(emotion)
    case Story => StoryText(emotion)
  }

  function ArtText(emotion: PoolEmotion): string {
    match emotion
    case HappyPool => "Imagine a vibrant sunflower field stretching endlessly under a bright blue sky. Golden petals dance in the warm breeze, while butterflies flutter between the blooms. The painting uses warm yellows, oranges, and blues to capture pure joy and celebration of life."
    case SadPool => "Picture a gentle rain falling on a quiet pond, creating ripples that reflect the soft gray sky. Willow trees bend gracefully over the water, their leaves creating a natural sanctuary. The artwork uses soft blues, grays, and gentle greens to provide comfort and peace."
    case AnxiousPool => "Visualize a serene mountain lake at dawn, perfectly still and mirror-like. Soft mist rises from the water while the first rays of sunlight paint the sky in gentle pastels. The scene uses calming blues, soft pinks, and peaceful whites to promote tranquility."
    case NeutralPool => "Envision a simple zen garden with carefully raked sand and a few perfectly placed stones. The minimalist composition focuses on balance and harmony, using earth tones and clean lines to create a sense of peaceful simplicity."
  }

  function MusicText(emotion: PoolEmotion): string {
    match emotion
    case HappyPool => "🎵 Uplifting Playlist: 'Good as Hell' by Lizzo, 'Happy' by Pharrell Williams, 'Can't Stop the Feeling' by Justin Timberlake. Add some upbeat indie folk like 'Home' by Edward Sharpe & The Magnetic Zeros for that feel-good energy!"
    case SadPool => "🎵 Healing Sounds: Try 'Mad World' by Gary Jules for cathartic release, then transition to 'The Night We Met' by Lord Huron. End with 'Breathe Me' by Sia. Sometimes we need to feel our emotions fully before we can heal."
    case AnxiousPool => "🎵 Calming Melodies: Start with 'Weightless' by Marconi Union (scientifically proven to reduce anxiety), add some Ludovico Einaudi piano pieces, and include nature sounds like rain or ocean waves for deep relaxation."
    case NeutralPool => "🎵 Ambient Exploration: Try Brian Eno's 'Music for Airports', some lo-fi hip hop beats, or instrumental versions of your favorite songs. Perfect for reflection and gentle mood exploration."
  }

  function StoryText(emotion: PoolEmotion): string {
    match emotion
    case HappyPool => "Maya discovered an old music box in her grandmother's attic. As the tiny ballerina spun to the gentle melody, she remembered all the times her grandmother had danced with her in the kitchen while cookies baked. The music box became a daily reminder that joy lives in the smallest moments, and that love transcends time. Every morning, Maya would wind it up and let the melody fill her heart with gratitude for the beautiful memories that shaped her."
    case SadPool => "The old oak tree had weathered many storms, its branches scarred but still strong. A young girl often sat beneath it when life felt overwhelming, finding comfort in its steady presence. One day, she noticed new growth sprouting from what seemed like a dead branch. The tree whispered its wisdom: even in our darkest moments, new life finds a way to emerge. Healing doesn't erase our scars; it transforms them into sources of strength."
    case AnxiousPool => "The lighthouse keeper had one job: to keep the light burning for ships lost in the fog. Some nights, the storms were fierce and the keeper couldn't see beyond the tower. But they trusted that the light was reaching those who needed it most. Like the lighthouse keeper, we don't always see the impact of our presence, but our steady light guides others through their darkest moments. Sometimes, being a beacon is enough."
    case NeutralPool => "The library cat wandered between the shelves, neither hurried nor idle, simply present. Visitors often paused to watch its peaceful journey, finding something profound in its unhurried existence. The cat reminded everyone that not every moment needs to be filled with purpose or emotion. Sometimes, the most beautiful thing we can do is simply be, allowing life to unfold naturally around us."
  }

  /** `content[type][emotion] || content[type].neutral`. */
  function CreativeContent(emotion: string, contentType: CreativeType): string {
    CreativeText(contentType, PoolEmotionOf(emotion))
  }

  /** Each emotion with a text of its own gets that text. */
  lemma CreativeContentSelectsEntry(e: PoolEmotion, contentType: CreativeType)
    ensures CreativeContent(e.Key(), contentType) == CreativeText(contentType, e)
  {
    EmotionKeyReadsBack(e);
  }

  /** Emotions outside happy/sad/anxious/neutral get the neutral text of the type. */
  lemma CreativeFallsBackToNeutral(emotion: string, contentType: CreativeType)
    requires !HasTemplatePool(emotion)
    ensures CreativeContent(emotion, contentType) == CreativeText(contentType, NeutralPool)
  {
  }
}
