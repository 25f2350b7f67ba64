/** The companion avatar of `CustomizableAvatar.tsx`: four styles, the
    language picker with its fallback to the first entry, the emotion
    filter, the status line, and the customisation panel whose controls each
    change one field of the customisation. */
module CustomizableAvatar {
  import opened Wrappers
  import Seqs
  import Gemini

  /** The keys of `avatarStyles`, each with its gradient, personality line and emoji. */
  datatype AvatarStyle = Friendly | Professional | Playful | Wise {
    function Key(): string {
      match this
      case Friendly => "friendly"
      case Professional => "professional"
      case Playful => "playful"
      case Wise => "wise"
    }

    function Gradient(): string {
      match this
      case Friendly => "from-blue-400 to-blue-600"
      case Professional => "from-gray-500 to-gray-700"
      case Playful => "from-pink-400 to-purple-600"
      case Wise => "from-green-500 to-teal-600"
    }

    function Personality(): string {
      match this
      case Friendly => "Warm and approachable"
      case Professional => "Calm and reliable"
      case Playful => "Fun and energetic"
      case Wise => "Thoughtful and insightful"
    }

    function Emoji(): string {
      match this
      case Friendly => "😊"
      case Professional => "🤝"
      case Playful => "🎉"
      case Wise => "🧠"
    }
  }

  /** `avatarStyles[key]`: defined exactly for the four style keys. */
  function StyleOfKey(key: string): (r: Option<AvatarStyle>)
    ensures r.Some? ==> r.value.Key() == key
  {
    match key
    case "friendly" => Some(Friendly)
    case "professional" => Some(Professional)
    case "playful" => Some(Playful)
    case "wise" => Some(Wise)
    case _ => None
  }

  /** Every style the customisation type admits is a key of the table, so
      `avatarStyles[customization.style]` is never undefined. */
  lemma StyleLookupIsTotal(s: AvatarStyle)
    ensures StyleOfKey(s.Key()) == Some(s)
  {
  }

  datatype Voice = Male | Female | Neutral

  datatype Personality = Empathetic | Energetic | Calm | WisePersonality {
    function Key(): string {
      match this
      case Empathetic => "empathetic"
      case Energetic => "energetic"
      case Calm => "calm"
      case WisePersonality => "wise"
    }

    /** The button label, `p.charAt(0).toUpperCase() + p.slice(1)`. */
    function Label(): string {
      match this
      case Empathetic => "Empathetic"
      case Energetic => "Energetic"
      case Calm => "Calm"
      case WisePersonality => "Wise"
    }
  }

  /** ASCII upper-casing of one lower-case letter. */
  function Upper(c: char): char {
    if 'a' <= c <= 'z' then (c as int - 32) as char else c
  }

  /** Each personality button shows its key with the first letter capitalised. */
  lemma LabelCapitalisesKey(p: Personality)
    ensures |p.Label()| == |p.Key()| > 0
    ensures p.Label()[0] == Upper(p.Key()[0])
    ensures p.Label()[1..] == p.Key()[1..]
  {
  }

  /** `AvatarCustomization`. */
  datatype Customization = Customization(
    style: AvatarStyle,
    color: string,
    language: string,
    voice: Voice,
    personality: Personality)

  /** The entries of the picker's `languages`: code, native name and flag. */
  datatype Language = En | Hi | Bn | Te | Mr | Ta | Gu | Kn | Ml | Pa | Or | As | Ur | Sa | Ne | Si | My | Th | Es | Fr | De | It | Pt | Ru | Ja | Ko | Zh | Ar {
    function Code(): string {
      match this
      case En => "en"
      case Hi => "hi"
      case Bn => "bn"
      case Te => "te"
      case Mr => "mr"
      case Ta => "ta"
      case Gu => "gu"
      case Kn => "kn"
      case Ml => "ml"
      case Pa => "pa"
      case Or => "or"
      case As => "as"
      case Ur => "ur"
      case Sa => "sa"
      case Ne => "ne"
      case Si => "si"
      case My => "my"
      case Th => "th"
      case Es => "es"
      case Fr => "fr"
      case De => "de"
      case It => "it"
      case Pt => "pt"
      case Ru => "ru"
      case Ja => "ja"
      case Ko => "ko"
      case Zh => "zh"
      case Ar => "ar"
    }

    function Name(): string {
      match this
      case En => "English"
      case Hi => "हिन्दी (Hindi)"
      case Bn => "বাংলা (Bengali)"
      case Te => "తెలుగు (Telugu)"
      case Mr => "मराठी (Marathi)"
      case Ta => "தமிழ் (Tamil)"
      case Gu => "ગુજરાતી (Gujarati)"
      case Kn => "ಕನ್ನಡ (Kannada)"
      case Ml => "മലയാളം (Malayalam)"
      case Pa => "ਪੰਜਾਬੀ (Punjabi)"
      case Or => "ଓଡ଼ିଆ (Odia)"
      case As => "অসমীয়া (Assamese)"
      case Ur => "اردو (Urdu)"
      case Sa => "संस्कृत (Sanskrit)"
      case Ne => "नेपाली (Nepali)"
      case Si => "සිංහල (Sinhala)"
      case My => "မြန်မာ (Myanmar)"
      case Th => "ไทย (Thai)"
      case Es => "Español"
      case Fr => "Français"
      case De => "Deutsch"
      case It => "Italiano"
      case Pt => "Português"
      case Ru => "Русский"
      case Ja => "日本語"
      case Ko => "한국어"
      case Zh => "中文"
      case Ar => "العربية"
    }

    function Flag(): string {
      match this
      case En => "🇺🇸"
      case Hi => "🇮🇳"
      case Bn => "🇮🇳"
      case Te => "🇮🇳"
      case Mr => "🇮🇳"
      case Ta => "🇮🇳"
      case Gu => "🇮🇳"
      case Kn => "🇮🇳"
      case Ml => "🇮🇳"
      case Pa => "🇮🇳"
      case Or => "🇮🇳"
      case As => "🇮🇳"
      case Ur => "🇮🇳"
      case Sa => "🇮🇳"
      case Ne => "🇳🇵"
      case Si => "🇱🇰"
      case My => "🇲🇲"
      case Th => "🇹🇭"
      case Es => "🇪🇸"
      case Fr => "🇫🇷"
      case De => "🇩🇪"
      case It => "🇮🇹"
      case Pt => "🇧🇷"
      case Ru => "🇷🇺"
      case Ja => "🇯🇵"
      case Ko => "🇰🇷"
      case Zh => "🇨🇳"
      case Ar => "🇸🇦"
    }
  }

  /** `languages`, in picker order. */
  function Languages(): seq<Language> {
    [ En, Hi, Bn, Te, Mr, Ta, Gu,
      Kn, Ml, Pa, Or, As, Ur, Sa,
      Ne, Si, My, Th, Es, Fr, De,
      It, Pt, Ru, Ja, Ko, Zh, Ar ]
  }

  /** An entry's place in the picker. */
  function Position(l: Language): (i: nat)
    ensures i < |Languages()| && Languages()[i] == l
  {
    match l
    case En => 0
    case Hi => 1
    case Bn => 2
    case Te => 3
    case Mr => 4
    case Ta => 5
    case Gu => 6
    case Kn => 7
    case Ml => 8
    case Pa => 9
    case Or => 10
    case As => 11
    case Ur => 12
    case Sa => 13
    case Ne => 14
    case Si => 15
    case My => 16
    case Th => 17
    case Es => 18
    case Fr => 19
    case De => 20
    case It => 21
    case Pt => 22
    case Ru => 23
    case Ja => 24
    case Ko => 25
    case Zh => 26
    case Ar => 27
  }

  /** The picker offers exactly the reply engine's languages: each entry sits
      at the same place in both lists, with the same code and name. */
  lemma PickerMatchesSupportedLanguages(l: Language)
    ensures |Languages()| == |Gemini.SupportedLanguages|
    ensures Gemini.SupportedLanguages[Position(l)] == (l.Code(), l.Name())
  {
  }

  /** The entry a two-letter code names, read letter by letter. */
  function LanguageOfCode(code: string): Option<Language> {
    if |code| != 2 then None else LanguageOfLetters(code[0], code[1])
  }

  function LanguageOfLetters(c0: char, c1: char): Option<Language> {
    match c0
    case 'e' => if c1 == 'n' then Some(En) else if c1 == 's' then Some(Es) else None
    case 'h' => if c1 == 'i' then Some(Hi) else None
    case 'b' => if c1 == 'n' then Some(Bn) else None
    case 't' => if c1 == 'e' then Some(Te) else if c1 == 'a' then Some(Ta) else if c1 == 'h' then Some(Th) else None
    case 'm' => if c1 == 'r' then Some(Mr) else if c1 == 'l' then Some(Ml) else if c1 == 'y' then Some(My) else None
    case 'g' => if c1 == 'u' then Some(Gu) else None
    case 'k' => if c1 == 'n' then Some(Kn) else if c1 == 'o' then Some(Ko) else None
    case 'p' => if c1 == 'a' then Some(Pa) else if c1 == 't' then Some(Pt) else None
    case 'o' => if c1 == 'r' then Some(Or) else None
    case 'a' => if c1 == 's' then Some(As) else if c1 == 'r' then Some(Ar) else None
    case 'u' => if c1 == 'r' then Some(Ur) else None
    case 's' => if c1 == 'a' then Some(Sa) else if c1 == 'i' then Some(Si) else None
    case 'n' => if c1 == 'e' then Some(Ne) else None
    case 'f' => if c1 == 'r' then Some(Fr) else None
    case 'd' => if c1 == 'e' then Some(De) else None
    case 'i' => if c1 == 't' then Some(It) else None
    case 'r' => if c1 == 'u' then Some(Ru) else None
    case 'j' => if c1 == 'a' then Some(Ja) else None
    case 'z' => if c1 == 'h' then Some(Zh) else None
    case _ => None
  }

  /** Every entry's code names that entry, so no two entries share a code. */
  lemma CodeReadsBack(l: Language)
    ensures LanguageOfCode(l.Code()) == Some(l)
  {
  }

  /** `languages.find(lang => lang.code === code) || languages[0]`: the entry
      with that code, or English when there is none. */
  function CurrentLanguage(code: string): (r: Language)
    ensures r.Code() == code || r == Languages()[0]
    ensures (forall l: Language :: l.Code() != code) ==> r == Languages()[0]
  {
    var found := Seqs.Find(Languages(), (l: Language) => l.Code() == code);
    if found.Some? then found.value else Languages()[0]
  }

  /** Every entry's code is found in the picker. */
  lemma CodeIsFound(l: Language)
    ensures Seqs.Find(Languages(), (k: Language) => k.Code() == l.Code()).Some?
  {
    var i := Position(l);
    assert Languages()[i].Code() == l.Code();
  }

  /** A code from the picker shows its own entry; any other code shows English. */
  lemma PickedLanguageIsShown(l: Language, code: string)
    ensures CurrentLanguage(l.Code()) == l
    ensures LanguageOfCode(code).None? ==> CurrentLanguage(code) == En
  {
    CodeIsFound(l);
    var r := CurrentLanguage(l.Code());
    CodeReadsBack(l);
    CodeReadsBack(r);
    if LanguageOfCode(code).None? {
      forall k: Language ensures k.Code() != code {
        CodeReadsBack(k);
      }
    }
  }

  /** `getEmotionModifier`: a filter for six emotions, none otherwise. */
  function EmotionModifier(emotion: string): (m: string)
    ensures emotion == "happy" ==> m == "brightness-110 saturate-110"
    ensures emotion == "sad" ==> m == "brightness-75 saturate-75"
    ensures emotion == "angry" ==> m == "hue-rotate-15 saturate-150"
    ensures emotion == "anxious" ==> m == "brightness-90 contrast-110"
    ensures emotion == "excited" ==> m == "brightness-125 saturate-125 hue-rotate-15"
    ensures emotion == "calm" ==> m == "brightness-105 saturate-90"
    ensures m == "" <==> emotion !in {"happy", "sad", "angry", "anxious", "excited", "calm"}
  {
    match emotion
    case "happy" => "brightness-110 saturate-110"
    case "sad" => "brightness-75 saturate-75"
    case "angry" => "hue-rotate-15 saturate-150"
    case "anxious" => "brightness-90 contrast-110"
    case "excited" => "brightness-125 saturate-125 hue-rotate-15"
    case "calm" => "brightness-105 saturate-90"
    case _ => ""
  }

  /** Every emotion the classifier can return gets a filter except neutral. */
  lemma ClassifierEmotionsHaveFilters(emotion: string)
    requires emotion in {"happy", "sad", "angry", "anxious", "calm", "neutral"}
    ensures EmotionModifier(emotion) == "" <==> emotion == "neutral"
  {
  }

  /** The status line under the avatar: speaking wins over listening. */
  function StatusText(isSpeaking: bool, isListening: bool): (t: string)
    ensures t == "Speaking..." <==> isSpeaking
    ensures t == "Listening..." <==> !isSpeaking && isListening
    ensures t == "Ready" <==> !isSpeaking && !isListening
  {
    if isSpeaking then "Speaking..." else if isListening then "Listening..." else "Ready"
  }

  /** The length of one animation cycle, in seconds, by personality. */
  function CycleSeconds(p: Personality): (d: real)
    ensures p == Energetic ==> d == 0.3
    ensures p == Calm ==> d == 2.0
    ensures p != Energetic && p != Calm ==> d == 1.0
  {
    if p == Energetic then 0.3 else if p == Calm then 2.0 else 1.0
  }

  /** The panel's controls. */
  datatype Control =
    | StyleButton(style: AvatarStyle)
    | LanguageSelect(code: string)
    | PersonalityButton(personality: Personality)

  /** `onCustomizationChange({ ...customization, field: value })`. */
  function Change(c: Customization, control: Control): (d: Customization)
    ensures control.StyleButton? ==> d == c.(style := control.style)
    ensures control.LanguageSelect? ==> d == c.(language := control.code)
    ensures control.PersonalityButton? ==> d == c.(personality := control.personality)
  {
    match control
    case StyleButton(s) => c.(style := s)
    case LanguageSelect(code) => c.(language := code)
    case PersonalityButton(p) => c.(personality := p)
  }

  /** Each control sets its own field and no other: colour and voice are
      never changed by the panel, and the changed field holds the chosen value. */
  lemma ChangeTouchesOneField(c: Customization, control: Control)
    ensures Change(c, control).color == c.color && Change(c, control).voice == c.voice
    ensures Change(c, control).style == (if control.StyleButton? then control.style else c.style)
    ensures Change(c, control).language == (if control.LanguageSelect? then control.code else c.language)
    ensures Change(c, control).personality ==
      (if control.PersonalityButton? then control.personality else c.personality)
  {
  }

  /** Choosing an entry from the language picker shows that entry. */
  lemma LanguageChoiceIsShown(c: Customization, l: Language)
    ensures CurrentLanguage(Change(c, LanguageSelect(l.Code())).language) == l
  {
    PickedLanguageIsShown(l, l.Code());
  }

  /** The component's own state: the panel and the voice switch. */
  datatype PanelState = PanelState(showCustomization: bool, isVoiceEnabled: bool)

  const InitialPanel: PanelState := PanelState(false, true)

  datatype PanelEvent = SettingsClicked | VoiceClicked | ApplyClicked

  function PanelStep(s: PanelState, e: PanelEvent): (u: PanelState)
    ensures e == SettingsClicked ==> u == s.(showCustomization := !s.showCustomization)
    ensures e == VoiceClicked ==> u == s.(isVoiceEnabled := !s.isVoiceEnabled)
    ensures e == ApplyClicked ==> u == s.(showCustomization := false)
  {
    match e
    case SettingsClicked => s.(showCustomization := !s.showCustomization)
    case VoiceClicked => s.(isVoiceEnabled := !s.isVoiceEnabled)
    case ApplyClicked => s.(showCustomization := false)
  }

  /** The speaker badge on the face: shown while speaking with voice on. */
  predicate ShowsVoiceIndicator(s: PanelState, isSpeaking: bool) {
    isSpeaking && s.isVoiceEnabled
  }

  /** Muting hides the speaker badge and unmuting restores it. */
  lemma VoiceToggleControlsIndicator(s: PanelState, isSpeaking: bool)
    ensures ShowsVoiceIndicator(PanelStep(s, VoiceClicked), isSpeaking) <==>
      isSpeaking && !ShowsVoiceIndicator(s, isSpeaking)
    ensures PanelStep(PanelStep(s, VoiceClicked), VoiceClicked) == s
  {
  }
}
