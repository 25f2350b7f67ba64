/** The call logic of `VideoCallWithAI.tsx`: the `mm:ss` duration label,
    the scripted AI lines chosen by language and personality, the call
    statistics, the avatar emoji and the flags that starting and ending a
    call set. Media devices and timers are not modelled; each timer
    callback is a transition of its own, and `Math.random()` is a
    parameter. */
module VideoCall {
  import opened Wrappers
  import opened Text
  import Random
  import Seqs

  // ---------------------------------------------------------------------
  // Duration label
  // ---------------------------------------------------------------------

  /** `n.toString().padStart(2, '0')`: a single digit gets one leading zero. */
  function Pad2(n: nat): (r: string)
    ensures |r| >= 2
    ensures n < 100 ==> |r| == 2
    ensures forall i :: 0 <= i < |r| ==> IsDigit(r[i])
  {
    NatToStringLength(n);
    var digits := NatToString(n);
    if |digits| < 2 then "0" + digits else digits
  }

  /** `Pad2` is `padStart(2, '0')` applied to the numeral. */
  lemma Pad2IsPadStart(n: nat)
    ensures Pad2(n) == PadStart(NatToString(n), 2, '0')
  {
    var digits := NatToString(n);
    if |digits| < 2 {
      assert PadStart(digits, 2, '0') == PadStart("0" + digits, 2, '0');
    }
  }

  /** Whole minutes and the seconds left over. */
  lemma MinutesAndSeconds(seconds: nat)
    ensures seconds % 60 < 60
    ensures (seconds / 60) * 60 + seconds % 60 == seconds
    ensures seconds < 6000 ==> seconds / 60 < 100
  {
  }

  /** The label for `mins` whole minutes and `secs` seconds. */
  function Label(mins: nat, secs: nat): (r: string)
    requires secs < 60
    ensures |r| >= 5 && r[|r| - 3] == ':'
    ensures mins < 100 ==> |r| == 5 && r[2] == ':'
  {
    Pad2(mins) + ":" + Pad2(secs)
  }

  /** `formatDuration(seconds)`: whole minutes, a colon, the remaining
      seconds, each padded to two digits. The minutes are not truncated. */
  function FormatDuration(seconds: nat): (r: string)
    ensures |r| >= 5 && r[|r| - 3] == ':'
    ensures seconds < 6000 ==> |r| == 5 && r[2] == ':'
  {
    MinutesAndSeconds(seconds);
    Label(seconds / 60, seconds % 60)
  }

  /** A padded numeral reads back as the number. */
  lemma ParsePad2(n: nat)
    ensures ParseNat(Pad2(n)) == n
  {
    ParseNatToString(n);
    var s := NatToString(n);
    if |s| < 2 {
      assert Pad2(n) == "0" + s;
      ParseNatLeadingZero(s);
    }
  }

  predicate AllDigits(s: string) {
    forall i :: 0 <= i < |s| ==> IsDigit(s[i])
  }

  /** Reads a label back: digits, a colon, two digits, as a number of
      seconds; anything else is rejected. */
  function ParseLabel(r: string): (seconds: Option<nat>)
    ensures seconds.Some? ==> |r| >= 4 && r[|r| - 3] == ':'
  {
    if |r| < 4 || r[|r| - 3] != ':' then None
    else
      var mins := r[..|r| - 3];
      var secs := r[|r| - 2..];
      if AllDigits(mins) && AllDigits(secs) then Some(ParseNat(mins) * 60 + ParseNat(secs))
      else None
  }

  /** The label for minutes and seconds splits at its colon into the two
      padded numerals. */
  lemma LabelSplits(mins: nat, secs: nat)
    requires secs < 60
    ensures var r := Label(mins, secs);
      r[..|r| - 3] == Pad2(mins) && r[|r| - 2..] == Pad2(secs)
  {
    var r := Label(mins, secs);
    assert r == Pad2(mins) + ":" + Pad2(secs);
  }

  /** The label reads back as minutes times 60 plus seconds. */
  lemma LabelReadsBack(mins: nat, secs: nat)
    requires secs < 60
    ensures ParseLabel(Label(mins, secs)) == Some(mins * 60 + secs)
  {
    var r := Label(mins, secs);
    LabelSplits(mins, secs);
    assert AllDigits(Pad2(mins)) && AllDigits(Pad2(secs));
    ParsePad2(mins);
    ParsePad2(secs);
  }

  /** The label reads back as the duration, for every duration. */
  lemma FormatDurationReadsBack(seconds: nat)
    ensures ParseLabel(FormatDuration(seconds)) == Some(seconds)
  {
    MinutesAndSeconds(seconds);
    LabelReadsBack(seconds / 60, seconds % 60);
  }

  // ---------------------------------------------------------------------
  // Scripted AI lines
  // ---------------------------------------------------------------------

  /** The languages of the `aiResponses` table. */
  datatype CallLanguage = CallEn | CallEs | CallHi

  /** `aiResponses[userLanguage] || aiResponses.en`. */
  function CallLanguageOf(language: string): (l: CallLanguage)
    ensures l == CallEs <==> language == "es"
    ensures l == CallHi <==> language == "hi"
  {
    if language == "es" then CallEs else if language == "hi" then CallHi else CallEn
  }

  datatype Personality = Empathetic | Energetic | Calm | Wise

  function PersonalityOf(personality: string): (p: Option<Personality>)
    ensures p == Some(Empathetic) <==> personality == "empathetic"
    ensures p == Some(Energetic) <==> personality == "energetic"
    ensures p == Some(Calm) <==> personality == "calm"
    ensures p == Some(Wise) <==> personality == "wise"
  {
    if personality == "empathetic" then Some(Empathetic)
    else if personality == "energetic" then Some(Energetic)
    else if personality == "calm" then Some(Calm)
    else if personality == "wise" then Some(Wise)
    else None
  }

  /** Every list of the table has four lines. */
  datatype LinePool = LinePool(first: string, second: string, third: string, fourth: string) {
    const Size: nat := 4

    function At(i: nat): string
      requires i < Size
    {
      if i == 0 then first else if i == 1 then second else if i == 2 then third else fourth
    }

    predicate Contains(t: string) {
      t == first || t == second || t == third || t == fourth
    }
  }

  /** The lists the `aiResponses` table defines: all four personalities in
      en, only the empathetic one in es and hi. */
  datatype LineList = EnList(p: Personality) | EsEmpathetic | HiEmpathetic {
    function Language(): CallLanguage {
      match this
      case EnList(_) => CallEn
      case EsEmpathetic => CallEs
      case HiEmpathetic => CallHi
    }

    predicate IsEmpathetic() {
      this != EnList(Energetic) && this != EnList(Calm) && this != EnList(Wise)
    }
  }

  /** `aiResponses[language][personality]`, absent where the table has no entry. */
  function Table(l: CallLanguage, p: Personality): (r: Option<LineList>)
    ensures r.None? <==> l != CallEn && p != Empathetic
    ensures r.Some? ==> r.value.Language() == l
  {
    match l
    case CallEn => Some(EnList(p))
    case CallEs => if p == Empathetic then Some(EsEmpathetic) else None
    case CallHi => if p == Empathetic then Some(HiEmpathetic) else None
  }

  /** `responses[aiPersonality] || responses.empathetic` within one language. */
  function PoolFor(l: CallLanguage, personality: string): (list: LineList)
    ensures list.Language() == l
  {
    var entry := match PersonalityOf(personality)
      case Some(p) => Table(l, p)
      case None => None;
    match entry
    case Some(list) => list
    case None => Table(l, Empathetic).value
  }

  /** The list `simulateAIResponse` chooses from. */
  function ResponseList(language: string, personality: string): (list: LineList)
    ensures list.Language() == CallLanguageOf(language)
  {
    PoolFor(CallLanguageOf(language), personality)
  }

  /** An unknown language uses the en lines. An unknown personality, and in
      es and hi every personality, uses the empathetic lines of the language. */
  lemma ResponseListFallbacks(language: string, personality: string)
    ensures language != "es" && language != "hi" ==> ResponseList(language, personality).EnList?
    ensures PersonalityOf(personality).None? ==> ResponseList(language, personality).IsEmpathetic()
    ensures language == "es" ==> ResponseList(language, personality) == EsEmpathetic
    ensures language == "hi" ==> ResponseList(language, personality) == HiEmpathetic
  {
  }

  /** In en each known personality gets its own lines. */
  lemma EnglishFollowsPersonality(personality: string, p: Personality)
    requires PersonalityOf(personality) == Some(p)
    ensures PoolFor(CallEn, personality) == EnList(p)
  {
  }

  /** The texts of the lists. */
  function Lines(list: LineList): LinePool {
    match list
    case EnList(p) => EnLines(p)
    case EsEmpathetic => LinePool(
      "Puedo ver que te sientes reflexivo/a hoy. ¿Cómo ha sido tu día?",
      "Tu expresión me dice que podrías tener algo en mente. Estoy aquí para escuchar.",
      "Noto una energía gentil en ti. ¿De qué te gustaría hablar?",
      "Gracias por compartir este momento conmigo. ¿Cómo te sientes ahora?")
    case HiEmpathetic => LinePool(
      "मैं देख सकता हूं कि आप आज विचारशील महसूस कर रहे हैं। आपका दिन कैसा रहा?",
      "आपकी अभिव्यक्ति मुझे बताती है कि आपके मन में कुछ हो सकता है। मैं सुनने के लिए यहां हूं।",
      "मैं आपमें एक कोमल ऊर्जा देखता हूं। आप किस बारे में बात करना चाहेंगे?",
      "इस पल को मेरे साथ साझा करने के लिए धन्यवाद। आप अभी कैसा महसूस कर रहे हैं?")
  }

  function EnLines(p: Personality): LinePool {
    match p
    case Empathetic => LinePool(
      "I can see you're feeling thoughtful today. How has your day been treating you?",
      "Your expression tells me you might have something on your mind. I'm here to listen.",
      "I notice a gentle energy about you. What would you like to talk about?",
      "Thank you for sharing this moment with me. How are you feeling right now?")
    case Energetic => LinePool(
      "Hey there! I love the energy I'm seeing! What's got you excited today?",
      "You look ready to take on the world! Tell me what's inspiring you!",
      "I can feel your positive vibes through the screen! What's making you smile?",
      "Your enthusiasm is contagious! What amazing things are happening in your life?")
    case Calm => LinePool(
      "I sense a peaceful presence about you. Let's take a moment to breathe together.",
      "Your calm energy is beautiful. What brings you this sense of tranquility?",
      "I can see the serenity in your expression. How can we nurture this peaceful feeling?",
      "There's something wonderfully grounding about your presence. What's centering you today?")
    case Wise => LinePool(
      "I observe depth in your expression. What wisdom are you contemplating today?",
      "Your thoughtful demeanor suggests you're processing something meaningful. Care to share?",
      "I can see the reflection in your eyes. What insights have you gained recently?",
      "There's a contemplative quality about you. What questions are you exploring?")
  }

  /** `list[Math.floor(Math.random() * list.length)]`. */
  function PickLine(pool: LinePool, r: real): (t: string)
    requires Random.IsUnitSample(r)
    ensures pool.Contains(t)
  {
    pool.At(Random.PickIndex(r, pool.Size))
  }

  /** Every line of a list can be the one picked. */
  lemma EveryLineReachable(pool: LinePool, i: nat)
    requires i < pool.Size
    ensures exists r :: Random.IsUnitSample(r) && PickLine(pool, r) == pool.At(i)
  {
    Random.EveryIndexReachable(i, pool.Size);
    assert PickLine(pool, i as real / pool.Size as real) == pool.At(i);
  }

  // ---------------------------------------------------------------------
  // Call state
  // ---------------------------------------------------------------------

  datatype SupportLevel = Low | Medium | High

  datatype CallStats = CallStats(
    duration: nat,
    emotionsDetected: seq<string>,
    supportLevel: SupportLevel,
    aiResponseCount: nat)

  datatype CallState = CallState(
    isCallActive: bool,
    isVideoEnabled: bool,
    isAudioEnabled: bool,
    isAISpeaking: bool,
    isListening: bool,
    currentEmotion: string,
    aiMessage: string,
    stats: CallStats)

  const InitialStats: CallStats := CallStats(0, [], Medium, 0)
  const Initial: CallState := CallState(false, true, true, false, false, "neutral", "", InitialStats)

  /** `startCall` after the media request: the call becomes active when the
      camera and microphone are granted; a refusal changes nothing. */
  function StartCall(s: CallState, granted: bool): (t: CallState)
    ensures t.isCallActive == (s.isCallActive || granted)
    ensures t.stats == s.stats
  {
    if granted then s.(isCallActive := true) else s
  }

  /** One tick of the call timer. */
  function Tick(s: CallState): (t: CallState)
    ensures t.stats.duration == s.stats.duration + 1
    ensures t.stats.(duration := s.stats.duration) == s.stats
    ensures t.(stats := s.stats) == s
  {
    s.(stats := s.stats.(duration := s.stats.duration + 1))
  }

  /** The state change of `simulateAIResponse` once `line` is chosen: the
      line is spoken and counted. */
  function Respond(s: CallState, line: string): (t: CallState)
    ensures t.aiMessage == line && t.isAISpeaking
    ensures t.stats.aiResponseCount == s.stats.aiResponseCount + 1
    ensures t.stats.(aiResponseCount := s.stats.aiResponseCount) == s.stats
    ensures t.isCallActive == s.isCallActive && t.isListening == s.isListening
    ensures t.currentEmotion == s.currentEmotion
  {
    s.(aiMessage := line, isAISpeaking := true,
       stats := s.stats.(aiResponseCount := s.stats.aiResponseCount + 1))
  }

  /** `simulateAIResponse()` with `Math.random()` = `r`: the spoken line is
      one of the selected list. */
  function SimulateResponse(s: CallState, language: string, personality: string, r: real): (t: CallState)
    requires Random.IsUnitSample(r)
    ensures Lines(ResponseList(language, personality)).Contains(t.aiMessage)
  {
    Respond(s, PickLine(Lines(ResponseList(language, personality)), r))
  }

  /** The speaking timeout: the AI stops speaking and listens. */
  function FinishSpeaking(s: CallState): (t: CallState)
    ensures !t.isAISpeaking && t.isListening
    ensures t.stats == s.stats
  {
    s.(isAISpeaking := false, isListening := true)
  }

  /** The listening timeout. */
  function StopListening(s: CallState): (t: CallState)
    ensures !t.isListening
    ensures t.stats == s.stats && t.isAISpeaking == s.isAISpeaking
  {
    s.(isListening := false)
  }

  /** `[...new Set([...prev, emotion])]`: the emotion is added once, at the
      end, if it was not seen before. */
  function AddEmotion(seen: seq<string>, emotion: string): (r: seq<string>)
    ensures Seqs.NoDuplicates(r)
    ensures emotion in r
    ensures forall i :: 0 <= i < |seen| ==> seen[i] in r
    ensures forall i :: 0 <= i < |r| ==> r[i] in seen || r[i] == emotion
  {
    var all := seen + [emotion];
    assert all[|seen|] == emotion;
    assert forall i :: 0 <= i < |seen| ==> seen[i] == all[i];
    Seqs.Dedup(all)
  }

  /** On a list without duplicates, adding an emotion appends it when it is
      new and changes nothing otherwise, so first-seen order is kept. */
  lemma AddEmotionAppendsNew(seen: seq<string>, emotion: string)
    requires Seqs.NoDuplicates(seen)
    ensures AddEmotion(seen, emotion) == if emotion in seen then seen else seen + [emotion]
  {
    var all := seen + [emotion];
    assert all[..|all| - 1] == seen;
    Seqs.DedupOfDistinct(seen);
  }

  /** The six emotions the simulated detector reports. */
  const DetectableEmotions: seq<string> := ["happy", "calm", "thoughtful", "excited", "peaceful", "curious"]

  /** One run of `detectEmotion`, given the value of `isCallActive` the
      callback sees and `Math.random()` = `r`. */
  function DetectEmotion(s: CallState, activeSeen: bool, r: real): (t: CallState)
    requires Random.IsUnitSample(r)
    ensures !activeSeen ==> t == s
    ensures activeSeen ==>
      && t.currentEmotion in DetectableEmotions
      && t.stats.emotionsDetected == AddEmotion(s.stats.emotionsDetected, t.currentEmotion)
      && t.stats.(emotionsDetected := s.stats.emotionsDetected) == s.stats
  {
    if !activeSeen then s
    else
      var e := DetectableEmotions[Random.PickIndex(r, |DetectableEmotions|)];
      s.(currentEmotion := e, stats := s.stats.(emotionsDetected := AddEmotion(s.stats.emotionsDetected, e)))
  }

  /** The loop as written: `startCall` schedules `detectEmotion` from the
      render in which the call was not yet active, and the callback keeps
      reading that captured flag, so detection never records anything. */
  function DetectEmotionAsWritten(s: CallState, startedFrom: CallState, r: real): (t: CallState)
    requires Random.IsUnitSample(r)
  {
    DetectEmotion(s, startedFrom.isCallActive, r)
  }

  /** From an idle component, starting the call and then any number of
      detector runs leaves the detected emotions empty. */
  lemma {:induction false} DetectionNeverFiresAsWritten(idle: CallState, rs: seq<real>)
    requires !idle.isCallActive
    requires forall i :: 0 <= i < |rs| ==> Random.IsUnitSample(rs[i])
    ensures var started := StartCall(idle, true);
      DetectAllAsWritten(started, idle, rs) == started
    decreases |rs|
  {
    if |rs| > 0 {
      var started := StartCall(idle, true);
      assert DetectEmotionAsWritten(started, idle, rs[0]) == started;
      DetectionNeverFiresAsWritten(idle, rs[1..]);
    }
  }

  function DetectAllAsWritten(s: CallState, startedFrom: CallState, rs: seq<real>): CallState
    requires forall i :: 0 <= i < |rs| ==> Random.IsUnitSample(rs[i])
    decreases |rs|
  {
    if |rs| == 0 then s else DetectAllAsWritten(DetectEmotionAsWritten(s, startedFrom, rs[0]), startedFrom, rs[1..])
  }

  /** The evidently intended loop reads the current flag: during an active
      call every run records an emotion. */
  function DetectEmotionCurrent(s: CallState, r: real): (t: CallState)
    requires Random.IsUnitSample(r)
    ensures s.isCallActive ==> t.currentEmotion in t.stats.emotionsDetected && |t.stats.emotionsDetected| > 0
    ensures Seqs.NoDuplicates(s.stats.emotionsDetected) ==> Seqs.NoDuplicates(t.stats.emotionsDetected)
  {
    DetectEmotion(s, s.isCallActive, r)
  }

  /** `getAIEmoji`: speaking beats listening, which beats the personality. */
  function AIEmoji(speaking: bool, listening: bool, personality: string): (e: string)
    ensures speaking ==> e == "🗣️"
    ensures !speaking && listening ==> e == "👂"
    ensures !speaking && !listening ==>
      e == match PersonalityOf(personality)
        case Some(Energetic) => "⚡"
        case Some(Calm) => "🧘"
        case Some(Wise) => "🦉"
        case _ => "😊"
  {
    if speaking then "🗣️"
    else if listening then "👂"
    else if personality == "energetic" then "⚡"
    else if personality == "calm" then "🧘"
    else if personality == "wise" then "🦉"
    else "😊"
  }

  /** `getAIAvatarStyle`: the gradient for the personality, blue by default. */
  function AvatarStyle(personality: string): (g: string)
    ensures g == match PersonalityOf(personality)
      case Some(Energetic) => "from-orange-400 to-red-500"
      case Some(Calm) => "from-green-400 to-green-600"
      case Some(Wise) => "from-purple-400 to-purple-600"
      case _ => "from-blue-400 to-blue-600"
  {
    if personality == "energetic" then "from-orange-400 to-red-500"
    else if personality == "calm" then "from-green-400 to-green-600"
    else if personality == "wise" then "from-purple-400 to-purple-600"
    else "from-blue-400 to-blue-600"
  }

  /** The badge's gradient and its idle emoji pick the same personalities:
      the avatar is blue exactly when it shows the default smile. */
  lemma DefaultStyleIffDefaultEmoji(personality: string)
    ensures AvatarStyle(personality) == "from-blue-400 to-blue-600" <==> AIEmoji(false, false, personality) == "😊"
  {
  }

  /** `endCall`: the call, speaking and listening all stop; the statistics
      are kept for the summary. */
  function EndCall(s: CallState): (t: CallState)
    ensures !t.isCallActive && !t.isAISpeaking && !t.isListening
    ensures t.stats == s.stats && t.currentEmotion == s.currentEmotion
  {
    s.(isCallActive := false, isAISpeaking := false, isListening := false)
  }

  // ---------------------------------------------------------------------
  // Runs of a call
  // ---------------------------------------------------------------------

  datatype CallEvent =
    | Started(granted: bool)
    | Ticked
    | Responded(line: string)
    | SpeakingDone
    | ListeningDone
    | Detected(r: real)
    | Ended

  predicate ValidEvent(e: CallEvent) {
    e.Detected? ==> Random.IsUnitSample(e.r)
  }

  predicate IsTick(e: CallEvent) { e.Ticked? }
  predicate IsResponse(e: CallEvent) { e.Responded? }

  /** A call driven by the evidently intended detector. */
  function Step(s: CallState, e: CallEvent): CallState
    requires ValidEvent(e)
  {
    match e
    case Started(granted) => StartCall(s, granted)
    case Ticked => Tick(s)
    case Responded(line) => Respond(s, line)
    case SpeakingDone => FinishSpeaking(s)
    case ListeningDone => StopListening(s)
    case Detected(r) => DetectEmotionCurrent(s, r)
    case Ended => EndCall(s)
  }

  function Run(s: CallState, events: seq<CallEvent>): CallState
    requires forall i :: 0 <= i < |events| ==> ValidEvent(events[i])
    decreases |events|
  {
    if |events| == 0 then s else Run(Step(s, events[0]), events[1..])
  }

  /** One event adds one to the duration exactly when it is a tick and one
      to the response count exactly when it is a response, and keeps the
      detected emotions free of duplicates. */
  lemma StepCounts(s: CallState, e: CallEvent)
    requires ValidEvent(e)
    requires Seqs.NoDuplicates(s.stats.emotionsDetected)
    ensures Step(s, e).stats.duration == s.stats.duration + (if IsTick(e) then 1 else 0)
    ensures Step(s, e).stats.aiResponseCount == s.stats.aiResponseCount + (if IsResponse(e) then 1 else 0)
    ensures Seqs.NoDuplicates(Step(s, e).stats.emotionsDetected)
  {
  }

  /** The duration counts the ticks, the response count the responses, and
      the detected emotions stay free of duplicates. */
  lemma {:induction false} RunCounts(s: CallState, events: seq<CallEvent>)
    requires forall i :: 0 <= i < |events| ==> ValidEvent(events[i])
    requires Seqs.NoDuplicates(s.stats.emotionsDetected)
    ensures Run(s, events).stats.duration == s.stats.duration + Seqs.Count(events, IsTick)
    ensures Run(s, events).stats.aiResponseCount == s.stats.aiResponseCount + Seqs.Count(events, IsResponse)
    ensures Seqs.NoDuplicates(Run(s, events).stats.emotionsDetected)
    decreases |events|
  {
    if |events| > 0 {
      var e := events[0];
      var rest := events[1..];
      assert events == [e] + rest;
      Seqs.FilterPrepend(e, rest, IsTick);
      Seqs.FilterPrepend(e, rest, IsResponse);
      StepCounts(s, e);
      RunCounts(Step(s, e), rest);
    }
  }
}
