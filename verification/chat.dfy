/** The conversation state of `ChatInterface.tsx`: the welcome message, the
    send pipeline (user message, emotion analysis, AI reply or apology), the
    camera-emotion message and the creative-content message, each as a
    transition on the message list and the flags. `Date.now()` values and
    `Math.random()` are parameters, and whether the awaited analysis or
    reply throws is the `SendOutcome` parameter. */
module Chat {
  import opened Wrappers
  import opened Text
  import Random
  import Auth
  import Gemini

  datatype Sender = FromUser | FromAi

  /** `Message`; the `Date` timestamp is kept as milliseconds. */
  datatype Message = Message(
    id: string,
    text: string,
    sender: Sender,
    timestamp: nat,
    emotion: Option<string>,
    language: Option<string>)

  /** The part of the component state the transitions read or write. The
      avatar customisation contributes only its language. */
  datatype ChatState = ChatState(
    messages: seq<Message>,
    inputText: string,
    isSpeaking: bool,
    currentEmotion: string,
    isLoading: bool,
    avatarLanguage: string)

  const Initial: ChatState := ChatState([], "", false, "neutral", false, "en")

  /** The two fixed texts of the component. */
  datatype Canned = WelcomeRest | Apology

  function CannedText(c: Canned): string {
    match c
    case WelcomeRest => "! I'm your AI companion. I'm here to listen, understand your feelings, and support you. How are you feeling today?"
    case Apology => "I'm sorry, I'm having trouble processing your message right now. Please try again."
  }

  // ---------------------------------------------------------------------
  // Welcome message
  // ---------------------------------------------------------------------

  /** `user?.isAnonymous ? 'friend' : user?.displayName || 'there'`; an empty
      display name is falsy in JavaScript and also gives 'there'. */
  function Greeting(user: Option<Auth.User>): (name: string)
    ensures user.Some? && user.value.isAnonymous ==> name == "friend"
    ensures user.Some? && !user.value.isAnonymous && user.value.displayName.GetOr("") != "" ==>
      name == user.value.displayName.value
    ensures user.None? || (!user.value.isAnonymous && user.value.displayName.GetOr("") == "") ==> name == "there"
  {
    match user
    case None => "there"
    case Some(u) =>
      if u.isAnonymous then "friend"
      else match u.displayName
        case Some(n) => if n != "" then n else "there"
        case None => "there"
  }

  /** The welcome effect: an empty list receives the welcome message, any
      other list is left alone. */
  function Welcome(s: ChatState, user: Option<Auth.User>, now: nat): (t: ChatState)
    ensures |s.messages| > 0 ==> t == s
    ensures |s.messages| == 0 ==>
      && t == s.(messages := t.messages)
      && |t.messages| == 1
      && t.messages[0].id == "1"
      && t.messages[0].sender == FromAi
      && t.messages[0].emotion == Some("happy")
      && |t.messages[0].text| >= 6 + |Greeting(user)|
      && t.messages[0].text[..6] == "Hello "
      && t.messages[0].text[6..6 + |Greeting(user)|] == Greeting(user)
  {
    if |s.messages| == 0 then
      var text := "Hello " + Greeting(user) + CannedText(WelcomeRest);
      assert text[6..6 + |Greeting(user)|] == Greeting(user);
      s.(messages := [Message("1", text, FromAi, now, Some("happy"), None)])
    else s
  }

  /** After a guest signs in the welcome addresses them as 'friend', after
      the demo Google sign-in by the demo display name, and before any
      sign-in as 'there'. */
  lemma GreetingFollowsAuth(auth: Auth.AuthState, now: nat)
    ensures Greeting(Auth.SignInAsGuest(auth, now).user) == "friend"
    ensures Greeting(Auth.SignInWithGoogle(auth, now).user) == Auth.DemoName
    ensures Greeting(Auth.Logout(auth).user) == "there"
  {
    assert Auth.DemoName != "";
  }

  // ---------------------------------------------------------------------
  // Sending a message
  // ---------------------------------------------------------------------

  /** What the awaited part of `handleSendMessage` produced: the analysed
      emotion and the reply, or the analysis threw, or the analysis gave an
      emotion and the reply generation threw. */
  datatype Exchange = Replied(emotion: string, reply: string) | AnalysisFailed | ReplyFailed(emotion: string)

  /** How the awaited calls end in a run: both complete (with
      `Math.random()` = `r` inside the reply generator), or one of them
      throws. */
  datatype SendOutcome = Completes(r: real) | AnalysisThrows | ResponseThrows

  predicate ValidOutcome(o: SendOutcome) {
    o.Completes? ==> Random.IsUnitSample(o.r)
  }

  /** The exchange the demo-mode generators produce for `input`: the
      classifier's emotion, then a reply generated for that emotion in the
      avatar language. */
  function DemoExchange(input: string, language: string, outcome: SendOutcome): (x: Exchange)
    requires ValidOutcome(outcome)
    ensures x.Replied? <==> outcome.Completes?
    ensures x.AnalysisFailed? <==> outcome.AnalysisThrows?
    ensures !x.AnalysisFailed? ==> x.emotion == Gemini.Classify(input).emotion && Gemini.IsClassifierLabel(x.emotion)
    ensures x.Replied? ==> x.reply == Gemini.GenerateResponse(input, x.emotion, language, outcome.r)
  {
    match outcome
    case AnalysisThrows => AnalysisFailed
    case ResponseThrows => ReplyFailed(Gemini.Classify(input).emotion)
    case Completes(r) =>
      var emotion := Gemini.Classify(input).emotion;
      Replied(emotion, Gemini.GenerateResponse(input, emotion, language, r))
  }

  /** The guard of `handleSendMessage`: a blank input or a request in flight
      does nothing. */
  predicate Accepts(s: ChatState)
    ensures Accepts(s) <==> !IsBlank(s.inputText) && !s.isLoading
  {
    TrimEmptyIff(s.inputText);
    Trim(s.inputText) != "" && !s.isLoading
  }

  /** The synchronous part of an accepted send: the untrimmed input becomes a
      user message, the input is cleared and loading starts. */
  function Submit(s: ChatState, now: nat): (t: ChatState)
    ensures |t.messages| == |s.messages| + 1
    ensures t.messages[..|s.messages|] == s.messages
    ensures var m := t.messages[|s.messages|];
      m.text == s.inputText && m.sender == FromUser && m.emotion.None? && m.language.None?
    ensures t.inputText == "" && t.isLoading
    ensures t.currentEmotion == s.currentEmotion && t.isSpeaking == s.isSpeaking
    ensures t.avatarLanguage == s.avatarLanguage
  {
    var m := Message(NatToString(now), s.inputText, FromUser, now, None, None);
    s.(messages := s.messages + [m], inputText := "", isLoading := true)
  }

  /** The awaited part: one AI message follows, the reply or the apology,
      and speaking and loading end. */
  function Deliver(s: ChatState, later: nat, x: Exchange): (t: ChatState)
    ensures |t.messages| == |s.messages| + 1
    ensures t.messages[..|s.messages|] == s.messages
    ensures t.messages[|s.messages|].sender == FromAi
    ensures !t.isLoading && !t.isSpeaking
    ensures t.inputText == s.inputText && t.avatarLanguage == s.avatarLanguage
    ensures match x
      case Replied(emotion, reply) =>
        && t.messages[|s.messages|].text == reply
        && t.messages[|s.messages|].emotion == Some(emotion)
        && t.messages[|s.messages|].language == Some(s.avatarLanguage)
        && t.currentEmotion == emotion
      case AnalysisFailed =>
        && t.messages[|s.messages|].text == CannedText(Apology)
        && t.messages[|s.messages|].emotion.None? && t.messages[|s.messages|].language.None?
        && t.currentEmotion == s.currentEmotion
      case ReplyFailed(emotion) =>
        && t.messages[|s.messages|].text == CannedText(Apology)
        && t.messages[|s.messages|].emotion.None? && t.messages[|s.messages|].language.None?
        && t.currentEmotion == emotion
  {
    var id := NatToString(later + 1);
    var apology := Message(id, CannedText(Apology), FromAi, later, None, None);
    match x
    case AnalysisFailed =>
      s.(messages := s.messages + [apology], isSpeaking := false, isLoading := false)
    case ReplyFailed(emotion) =>
      s.(messages := s.messages + [apology], currentEmotion := emotion, isSpeaking := false, isLoading := false)
    case Replied(emotion, reply) =>
      var m := Message(id, reply, FromAi, later, Some(emotion), Some(s.avatarLanguage));
      s.(messages := s.messages + [m], currentEmotion := emotion, isSpeaking := false, isLoading := false)
  }

  /** `handleSendMessage`: the user message is stamped `now`, the AI message
      `later`, and `x` is what the awaited calls produced. */
  function Send(s: ChatState, now: nat, later: nat, x: Exchange): (t: ChatState)
    ensures !Accepts(s) ==> t == s
    ensures Accepts(s) ==>
      && |t.messages| == |s.messages| + 2
      && t.messages[..|s.messages|] == s.messages
      && t.messages[|s.messages|].text == s.inputText
      && t.messages[|s.messages|].sender == FromUser
      && t.messages[|s.messages| + 1].sender == FromAi
      && t.inputText == ""
      && !t.isLoading
  {
    if !Accepts(s) then s
    else
      var u := Submit(s, now);
      var t := Deliver(u, later, x);
      assert t.messages[..|s.messages|] == t.messages[..|u.messages|][..|s.messages|];
      t
  }

  /** `handleSendMessage` with the demo-mode generators. */
  function SendMessage(s: ChatState, now: nat, later: nat, outcome: SendOutcome): (t: ChatState)
    requires ValidOutcome(outcome)
    ensures !Accepts(s) ==> t == s
    ensures Accepts(s) ==>
      && |t.messages| == |s.messages| + 2
      && t.messages[..|s.messages|] == s.messages
      && t.messages[|s.messages|].text == s.inputText
      && (t.messages[|s.messages| + 1].emotion.Some? <==> outcome.Completes?)
      && (outcome.Completes? ==>
            t.messages[|s.messages| + 1].emotion == Some(Gemini.Classify(s.inputText).emotion))
  {
    Send(s, now, later, DemoExchange(s.inputText, s.avatarLanguage, outcome))
  }

  /** A send changes the state exactly when the input is not blank and no
      request is in flight. */
  lemma SendIgnoredIffBlankOrBusy(s: ChatState, now: nat, later: nat, x: Exchange)
    ensures Send(s, now, later, x) == s <==> IsBlank(s.inputText) || s.isLoading
  {
    TrimEmptyIff(s.inputText);
    if Accepts(s) {
      assert |Send(s, now, later, x).messages| != |s.messages|;
    }
  }

  /** The AI message of an accepted send is the one `Deliver` builds. */
  lemma SendEndsWithDelivery(s: ChatState, now: nat, later: nat, x: Exchange)
    requires Accepts(s)
    ensures var u := Submit(s, now);
      Send(s, now, later, x) == Deliver(u, later, x) && |u.messages| == |s.messages| + 1
  {
  }

  /** A completed demo send tags the reply with one of the classifier's six
      labels, makes it the current emotion, and the reply begins with a
      template of the pool selected by that label and the avatar language. */
  lemma ReplyIsTaggedAndTemplated(s: ChatState, now: nat, later: nat, r: real)
    requires Random.IsUnitSample(r) && Accepts(s)
    ensures var t := SendMessage(s, now, later, Completes(r));
      var reply := t.messages[|s.messages| + 1];
      var emotion := Gemini.Classify(s.inputText).emotion;
      var template := Gemini.PickTemplate(Gemini.TemplatePool(s.avatarLanguage, emotion), r);
      && reply.emotion == Some(emotion)
      && reply.language == Some(s.avatarLanguage)
      && Gemini.IsClassifierLabel(emotion)
      && t.currentEmotion == emotion
      && |template| <= |reply.text| && reply.text[..|template|] == template
  {
    var x := DemoExchange(s.inputText, s.avatarLanguage, Completes(r));
    SendEndsWithDelivery(s, now, later, x);
    ReplyFollowsExchange(Submit(s, now), later, x);
  }

  /** The delivered message carries the reply and emotion of a completed exchange. */
  lemma ReplyFollowsExchange(u: ChatState, later: nat, x: Exchange)
    requires x.Replied?
    ensures var m := Deliver(u, later, x).messages[|u.messages|];
      m.text == x.reply && m.emotion == Some(x.emotion) && m.language == Some(u.avatarLanguage)
    ensures Deliver(u, later, x).currentEmotion == x.emotion
  {
  }

  /** Both failure paths append the apology without an emotion tag; the
      current emotion moves only when the analysis itself succeeded. */
  lemma FailureAppendsApology(s: ChatState, now: nat, later: nat, outcome: SendOutcome)
    requires !outcome.Completes? && Accepts(s)
    ensures var t := SendMessage(s, now, later, outcome);
      && t.messages[|s.messages| + 1].text == CannedText(Apology)
      && t.messages[|s.messages| + 1].emotion.None?
      && !t.isLoading && !t.isSpeaking
      && (t.currentEmotion == s.currentEmotion <== outcome.AnalysisThrows?)
      && (t.currentEmotion == Gemini.Classify(s.inputText).emotion <== outcome.ResponseThrows?)
  {
    var x := DemoExchange(s.inputText, s.avatarLanguage, outcome);
    SendEndsWithDelivery(s, now, later, x);
  }

  // ---------------------------------------------------------------------
  // Camera emotion and creative content
  // ---------------------------------------------------------------------

  /** Only a confidence strictly above this adds a message. */
  const CameraThreshold: real := 0.8

  /** `handleCameraEmotionDetected(emotion, confidence)`. */
  function CameraEmotion(s: ChatState, emotion: string, confidence: real, now: nat): (t: ChatState)
    ensures t.currentEmotion == emotion
    ensures |t.messages| == if confidence > CameraThreshold then |s.messages| + 1 else |s.messages|
    ensures t.messages[..|s.messages|] == s.messages
    ensures confidence > CameraThreshold ==>
      && t.messages[|s.messages|].sender == FromAi
      && t.messages[|s.messages|].emotion == Some(emotion)
      && t.messages[|s.messages|].language == Some(s.avatarLanguage)
    ensures t.inputText == s.inputText && t.isLoading == s.isLoading && t.isSpeaking == s.isSpeaking
  {
    var s' := s.(currentEmotion := emotion);
    if confidence > CameraThreshold then
      var text := "I can see you're feeling " + emotion + ". How can I support you right now?";
      s'.(messages := s.messages + [Message(NatToString(now), text, FromAi, now, Some(emotion), Some(s.avatarLanguage))])
    else s'
  }

  /** The threshold is strict: a confidence of exactly 0.8 adds no message. */
  lemma CameraThresholdIsStrict(s: ChatState, emotion: string, confidence: real, now: nat)
    requires confidence == 0.8
    ensures CameraEmotion(s, emotion, confidence, now).messages == s.messages
  {
    var t := CameraEmotion(s, emotion, confidence, now);
    assert t.messages == t.messages[..|s.messages|];
  }

  /** The header in front of generated creative content. */
  function CreativeHeader(contentType: Gemini.CreativeType): string {
    "Here's some " + contentType.Name() + " inspiration for you:\n\n"
  }

  /** `generateCreative(type)`, given what the awaited generator produced:
      `Some(content)` puts the content behind the header, tagged with the
      current emotion; `None` (the generator threw) adds nothing. Loading
      ends either way. */
  function AddCreative(s: ChatState, contentType: Gemini.CreativeType, now: nat, content: Option<string>): (t: ChatState)
    ensures !t.isLoading
    ensures |t.messages| == if content.None? then |s.messages| else |s.messages| + 1
    ensures t.messages[..|s.messages|] == s.messages
    ensures content.Some? ==>
      var m := t.messages[|s.messages|];
      && m.sender == FromAi
      && m.emotion == Some(s.currentEmotion)
      && m.language.None?
      && |CreativeHeader(contentType)| <= |m.text|
      && m.text[..|CreativeHeader(contentType)|] == CreativeHeader(contentType)
      && m.text[|CreativeHeader(contentType)|..] == content.value
    ensures t.currentEmotion == s.currentEmotion && t.inputText == s.inputText
  {
    match content
    case None => s.(isLoading := false)
    case Some(c) =>
      var text := CreativeHeader(contentType) + c;
      var m := Message(NatToString(now), text, FromAi, now, Some(s.currentEmotion), None);
      s.(messages := s.messages + [m], isLoading := false)
  }

  /** `generateCreative(type)` with the demo-mode generator, which is asked
      for content matching the current emotion. */
  function GenerateCreative(s: ChatState, contentType: Gemini.CreativeType, now: nat): (t: ChatState)
    ensures |t.messages| == |s.messages| + 1 && t.messages[..|s.messages|] == s.messages
    ensures t.messages[|s.messages|].sender == FromAi
    ensures t.messages[|s.messages|].emotion == Some(s.currentEmotion)
    ensures !t.isLoading
  {
    AddCreative(s, contentType, now, Some(Gemini.CreativeContent(s.currentEmotion, contentType)))
  }

  /** The demo creative message splits back into its header and the content
      the generator gives for the current emotion, so two states with the
      same current emotion receive the same text. */
  lemma CreativeMessageSplits(s: ChatState, contentType: Gemini.CreativeType, now: nat)
    ensures var text := GenerateCreative(s, contentType, now).messages[|s.messages|].text;
      var h := CreativeHeader(contentType);
      && |h| <= |text|
      && text[..|h|] == h
      && text[|h|..] == Gemini.CreativeContent(s.currentEmotion, contentType)
  {
  }

  /** The header names the content type; the three headers are distinct. */
  lemma CreativeHeadersDiffer(a: Gemini.CreativeType, b: Gemini.CreativeType)
    requires a != b
    ensures CreativeHeader(a) != CreativeHeader(b)
  {
    assert CreativeHeader(a)[12] != CreativeHeader(b)[12];
  }

  // ---------------------------------------------------------------------
  // Runs of the component
  // ---------------------------------------------------------------------

  /** The user-facing events that change the conversation. */
  datatype ChatEvent =
    | Typed(text: string)
    | Sent(now: nat, later: nat, exchange: Exchange)
    | CameraDetected(emotion: string, confidence: real, now: nat)
    | CreativeRequested(contentType: Gemini.CreativeType, now: nat, content: Option<string>)
    | WelcomeEffect(user: Option<Auth.User>, now: nat)

  function Step(s: ChatState, e: ChatEvent): ChatState {
    match e
    case Typed(text) => s.(inputText := text)
    case Sent(now, later, x) => Send(s, now, later, x)
    case CameraDetected(emotion, confidence, now) => CameraEmotion(s, emotion, confidence, now)
    case CreativeRequested(contentType, now, content) => AddCreative(s, contentType, now, content)
    case WelcomeEffect(user, now) => Welcome(s, user, now)
  }

  function Run(s: ChatState, events: seq<ChatEvent>): ChatState
    decreases |events|
  {
    if |events| == 0 then s else Run(Step(s, events[0]), events[1..])
  }

  /** Every message sent by the user has a non-blank text. */
  predicate UserMessagesNonBlank(messages: seq<Message>) {
    forall i :: 0 <= i < |messages| && messages[i].sender == FromUser ==> !IsBlank(messages[i].text)
  }

  /** Appending messages that are either AI messages or non-blank keeps the
      user messages non-blank. */
  lemma ExtensionKeepsNonBlank(before: seq<Message>, after: seq<Message>)
    requires |before| <= |after| && after[..|before|] == before
    requires UserMessagesNonBlank(before)
    requires forall i :: |before| <= i < |after| && after[i].sender == FromUser ==> !IsBlank(after[i].text)
    ensures UserMessagesNonBlank(after)
  {
    forall i | 0 <= i < |before|
      ensures after[i] == before[i]
    {
      assert after[i] == after[..|before|][i];
    }
  }

  /** A send adds a user message only for a non-blank input. */
  lemma SendKeepsUserMessagesNonBlank(s: ChatState, now: nat, later: nat, x: Exchange)
    requires UserMessagesNonBlank(s.messages)
    ensures UserMessagesNonBlank(Send(s, now, later, x).messages)
  {
    if Accepts(s) {
      var after := Send(s, now, later, x).messages;
      TrimEmptyIff(s.inputText);
      assert !IsBlank(after[|s.messages|].text);
      assert after[|s.messages| + 1].sender == FromAi;
      forall i | |s.messages| <= i < |after| && after[i].sender == FromUser
        ensures !IsBlank(after[i].text)
      {
        assert i == |s.messages|;
      }
      ExtensionKeepsNonBlank(s.messages, after);
    } else {
      assert Send(s, now, later, x) == s;
    }
  }

  lemma AiMessageAlone(m: Message)
    requires m.sender == FromAi
    ensures UserMessagesNonBlank([m])
  {
  }

  /** The welcome message is an AI message. */
  lemma WelcomeKeepsUserMessagesNonBlank(s: ChatState, user: Option<Auth.User>, now: nat)
    requires UserMessagesNonBlank(s.messages)
    ensures UserMessagesNonBlank(Welcome(s, user, now).messages)
  {
    var after := Welcome(s, user, now).messages;
    if |s.messages| == 0 {
      assert |after| == 1 && after[0].sender == FromAi;
      assert after == [after[0]];
      AiMessageAlone(after[0]);
    }
  }

  /** Each transition keeps the user messages non-blank: only a send adds a
      user message, and only for a non-blank input. */
  lemma StepKeepsUserMessagesNonBlank(s: ChatState, e: ChatEvent)
    requires UserMessagesNonBlank(s.messages)
    ensures UserMessagesNonBlank(Step(s, e).messages)
  {
    match e
    case Sent(now, later, x) =>
      SendKeepsUserMessagesNonBlank(s, now, later, x);
    case CameraDetected(emotion, confidence, now) =>
      ExtensionKeepsNonBlank(s.messages, CameraEmotion(s, emotion, confidence, now).messages);
    case CreativeRequested(contentType, now, content) =>
      ExtensionKeepsNonBlank(s.messages, AddCreative(s, contentType, now, content).messages);
    case Typed(text) =>
      assert Step(s, e).messages == s.messages;
    case WelcomeEffect(user, now) =>
      WelcomeKeepsUserMessagesNonBlank(s, user, now);
  }

  /** From any start whose user messages are non-blank, every run keeps them so. */
  lemma {:induction false} RunKeepsUserMessagesNonBlank(s: ChatState, events: seq<ChatEvent>)
    requires UserMessagesNonBlank(s.messages)
    ensures UserMessagesNonBlank(Run(s, events).messages)
    decreases |events|
  {
    if |events| > 0 {
      StepKeepsUserMessagesNonBlank(s, events[0]);
      RunKeepsUserMessagesNonBlank(Step(s, events[0]), events[1..]);
    }
  }
}
