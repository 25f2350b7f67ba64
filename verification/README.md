# mindful-connect, modelled in Dafny

mindful-connect is a Next.js wellness app. It has an AI companion chat, a video call with an AI avatar, mood-driven content generators, an avatar editor and gallery, a shared "virtual world", and an emergency panel listing Indian helplines. Behind all of them sits `src/lib/gemini.ts`. In demo mode, that file answers with a keyword emotion classifier, localized template replies and a creative-content table instead of calling a model.

This project models:

- the demo engine of `gemini.ts`;
- the state logic of eleven React components and the auth context.

Each source file becomes one Dafny module, and each component's `useState` variables become a record. Its event handlers become pure functions from state to state. An event datatype with `Step` and `Run` lets lemmas speak about any sequence of user actions.

| module | file | source |
|---|---|---|
| `Gemini` | `gemini.dfy` | `src/lib/gemini.ts` (demo mode) |
| `Auth` | `auth.dfy` | `src/contexts/AuthContext.tsx` (demo mode) |
| `Chat` | `chat.dfy` | `src/components/chat/ChatInterface.tsx` |
| `VideoCall` | `video_call.dfy` | `src/components/video/VideoCallWithAI.tsx` |
| `MoodContent` | `mood_content.dfy` | `src/components/content/MoodContentGenerator.tsx` |
| `Multimedia` | `multimedia.dfy` | `src/components/multimedia/MultimediaGenerator.tsx` |
| `AvatarCreator` | `avatar_creator.dfy` | `src/components/avatar/AvatarCreator.tsx` |
| `AvatarGallery` | `avatar_gallery.dfy` | `src/components/avatar/AvatarGallery.tsx` |
| `CustomizableAvatar` | `customizable_avatar.dfy` | `src/components/avatar/CustomizableAvatar.tsx` |
| `VirtualWorld` | `virtual_world.dfy` | `src/components/virtual/VirtualWorld.tsx` |
| `Emergency` | `emergency.dfy` | `src/components/emergency/EmergencyPanel.tsx` |
| `Landing` | `landing.dfy` | `src/components/landing/LandingPage.tsx` |

Four helper modules support them:

- `Wrappers` provides `Option` and `Result`.
- `Seqs` models `Array.prototype.filter`, filter counts and `[...new Set(xs)]`.
- `Text` models ASCII `toLowerCase`, `includes`, `split`, ECMAScript `trim`, decimal rendering and parsing, and `padStart`.
- `Random` models `Math.floor(Math.random() * n)`.

Some inputs come from outside the program:

- `Math.random()` becomes a parameter `r` of type `real` with `0 <= r < 1`.
- `Date.now()` becomes a parameter `now: nat`.
- Awaited calls into the engine become parameters or are composed explicitly.
- Timers and media devices are not modelled. A timer callback is a separate event the caller may or may not deliver.

JavaScript object lookups with a fallback (`table[key] || default`) become map look-ups with an explicit default. Each lookup is paired with a lemma saying when the fallback is taken.

## Model

| member | source | states |
|---|---|---|
| Gemini.SuggestionsAreThree | mindful-connect/src/lib/gemini.ts:74-87 | whatever the classifier decides, the analysis carries exactly three suggestions |
| Gemini.AnyKeywordIn | mindful-connect/src/lib/gemini.ts:67 | a keyword list matches exactly when one of its keywords occurs as a substring of the lower-cased text |
| Gemini.FirstMatchingCategory | mindful-connect/src/lib/gemini.ts:66-72 | the loop stops at the first category, from a given place on, whose keywords occur, and no earlier category matched |
| Gemini.DetectCategory | mindful-connect/src/lib/gemini.ts:54-72 | a category wins exactly when it matches and every category before it in the order happy, sad, angry, anxious, calm does not; no winner exactly when none matches |
| Gemini.Classify | mindful-connect/src/lib/gemini.ts:51-88 | the label is always one of the six classifier labels; the winning category's label at confidence 0.8, else neutral at 0.6; suggestions are the winner's |
| Gemini.ClassifyIgnoresCase | mindful-connect/src/lib/gemini.ts:62 | the text is lower-cased before matching, so lower-casing it first changes nothing |
| Gemini.HappyKeywordWins | mindful-connect/src/lib/gemini.ts:55-72 | any happy keyword anywhere in the text makes the result happy at 0.8, whatever other keywords occur |
| Gemini.SadButHappyIsHappy | mindful-connect/src/lib/gemini.ts:54-72 | "sad but happy" is happy, because happy is tried before sad |
| Gemini.GoodbyeIsHappy | mindful-connect/src/lib/gemini.ts:55-67 | "goodbye" is happy: keywords match as substrings, not words |
| Gemini.UpperCaseKeywordIsHappy | mindful-connect/src/lib/gemini.ts:62-67 | "GOOD" is happy: upper case does not hide a keyword |
| Gemini.NoKeywordIsNeutral | mindful-connect/src/lib/gemini.ts:63-86 | text containing no keyword is neutral at 0.6 with the neutral suggestions |
| Gemini.ReplyLanguageOf | mindful-connect/src/lib/gemini.ts:201 | a code with reply tables selects its own table, every other code the en table |
| Gemini.PoolEmotionOf | mindful-connect/src/lib/gemini.ts:202 | an emotion with a pool selects it, every other emotion the neutral pool |
| Gemini.UnknownLanguageUsesEnglish | mindful-connect/src/lib/gemini.ts:201-202 | a language without tables replies from the en pool of the same emotion |
| Gemini.MissingEmotionUsesNeutral | mindful-connect/src/lib/gemini.ts:202 | an emotion without a pool replies from the neutral pool of the selected language |
| Gemini.LanguageCodeReadsBack | mindful-connect/src/lib/gemini.ts:201 | each reply language's code has its own reply table and selects that language again |
| Gemini.EmotionKeyReadsBack | mindful-connect/src/lib/gemini.ts:202 | each emotion's key has its own template list and selects that emotion again |
| Gemini.TemplatePoolSelectsEntry | mindful-connect/src/lib/gemini.ts:201-202 | a known language code and emotion key select exactly that language's list for that emotion |
| Gemini.AngryAndCalmUseNeutral | mindful-connect/src/lib/gemini.ts:132-199 | of the five categories' labels exactly angry and calm have no reply pool, so both reply from the neutral pool |
| Gemini.ContainsAnyToken | mindful-connect/src/lib/gemini.ts:230 | a chain of `keywords.includes` calls holds exactly when some whole token is one of the words |
| Gemini.DetectTopic | mindful-connect/src/lib/gemini.ts:230-236 | work is chosen exactly when a work token occurs; family exactly when a family token does and no work token; tired likewise after both; none when no token names a topic |
| Gemini.PickTemplate | mindful-connect/src/lib/gemini.ts:203 | a sample in [0, 1) always picks a template of the pool |
| Gemini.EveryTemplateReachable | mindful-connect/src/lib/gemini.ts:203 | every template of a pool is picked by some sample |
| Gemini.GenerateResponse | mindful-connect/src/lib/gemini.ts:129-239 | the reply starts with a template picked from the selected pool |
| Gemini.Personalize | mindful-connect/src/lib/gemini.ts:207-238 | the template comes first; a named topic appends exactly its clause in the reply language, no topic appends nothing |
| Gemini.ClauseFollowsReplyLanguage | mindful-connect/src/lib/gemini.ts:228 | the clause comes from the reply language's table, and from the en table for a language without one |
| Gemini.TopicAddsItsClause | mindful-connect/src/lib/gemini.ts:201-238 | a message naming a topic gets the picked template followed by that topic's clause |
| Gemini.WorkOutranksOtherTopics | mindful-connect/src/lib/gemini.ts:230-236 | a work token wins over family and tiredness tokens in the same message |
| Gemini.NoTopicNoClause | mindful-connect/src/lib/gemini.ts:207-238 | a message naming no topic gets the bare template |
| Gemini.OneWordMessage | mindful-connect/src/lib/gemini.ts:206 | a lower-case message without spaces is a single token |
| Gemini.MessageTokens | mindful-connect/src/lib/gemini.ts:206 | the message is split into at least one token, no token holds a space, and joining them with spaces gives back the lower-cased message |
| Gemini.OneTokenTopic | mindful-connect/src/lib/gemini.ts:230-236 | one token selects the first topic whose keyword list holds it |
| Gemini.PartialTokensNameNoTopic | mindful-connect/src/lib/gemini.ts:206-230 | "working" and "work." name no topic: only whole space-separated tokens count |
| Gemini.SpanishKeywordNamesWork | mindful-connect/src/lib/gemini.ts:230 | the Spanish "trabajo" names the work topic whatever the reply language |
| Gemini.TiredFromWorkTokens | mindful-connect/src/lib/gemini.ts:206 | "tired from work" splits into its three words |
| Gemini.TiredFromWorkNamesWork | mindful-connect/src/lib/gemini.ts:230-235 | "tired from work" gets the work clause, since the work keywords are checked before the tiredness ones |
| Gemini.CreativeFallsBackToNeutral | mindful-connect/src/lib/gemini.ts:283 | an emotion outside happy, sad, anxious and neutral gets the neutral text of the requested type |
| Gemini.CreativeContentSelectsEntry | mindful-connect/src/lib/gemini.ts:283 | a known emotion key selects exactly that emotion's text for the requested content type |
| Auth.Mount | mindful-connect/src/contexts/AuthContext.tsx:30-35 | in demo mode the mount effect only ends loading; the user is untouched |
| Auth.SignInAsGuest | mindful-connect/src/contexts/AuthContext.tsx:45-57 | guest sign-in sets an anonymous user with no display name, e-mail or photo, whose uid is "demo-guest-" followed by the time |
| Auth.SignInWithGoogle | mindful-connect/src/contexts/AuthContext.tsx:64-76 | Google sign-in sets a non-anonymous user named "Demo User" with e-mail "demo@example.com", no photo, and a uid that is "demo-google-" followed by the decimal rendering of the time |
| Auth.Logout | mindful-connect/src/contexts/AuthContext.tsx:83-88 | logout clears the user and leaves loading alone |
| Auth.IsGuest | mindful-connect/src/contexts/AuthContext.tsx:95 | the flag holds exactly when there is a user and it is anonymous |
| Auth.UseAuth | mindful-connect/src/contexts/AuthContext.tsx:18-24 | the hook returns the context inside a provider and fails with the provider message outside one |
| Auth.GuestUidRecordsTime | mindful-connect/src/contexts/AuthContext.tsx:49 | the guest uid carries its prefix and the sign-in time reads back from its digits |
| Auth.GoogleUidRecordsTime | mindful-connect/src/contexts/AuthContext.tsx:68 | the Google uid carries its prefix and the time it was made, and reading its digits back gives that time |
| Auth.GuestAndGoogleUidsDiffer | mindful-connect/src/contexts/AuthContext.tsx:49-68 | no guest uid equals a Google uid, whatever the two times |
| Auth.RunKeepsDemoShape | mindful-connect/src/contexts/AuthContext.tsx:27-93 | any sequence of mounts, sign-ins and logouts leaves either no user or one of the two demo user shapes |
| Auth.GuestIffGuestUid | mindful-connect/src/contexts/AuthContext.tsx:49-95 | for a demo user, being a guest is the same as having a guest uid |
| Auth.IsGuestFollowsLastAction | mindful-connect/src/contexts/AuthContext.tsx:27-95 | guest sign-in sets the flag, Google sign-in and logout clear it, mounting keeps it, and it starts cleared |
| Chat.Greeting | mindful-connect/src/components/chat/ChatInterface.tsx:64 | an anonymous user is greeted as "friend", a named user by the display name, and no user or an empty name as "there" |
| Chat.Accepts | mindful-connect/src/components/chat/ChatInterface.tsx:74 | a send is accepted exactly when the trimmed input is non-empty and no request is in flight |
| Chat.Welcome | mindful-connect/src/components/chat/ChatInterface.tsx:59-71 | an empty conversation receives one AI message with id "1", tagged happy, reading "Hello " and the greeting; a non-empty one is left alone |
| Chat.GreetingFollowsAuth | mindful-connect/src/components/chat/ChatInterface.tsx:33-64 | after guest sign-in the welcome says "friend", after Google sign-in the demo name, after logout "there" |
| Chat.DemoExchange | mindful-connect/src/components/chat/ChatInterface.tsx:89-94 | the awaited calls classify the input and reply for that emotion in the avatar language; a failed analysis yields no reply |
| Chat.Submit | mindful-connect/src/components/chat/ChatInterface.tsx:76-85 | an accepted send appends the untrimmed input as one user message, clears the input and starts loading, touching nothing else |
| Chat.Deliver | mindful-connect/src/components/chat/ChatInterface.tsx:87-119 | exactly one AI message follows: the reply tagged with its emotion and language, or the apology untagged; loading and speaking end; the current emotion moves unless the analysis threw |
| Chat.Send | mindful-connect/src/components/chat/ChatInterface.tsx:73-120 | a blank input or a request in flight changes nothing; otherwise the user message and one AI message are appended, the input is cleared and loading ends |
| Chat.SendMessage | mindful-connect/src/components/chat/ChatInterface.tsx:73-119 | a refused send changes nothing; an accepted one appends the user message with the input text and one reply, keeping earlier messages, and the reply carries the classifier's emotion exactly when the request completes |
| Chat.SendIgnoredIffBlankOrBusy | mindful-connect/src/components/chat/ChatInterface.tsx:74 | a send leaves the state unchanged exactly when the trimmed input is empty or a request is in flight |
| Chat.SendEndsWithDelivery | mindful-connect/src/components/chat/ChatInterface.tsx:83-119 | an accepted send is the synchronous submit followed by the delivery of the awaited result |
| Chat.ReplyIsTaggedAndTemplated | mindful-connect/src/components/chat/ChatInterface.tsx:89-105 | a completed demo send tags the reply with the classifier's label and the avatar language, makes that label current, and the reply begins with a template of the selected pool |
| Chat.ReplyFollowsExchange | mindful-connect/src/components/chat/ChatInterface.tsx:96-105 | the delivered message carries the exchange's reply and emotion in the avatar language |
| Chat.FailureAppendsApology | mindful-connect/src/components/chat/ChatInterface.tsx:107-118 | either failure appends the untagged apology and ends loading and speaking; the emotion moves only when the analysis had succeeded |
| Chat.CameraEmotion | mindful-connect/src/components/chat/ChatInterface.tsx:134-148 | a camera reading always becomes the current emotion, and adds one tagged AI message exactly when its confidence exceeds 0.8 |
| Chat.CameraThresholdIsStrict | mindful-connect/src/components/chat/ChatInterface.tsx:137 | a confidence of exactly 0.8 adds no message |
| Chat.AddCreative | mindful-connect/src/components/chat/ChatInterface.tsx:150-167 | generated content is appended behind the type's header, tagged with the current emotion; a thrown generator adds nothing; loading ends either way |
| Chat.GenerateCreative | mindful-connect/src/components/chat/ChatInterface.tsx:150-167 | a creative request appends one AI message tagged with the current emotion, keeps earlier messages and clears the loading flag |
| Chat.CreativeMessageSplits | mindful-connect/src/components/chat/ChatInterface.tsx:153-156 | the demo creative message splits back into the header and the generator's text for the current emotion |
| Chat.CreativeHeadersDiffer | mindful-connect/src/components/chat/ChatInterface.tsx:156 | the three content types get three different headers |
| Chat.ExtensionKeepsNonBlank | mindful-connect/src/components/chat/ChatInterface.tsx:83-161 | appending only AI messages or non-blank user messages keeps every user message non-blank |
| Chat.SendKeepsUserMessagesNonBlank | mindful-connect/src/components/chat/ChatInterface.tsx:74-83 | a send adds a user message only for an input that is not blank |
| Chat.WelcomeKeepsUserMessagesNonBlank | mindful-connect/src/components/chat/ChatInterface.tsx:59-71 | the welcome adds no user message |
| Chat.StepKeepsUserMessagesNonBlank | mindful-connect/src/components/chat/ChatInterface.tsx:59-167 | every handler keeps the user messages non-blank |
| Chat.RunKeepsUserMessagesNonBlank | mindful-connect/src/components/chat/ChatInterface.tsx:59-167 | over any sequence of handlers no blank user message ever enters the conversation |
| VideoCall.Pad2 | mindful-connect/src/components/video/VideoCallWithAI.tsx:218 | a padded numeral has at least two digits, exactly two below 100, and only digits |
| VideoCall.Pad2IsPadStart | mindful-connect/src/components/video/VideoCallWithAI.tsx:218 | the padding is `padStart(2, '0')` of the decimal numeral |
| VideoCall.MinutesAndSeconds | mindful-connect/src/components/video/VideoCallWithAI.tsx:216-217 | minutes times 60 plus the remaining seconds give the duration back, with fewer than 60 seconds left over |
| VideoCall.Label | mindful-connect/src/components/video/VideoCallWithAI.tsx:218 | the label ends in a colon and two digits, and is five characters with the colon in the middle while minutes stay below 100 |
| VideoCall.FormatDuration | mindful-connect/src/components/video/VideoCallWithAI.tsx:215-219 | the duration label has a colon before its last two characters, and is "mm:ss" below 100 minutes |
| VideoCall.ParsePad2 | mindful-connect/src/components/video/VideoCallWithAI.tsx:218 | a padded numeral reads back as its number |
| VideoCall.LabelSplits | mindful-connect/src/components/video/VideoCallWithAI.tsx:218 | the label splits at its colon into the padded minutes and the padded seconds |
| VideoCall.LabelReadsBack | mindful-connect/src/components/video/VideoCallWithAI.tsx:216-218 | the label reads back as minutes times 60 plus seconds |
| VideoCall.FormatDurationReadsBack | mindful-connect/src/components/video/VideoCallWithAI.tsx:215-219 | every duration's label reads back as that duration, so no two durations share a label |
| VideoCall.CallLanguageOf | mindful-connect/src/components/video/VideoCallWithAI.tsx:147 | es and hi select their own lines and every other language the en lines |
| VideoCall.PersonalityOf | mindful-connect/src/components/video/VideoCallWithAI.tsx:148 | the four personality names, and only they, are recognised |
| VideoCall.ResponseList | mindful-connect/src/components/video/VideoCallWithAI.tsx:147-148 | the chosen line list is in the call's language, English when the language is unknown |
| VideoCall.Table | mindful-connect/src/components/video/VideoCallWithAI.tsx:47-90 | only en has lines for personalities other than empathetic, and a found list belongs to the asked language |
| VideoCall.PoolFor | mindful-connect/src/components/video/VideoCallWithAI.tsx:148 | the personality fallback stays within the selected language |
| VideoCall.ResponseListFallbacks | mindful-connect/src/components/video/VideoCallWithAI.tsx:147-148 | an unknown language uses the en lines; an unknown personality, and in es and hi every personality, uses the empathetic lines |
| VideoCall.EnglishFollowsPersonality | mindful-connect/src/components/video/VideoCallWithAI.tsx:48-72 | in en each known personality gets its own lines |
| VideoCall.PickLine | mindful-connect/src/components/video/VideoCallWithAI.tsx:149 | a sample in [0, 1) always picks a line of the list |
| VideoCall.EveryLineReachable | mindful-connect/src/components/video/VideoCallWithAI.tsx:149 | every line of a list is picked by some sample |
| VideoCall.StartCall | mindful-connect/src/components/video/VideoCallWithAI.tsx:92-123 | the call becomes active exactly when camera and microphone are granted, and the statistics are untouched |
| VideoCall.Tick | mindful-connect/src/components/video/VideoCallWithAI.tsx:107-109 | one timer tick adds one second to the duration and changes nothing else |
| VideoCall.Respond | mindful-connect/src/components/video/VideoCallWithAI.tsx:151-156 | a response shows and speaks the line and adds one to the response count, changing nothing else |
| VideoCall.SimulateResponse | mindful-connect/src/components/video/VideoCallWithAI.tsx:146-156 | the spoken line is one of the list selected by language and personality |
| VideoCall.FinishSpeaking | mindful-connect/src/components/video/VideoCallWithAI.tsx:159-161 | when speaking ends the AI listens, statistics unchanged |
| VideoCall.StopListening | mindful-connect/src/components/video/VideoCallWithAI.tsx:164-166 | the listening timeout only stops listening |
| VideoCall.AddEmotion | mindful-connect/src/components/video/VideoCallWithAI.tsx:180 | the detected list stays free of duplicates, holds the new emotion and every old one, and nothing else |
| VideoCall.AddEmotionAppendsNew | mindful-connect/src/components/video/VideoCallWithAI.tsx:180 | on a duplicate-free list a new emotion is appended at the end and a seen one changes nothing, so first-seen order is kept |
| VideoCall.DetectEmotion | mindful-connect/src/components/video/VideoCallWithAI.tsx:173-181 | a run that sees the call inactive does nothing; otherwise it picks one of the six emotions, makes it current and records it once |
| VideoCall.DetectionNeverFiresAsWritten | mindful-connect/src/components/video/VideoCallWithAI.tsx:170-192 | after starting a call, any number of detector runs leave the state as the start left it, because each run sees the flag captured before the call started |
| VideoCall.DetectEmotionCurrent | mindful-connect/src/components/video/VideoCallWithAI.tsx:173-181 | reading the current flag, every run during a call records its emotion and keeps the list duplicate-free |
| VideoCall.AIEmoji | mindful-connect/src/components/video/VideoCallWithAI.tsx:230-239 | speaking beats listening, which beats the personality's emoji, smiling by default |
| VideoCall.AvatarStyle | mindful-connect/src/components/video/VideoCallWithAI.tsx:221-228 | energetic gets the orange-to-red gradient, calm the green one, wise the purple one, and every other personality the blue one |
| VideoCall.DefaultStyleIffDefaultEmoji | mindful-connect/src/components/video/VideoCallWithAI.tsx:221-239 | a personality gets the blue fallback gradient exactly when, at rest, it gets the fallback emoji |
| VideoCall.EndCall | mindful-connect/src/components/video/VideoCallWithAI.tsx:125-144 | ending stops the call, speaking and listening, and keeps the statistics for the summary |
| VideoCall.StepCounts | mindful-connect/src/components/video/VideoCallWithAI.tsx:92-193 | one event adds one to the duration exactly when it is a tick, one to the response count exactly when it is a response, and keeps the emotions duplicate-free |
| VideoCall.RunCounts | mindful-connect/src/components/video/VideoCallWithAI.tsx:35-193 | over any run the duration counts the ticks, the response count counts the responses, and the detected emotions stay duplicate-free |
| MoodContent.MoodKeyOf | mindful-connect/src/components/content/MoodContentGenerator.tsx:108-109 | happy, sad and anxious select their own entries, and every other mood the neutral entry |
| MoodContent.KeyNameReadsBack | mindful-connect/src/components/content/MoodContentGenerator.tsx:33-108 | each entry's mood name selects that entry |
| MoodContent.Likes | mindful-connect/src/components/content/MoodContentGenerator.tsx:118 | the like count lies between 10 and 59 |
| MoodContent.EveryLikeCountReachable | mindful-connect/src/components/content/MoodContentGenerator.tsx:118 | every count from 10 to 59 is drawn by some sample |
| MoodContent.NewItem | mindful-connect/src/components/content/MoodContentGenerator.tsx:108-119 | the item takes its title and text from the table, records the type and the mood as given, and is stamped with the time, its id the time's numeral |
| MoodContent.IdRecordsTime | mindful-connect/src/components/content/MoodContentGenerator.tsx:112 | the id is all digits and reads back as the creation time |
| MoodContent.UndefinedMoodUsesNeutral | mindful-connect/src/components/content/MoodContentGenerator.tsx:108-116 | a mood outside the table gets the neutral title and text of its type, yet the item records the mood as given |
| MoodContent.SelectTab | mindful-connect/src/components/content/MoodContentGenerator.tsx:164 | a tab button changes only the active tab |
| MoodContent.BeginGenerate | mindful-connect/src/components/content/MoodContentGenerator.tsx:28 | a click starts generating and touches nothing else |
| MoodContent.FinishGenerate | mindful-connect/src/components/content/MoodContentGenerator.tsx:111-122 | the new item, of the type clicked, goes in front of the unchanged old items and generating ends; the tab stays |
| MoodContent.VisibleIsTabSubsequence | mindful-connect/src/components/content/MoodContentGenerator.tsx:200-201 | the visible cards are, in order, exactly the items of the active type |
| MoodContent.PlaceholderIffNoneOfTab | mindful-connect/src/components/content/MoodContentGenerator.tsx:240 | the placeholder shows exactly when no item has the active type |
| MoodContent.FinishedItemHeadsItsTab | mindful-connect/src/components/content/MoodContentGenerator.tsx:121-201 | a finished item of the active type heads the visible list; one of another type leaves it as it was |
| MoodContent.Visible | mindful-connect/src/components/content/MoodContentGenerator.tsx:200-201 | every shown item has the active tab's type and is in the feed, and every feed item of that type is shown |
| MoodContent.MoodColor | mindful-connect/src/components/content/MoodContentGenerator.tsx:135-144 | each of the five moods gets its gradient, and the grey one goes exactly to every other mood |
| MoodContent.FinishKeepsItemsWellFormed | mindful-connect/src/components/content/MoodContentGenerator.tsx:111-121 | a finished generation keeps every item built from the table with a like count in range |
| MoodContent.StepKeepsItemsWellFormed | mindful-connect/src/components/content/MoodContentGenerator.tsx:27-122 | every handler keeps the feed well-formed |
| MoodContent.RunKeepsItemsWellFormed | mindful-connect/src/components/content/MoodContentGenerator.tsx:27-122 | over any run every item in the feed comes from the table and has a like count in range |
| Random.PickIndex | mindful-connect/src/lib/gemini.ts:203 | `Math.floor(r * n)` for a sample in [0, 1) is an index below n, the one whose interval holds r * n |
| Random.EveryIndexReachable | mindful-connect/src/lib/gemini.ts:203 | every index below n is drawn by the sample i / n |
| Multimedia.DefinedMood | mindful-connect/src/components/multimedia/MultimediaGenerator.tsx:46-90 | happy and calm are defined for every type, and sad only for images |
| Multimedia.ChosenMood | mindful-connect/src/components/multimedia/MultimediaGenerator.tsx:90-91 | a defined mood selects its entry and any other mood the happy entry, not a neutral one; sad is chosen only for images |
| Multimedia.LangOf | mindful-connect/src/components/multimedia/MultimediaGenerator.tsx:92 | hi and ta select their texts and every other language the English ones |
| Multimedia.NewContent | mindful-connect/src/components/multimedia/MultimediaGenerator.tsx:94-101 | the new item has the requested type and its shape: a thumbnail exactly for videos and a 2:30 duration exactly for videos and music |
| Multimedia.Url | mindful-connect/src/components/multimedia/MultimediaGenerator.tsx:98 | the link starts with the example origin and ends with the time's decimal digits, with the type's name and one slash in between |
| Multimedia.UrlReadsBack | mindful-connect/src/components/multimedia/MultimediaGenerator.tsx:98 | the url is the example origin followed by a path that splits into the type name and the time |
| Multimedia.MissingMoodUsesHappy | mindful-connect/src/components/multimedia/MultimediaGenerator.tsx:90-91 | a mood the type has no entry for produces exactly the happy item |
| Multimedia.SadVideoAndMusicAreHappy | mindful-connect/src/components/multimedia/MultimediaGenerator.tsx:64-91 | videos and music have no sad entry, so a sad mood gets the happy item |
| Multimedia.UnknownLanguageUsesEnglish | mindful-connect/src/components/multimedia/MultimediaGenerator.tsx:92 | a language other than en, hi and ta produces exactly the English item |
| Multimedia.PlaylistIdsAreOneToEight | mindful-connect/src/components/multimedia/MultimediaGenerator.tsx:108-117 | there are eight playlists with ids 1 to 8 in order, pairwise distinct |
| Multimedia.PlayTrack | mindful-connect/src/components/multimedia/MultimediaGenerator.tsx:119-124 | playing a track makes it current and starts playback, touching nothing else |
| Multimedia.ClickedCardAloneShowsPause | mindful-connect/src/components/multimedia/MultimediaGenerator.tsx:207-226 | after a card is clicked, exactly that card shows the pause icon |
| Multimedia.SelectTab | mindful-connect/src/components/multimedia/MultimediaGenerator.tsx:174 | a tab button changes only the active tab |
| Multimedia.BeginGenerate | mindful-connect/src/components/multimedia/MultimediaGenerator.tsx:41 | a click starts generating and touches nothing else |
| Multimedia.FinishGenerate | mindful-connect/src/components/multimedia/MultimediaGenerator.tsx:94-104 | the new item of the clicked type goes in front of the unchanged old items and generating ends; tab and playback stay |
| Multimedia.EmptyMessageIffNoneOfType | mindful-connect/src/components/multimedia/MultimediaGenerator.tsx:314 | on a media tab the empty message shows exactly when no item has that type |
| Multimedia.VisibleIsTypeSubsequence | mindful-connect/src/components/multimedia/MultimediaGenerator.tsx:266-267 | the shown cards are, in order, exactly the items of the tab's type |
| Multimedia.FinishedItemHeadsItsType | mindful-connect/src/components/multimedia/MultimediaGenerator.tsx:266-268 | a finished item heads its type's list; other types' lists are unchanged |
| Multimedia.Visible | mindful-connect/src/components/multimedia/MultimediaGenerator.tsx:266-268 | every shown item has the active tab's type and is in the list, and every item of that type is shown |
| Multimedia.PrependKeepsWellFormed | mindful-connect/src/components/multimedia/MultimediaGenerator.tsx:103 | putting a well-formed item in front keeps the list well-formed |
| Multimedia.StepKeepsShape | mindful-connect/src/components/multimedia/MultimediaGenerator.tsx:40-124 | every handler keeps the items well-formed and the current track a playlist id |
| Multimedia.RunKeepsShape | mindful-connect/src/components/multimedia/MultimediaGenerator.tsx:40-124 | over any run every item keeps its shape and a current track is always one of the eight playlist ids |
| AvatarCreator.OrFallback | mindful-connect/src/components/avatar/AvatarCreator.tsx:94-104 | `found?.field \|\| fallback` gives the field when an entry was found and its string is non-empty, and the fallback otherwise |
| AvatarCreator.StyleIdInjective | mindful-connect/src/components/avatar/AvatarCreator.tsx:30-37 | no two styles share an id |
| AvatarCreator.AccessoryIdInjective | mindful-connect/src/components/avatar/AvatarCreator.tsx:44-53 | no two accessories share an id |
| AvatarCreator.BackgroundIdInjective | mindful-connect/src/components/avatar/AvatarCreator.tsx:55-62 | no two backgrounds share an id |
| AvatarCreator.StyleGradient | mindful-connect/src/components/avatar/AvatarCreator.tsx:92-95 | an id outside the style table renders the default blue gradient |
| AvatarCreator.BackgroundGradient | mindful-connect/src/components/avatar/AvatarCreator.tsx:97-100 | an id outside the background table renders the sunset gradient |
| AvatarCreator.AccessoryEmoji | mindful-connect/src/components/avatar/AvatarCreator.tsx:102-105 | an id outside the accessory table renders no emoji |
| AvatarCreator.KnownStyleGradient | mindful-connect/src/components/avatar/AvatarCreator.tsx:30-95 | every listed style renders its own gradient |
| AvatarCreator.KnownBackgroundGradient | mindful-connect/src/components/avatar/AvatarCreator.tsx:55-100 | every listed background renders its own gradient |
| AvatarCreator.KnownAccessoryEmoji | mindful-connect/src/components/avatar/AvatarCreator.tsx:44-105 | every listed accessory renders its own emoji, none for `none` |
| AvatarCreator.InitialAvatar | mindful-connect/src/components/avatar/AvatarCreator.tsx:65-72 | a supplied avatar is used as given, and without one the editor starts from the default, which the pickers offer |
| AvatarCreator.Randomize | mindful-connect/src/components/avatar/AvatarCreator.tsx:76-85 | a shuffle keeps the name and yields only options the pickers offer |
| AvatarCreator.EveryCombinationReachable | mindful-connect/src/components/avatar/AvatarCreator.tsx:76-85 | every combination of one entry per table comes out of some shuffle |
| AvatarCreator.Apply | mindful-connect/src/components/avatar/AvatarCreator.tsx:172-312 | a pick sets its own field to the picked value and leaves every other field unchanged |
| AvatarCreator.Save | mindful-connect/src/components/avatar/AvatarCreator.tsx:87-90 | saving hands the caller the avatar exactly as edited |
| AvatarCreator.StepKeepsInOptions | mindful-connect/src/components/avatar/AvatarCreator.tsx:172-312 | each pick, shuffle or tab change keeps the avatar within the offered options |
| AvatarCreator.RunKeepsInOptions | mindful-connect/src/components/avatar/AvatarCreator.tsx:172-312 | from offered options, no sequence of picks, shuffles and tab changes leaves them, the name aside |
| AvatarGallery.StyleGradient | mindful-connect/src/components/avatar/AvatarGallery.tsx:237-239 | a key missing from the style record renders the default blue gradient |
| AvatarGallery.BackgroundGradient | mindful-connect/src/components/avatar/AvatarGallery.tsx:241-243 | a key missing from the background record renders the sunset gradient |
| AvatarGallery.AccessoryEmoji | mindful-connect/src/components/avatar/AvatarGallery.tsx:245-247 | a key missing from the accessory record renders no emoji |
| AvatarGallery.StyleEntriesMatchEditor | mindful-connect/src/components/avatar/AvatarGallery.tsx:190-197 | the gallery's style record has an entry exactly for the editor's style ids, each with the editor's gradient |
| AvatarGallery.BackgroundEntriesMatchEditor | mindful-connect/src/components/avatar/AvatarGallery.tsx:199-206 | the gallery's background record has an entry exactly for the editor's background ids, each with the editor's gradient |
| AvatarGallery.AccessoryEntriesMatchEditor | mindful-connect/src/components/avatar/AvatarGallery.tsx:208-217 | the gallery's accessory record has an entry exactly for the editor's accessory ids, each with the editor's emoji |
| AvatarGallery.StyleRenderingAgrees | mindful-connect/src/components/avatar/AvatarGallery.tsx:237-239 | the gallery renders every style key, known or not, exactly as the editor does |
| AvatarGallery.BackgroundRenderingAgrees | mindful-connect/src/components/avatar/AvatarGallery.tsx:241-243 | the gallery renders every background key exactly as the editor does |
| AvatarGallery.AccessoryRenderingAgrees | mindful-connect/src/components/avatar/AvatarGallery.tsx:245-247 | the gallery renders every accessory key exactly as the editor does |
| AvatarGallery.Position | mindful-connect/src/components/avatar/AvatarGallery.tsx:29-181 | every preset has a place in the gallery's list |
| AvatarGallery.PresetsUseKnownKeys | mindful-connect/src/components/avatar/AvatarGallery.tsx:29-181 | no preset falls back: its style, background and accessory are keys of the records |
| AvatarGallery.IdReadsBack | mindful-connect/src/components/avatar/AvatarGallery.tsx:29-181 | each preset's id names that preset, so the twelve card keys are distinct |
| AvatarGallery.Filtered | mindful-connect/src/components/avatar/AvatarGallery.tsx:223 | every preset shown on a tab belongs to that tab's category |
| AvatarGallery.FilteredKeepsOrder | mindful-connect/src/components/avatar/AvatarGallery.tsx:223 | a tab shows its presets in the gallery's order |
| AvatarGallery.ShownIffInCategory | mindful-connect/src/components/avatar/AvatarGallery.tsx:223 | a preset is on a tab exactly when it belongs to that tab's category, so the tabs partition the gallery |
| AvatarGallery.Select | mindful-connect/src/components/avatar/AvatarGallery.tsx:225-233 | the chosen avatar has the preset's emoji, style, colour, accessory, background and name |
| AvatarGallery.SelectDropsOnlyGalleryFields | mindful-connect/src/components/avatar/AvatarGallery.tsx:225-233 | selecting drops exactly id, category, description and likes: selecting and extending undo each other both ways |
| AvatarGallery.SelectCategory | mindful-connect/src/components/avatar/AvatarGallery.tsx:295 | a tab click switches the category and keeps the highlighted card |
| AvatarGallery.ClickCard | mindful-connect/src/components/avatar/AvatarGallery.tsx:332 | a card click highlights that card's id and keeps the tab |
| AvatarGallery.ClickedCardAloneHighlighted | mindful-connect/src/components/avatar/AvatarGallery.tsx:328-332 | after a card is clicked exactly that preset is highlighted |
| AvatarGallery.Representative | mindful-connect/src/components/avatar/AvatarGallery.tsx:29-181 | every category has a preset |
| AvatarGallery.NeverShowsEmptyMessage | mindful-connect/src/components/avatar/AvatarGallery.tsx:380 | whatever tab is selected the empty message never shows |
| AvatarGallery.SelectAvatar | mindful-connect/src/components/avatar/AvatarGallery.tsx:225-235 | "Select Avatar" hands the preset's plain avatar to the caller and closes the gallery |
| CustomizableAvatar.StyleOfKey | mindful-connect/src/components/avatar/CustomizableAvatar.tsx:57-90 | a style found in the table carries the key it was looked up by |
| CustomizableAvatar.StyleLookupIsTotal | mindful-connect/src/components/avatar/CustomizableAvatar.tsx:9-90 | every style the customisation type admits is a key of the table and finds itself, so the lookup is never undefined |
| CustomizableAvatar.LabelCapitalisesKey | mindful-connect/src/components/avatar/CustomizableAvatar.tsx:310-323 | each personality button shows its key with only the first letter upper-cased |
| CustomizableAvatar.Position | mindful-connect/src/components/avatar/CustomizableAvatar.tsx:24-55 | every picker entry has a place in the list |
| CustomizableAvatar.PickerMatchesSupportedLanguages | mindful-connect/src/components/avatar/CustomizableAvatar.tsx:24-55 | the picker lists the reply engine's 28 languages at the same places with the same codes and names |
| CustomizableAvatar.CodeReadsBack | mindful-connect/src/components/avatar/CustomizableAvatar.tsx:26-54 | each entry's code names that entry, so no two options share a code |
| CustomizableAvatar.CurrentLanguage | mindful-connect/src/components/avatar/CustomizableAvatar.tsx:91 | the shown language has the chosen code or is the first entry, and is the first entry when no entry has the code |
| CustomizableAvatar.CodeIsFound | mindful-connect/src/components/avatar/CustomizableAvatar.tsx:91 | the search finds every picker entry's code |
| CustomizableAvatar.PickedLanguageIsShown | mindful-connect/src/components/avatar/CustomizableAvatar.tsx:91 | a picker code shows exactly its own entry, and a code not in the picker shows English |
| CustomizableAvatar.EmotionModifier | mindful-connect/src/components/avatar/CustomizableAvatar.tsx:93-103 | each of the six emotions gets its filter, and the filter is empty exactly for every other emotion |
| CustomizableAvatar.ClassifierEmotionsHaveFilters | mindful-connect/src/components/avatar/CustomizableAvatar.tsx:93-103 | of the classifier's labels only neutral gets no filter |
| CustomizableAvatar.StatusText | mindful-connect/src/components/avatar/CustomizableAvatar.tsx:236 | the line says speaking exactly while speaking, listening exactly while listening but not speaking, and ready otherwise |
| CustomizableAvatar.CycleSeconds | mindful-connect/src/components/avatar/CustomizableAvatar.tsx:136-137 | an animation cycle lasts 0.3 s for the energetic personality, 2 s for calm, and 1 s otherwise |
| CustomizableAvatar.Change | mindful-connect/src/components/avatar/CustomizableAvatar.tsx:265-316 | a style button sets only the style, the language select only the language, a personality button only the personality |
| CustomizableAvatar.ChangeTouchesOneField | mindful-connect/src/components/avatar/CustomizableAvatar.tsx:265-316 | each control sets only its own field to the chosen value; colour and voice are never changed by the panel |
| CustomizableAvatar.LanguageChoiceIsShown | mindful-connect/src/components/avatar/CustomizableAvatar.tsx:290-293 | choosing an entry in the picker shows that entry |
| CustomizableAvatar.PanelStep | mindful-connect/src/components/avatar/CustomizableAvatar.tsx:87-88 | the settings button toggles the panel, the voice button toggles voice, and Apply closes the panel |
| CustomizableAvatar.VoiceToggleControlsIndicator | mindful-connect/src/components/avatar/CustomizableAvatar.tsx:175-228 | after the voice button the speaker badge shows exactly while speaking if it did not before, and two presses restore the state |
| VirtualWorld.MoodColor | mindful-connect/src/components/virtual/VirtualWorld.tsx:133-141 | the four known moods get their own colour class, and the grey fallback appears exactly for every other mood |
| VirtualWorld.SeededMoodsAreColoured | mindful-connect/src/components/virtual/VirtualWorld.tsx:78-141 | no seeded member's mood falls to the grey fallback |
| VirtualWorld.Actions | mindful-connect/src/components/virtual/VirtualWorld.tsx:504-523 | the user modal offers actions exactly for online members, starting with a conversation and support, and professional help exactly for online helpers |
| VirtualWorld.OnlineCount | mindful-connect/src/components/virtual/VirtualWorld.tsx:216 | the online count is at most the number of users and is zero exactly when nobody is online |
| VirtualWorld.OnlineCountIsActionable | mindful-connect/src/components/virtual/VirtualWorld.tsx:216 | the header's online counter equals the number of members whose modal offers actions |
| VirtualWorld.SeededOnlineCount | mindful-connect/src/components/virtual/VirtualWorld.tsx:78-131 | three of the four seeded members are online |
| VirtualWorld.BadgePreview | mindful-connect/src/components/virtual/VirtualWorld.tsx:382 | the card under a member shows a prefix of its badges of length at most three |
| VirtualWorld.OnlyJordanHasHiddenBadges | mindful-connect/src/components/virtual/VirtualWorld.tsx:78-131 | among the seeded members the card hides a badge that the modal shows exactly for Jordan |
| VirtualWorld.Percent | mindful-connect/src/components/virtual/VirtualWorld.tsx:311 | a progress bar has a width exactly when its maximum is positive, lies within 0 to 100 when progress does not exceed the maximum, and is full exactly when progress equals the maximum |
| VirtualWorld.UnlockedCount | mindful-connect/src/components/virtual/VirtualWorld.tsx:198 | the unlocked count is at most the number of achievements and is zero exactly when none is unlocked |
| VirtualWorld.SeededAchievementsConsistent | mindful-connect/src/components/virtual/VirtualWorld.tsx:65-76 | every seeded achievement is unlocked exactly when its bar is full, and no bar overflows |
| VirtualWorld.SeededUnlockedCount | mindful-connect/src/components/virtual/VirtualWorld.tsx:198 | the achievements counter of the seeded stats shows two |
| VirtualWorld.WorldStyleOfKnown | mindful-connect/src/components/virtual/VirtualWorld.tsx:412-419 | the world's style chain maps each editor style id to that style's gradient |
| VirtualWorld.WorldBackgroundOfKnown | mindful-connect/src/components/virtual/VirtualWorld.tsx:404-411 | the world's background chain maps each editor background id to that background's gradient |
| VirtualWorld.WorldAccessoryOfKnown | mindful-connect/src/components/virtual/VirtualWorld.tsx:421-429 | the world draws no accessory for "none" and the editor's emoji for every other accessory id |
| VirtualWorld.KnownKeysRenderLikeEditor | mindful-connect/src/components/virtual/VirtualWorld.tsx:404-429 | on ids the editor's pickers offer, the world's hand-written rendering agrees with the editor's lookup tables |
| VirtualWorld.UnknownStyleRendersDifferently | mindful-connect/src/components/virtual/VirtualWorld.tsx:418 | on a style id the editor does not know, the world falls back to grey while the editor falls back to blue |
| VirtualWorld.UnknownBackgroundRendersDifferently | mindful-connect/src/components/virtual/VirtualWorld.tsx:410 | on a background id the editor does not know, the world and the editor fall back to different gradients |
| VirtualWorld.WorldBackground | mindful-connect/src/components/virtual/VirtualWorld.tsx:404-411 | the indigo fallback gradient is rendered exactly when the background is not one of gradient1 to gradient5 |
| VirtualWorld.WorldStyle | mindful-connect/src/components/virtual/VirtualWorld.tsx:412-419 | the grey fallback gradient is rendered exactly when the style is not one of the five known styles |
| VirtualWorld.WorldAccessory | mindful-connect/src/components/virtual/VirtualWorld.tsx:421-429 | no badge is drawn exactly for "none", and an empty badge exactly for keys outside the eight known ones |
| VirtualWorld.Initial | mindful-connect/src/components/virtual/VirtualWorld.tsx:52-64 | the world starts with the default avatar, no member selected and both avatar modals closed, and the editor is seeded with the same avatar |
| VirtualWorld.TogglesAreInvolutions | mindful-connect/src/components/virtual/VirtualWorld.tsx:187-194 | each header toggle flips its panel, and two clicks restore it |
| VirtualWorld.GallerySelectionReplacesAvatar | mindful-connect/src/components/virtual/VirtualWorld.tsx:570-578 | choosing a gallery preset makes it the current avatar and closes the gallery |
| VirtualWorld.OpenThenSaveAsWritten | mindful-connect/src/components/virtual/VirtualWorld.tsx:558-567 | as written, opening the editor and saving at once stores the editor's own last avatar instead of the current one |
| VirtualWorld.OpenThenSaveKeepsAvatar | mindful-connect/src/components/virtual/VirtualWorld.tsx:558-567 | with the editor reseeded on opening, opening it and saving at once leaves the current avatar unchanged |
| VirtualWorld.GalleryChoiceLostAsWritten | mindful-connect/src/components/virtual/VirtualWorld.tsx:558-578 | as written, a gallery choice followed by opening and saving the editor reverts the avatar to the default |
| VirtualWorld.GalleryChoiceKept | mindful-connect/src/components/virtual/VirtualWorld.tsx:558-578 | with the editor reseeded on opening, the same steps keep the gallery's choice |
| VirtualWorld.StepWith | mindful-connect/src/components/virtual/VirtualWorld.tsx:558-578 | the avatar changes only when the open editor saves or the open gallery selects; events for a closed editor or gallery change nothing |
| VirtualWorld.PresetNameIsNotDefault | mindful-connect/src/components/avatar/AvatarGallery.tsx:29-181 | no gallery preset carries the default avatar's name, so a preset always differs from the default |
| VirtualWorld.CreatorStepKeepsKnownKeys | mindful-connect/src/components/avatar/AvatarCreator.tsx:76-85 | editor input chosen from the pickers keeps every avatar id known to the renderers |
| VirtualWorld.PresetHasKnownKeys | mindful-connect/src/components/avatar/AvatarGallery.tsx:29-181 | every gallery preset uses ids the editor's pickers offer |
| VirtualWorld.StepKeepsConsistent | mindful-connect/src/components/virtual/VirtualWorld.tsx:558-578 | one world step, with or without reseeding, keeps the current and the editor's avatars on known ids |
| VirtualWorld.RunKeepsConsistent | mindful-connect/src/components/virtual/VirtualWorld.tsx:558-578 | any sequence of picker-driven steps keeps the current and the editor's avatars on known ids |
| VirtualWorld.WorldAlwaysRendersLikeEditor | mindful-connect/src/components/virtual/VirtualWorld.tsx:404-429 | whatever the user does through the pickers and the gallery, the world draws the current avatar exactly as the editor would |
| VirtualWorld.ClickedUserActions | mindful-connect/src/components/virtual/VirtualWorld.tsx:452-457 | clicking a member selects it and clicking the backdrop clears the selection |
| Emergency.Position | mindful-connect/src/components/emergency/EmergencyPanel.tsx:20-32 | every seeded helpline has a place in the list |
| Emergency.SeedContacts | mindful-connect/src/components/emergency/EmergencyPanel.tsx:20-32 | the list starts with the ten helplines' records, in order |
| Emergency.SeedIdsCountUp | mindful-connect/src/components/emergency/EmergencyPanel.tsx:22-31 | the helpline at place i has the id that renders the number i + 1 |
| Emergency.SeedIdReadsBack | mindful-connect/src/components/emergency/EmergencyPanel.tsx:22-31 | each seeded id names its own helpline, so the ten list keys are distinct |
| Emergency.StampedIdAvoidsSeeds | mindful-connect/src/components/emergency/EmergencyPanel.tsx:39 | an id made from a time past 10 ms is never a seeded id |
| Emergency.HelplineIsFilled | mindful-connect/src/components/emergency/EmergencyPanel.tsx:22-31 | every seeded helpline has a name and a number |
| Emergency.AddContact | mindful-connect/src/components/emergency/EmergencyPanel.tsx:36-45 | with name and phone filled the old list is kept as a prefix and exactly the form's contact, id from the time, is appended, then the form is emptied and hidden; otherwise nothing changes |
| Emergency.AddGrowsByOneIff | mindful-connect/src/components/emergency/EmergencyPanel.tsx:37-41 | the list grows by one exactly when name and phone are non-empty, and stays the same length exactly when one is empty |
| Emergency.WhitespaceNameIsAccepted | mindful-connect/src/components/emergency/EmergencyPanel.tsx:37 | a name of one space passes the check, and the relationship is not needed |
| Emergency.Edit | mindful-connect/src/components/emergency/EmergencyPanel.tsx:152-166 | typing into one input sets that field and leaves the other two |
| Emergency.EditLastWins | mindful-connect/src/components/emergency/EmergencyPanel.tsx:152-166 | the later of two edits of one field wins, and typing a field's own value changes nothing |
| Emergency.TelLink | mindful-connect/src/components/emergency/EmergencyPanel.tsx:52-54 | the dial link is four characters longer than the number |
| Emergency.TelLinkReadsBack | mindful-connect/src/components/emergency/EmergencyPanel.tsx:53 | the dial link is "tel:" followed by exactly the contact's number |
| Emergency.InitialIsFilled | mindful-connect/src/components/emergency/EmergencyPanel.tsx:20-34 | the panel opens with ten contacts, each with a name and a number |
| Emergency.StepKeeps | mindful-connect/src/components/emergency/EmergencyPanel.tsx:36-45 | each control keeps the old list as a prefix and keeps every contact filled |
| Emergency.RunKeeps | mindful-connect/src/components/emergency/EmergencyPanel.tsx:36-45 | over any sequence of controls contacts are only appended, never edited or removed, and all stay filled |
| Emergency.HelplinesStayFirst | mindful-connect/src/components/emergency/EmergencyPanel.tsx:20-38 | whatever the user does, each helpline stays at its place at the head of the list |
| Landing.FeatureClick | mindful-connect/src/components/landing/LandingPage.tsx:17-34 | "ai-companion" opens the chat view, "virtual-community" the world view, and the two modal features raise only their own flag |
| Landing.UnknownFeatureGoesHome | mindful-connect/src/components/landing/LandingPage.tsx:31-32 | any other feature name sets the home view and leaves both modal flags as they were |
| Landing.FlagsRiseOnlyForTheirFeature | mindful-connect/src/components/landing/LandingPage.tsx:25-30 | after a click a modal flag is up exactly when it was up before or its own feature was clicked |
| Landing.ModalFeaturesKeepView | mindful-connect/src/components/landing/LandingPage.tsx:18-33 | the view is unchanged by the two modal features, and every other feature leaves it at home, chat or world |
| Landing.ScreenOf | mindful-connect/src/components/landing/LandingPage.tsx:37-81 | the chat and world screens are drawn exactly in their views; every other view falls through to the home page |
| Landing.BackUndoesNavigation | mindful-connect/src/components/landing/LandingPage.tsx:19-68 | opening the chat or the world from home offers a back button, and pressing it restores the page exactly |
| Landing.CloseUndoesModal | mindful-connect/src/components/landing/LandingPage.tsx:291-303 | raising a modal from home shows it, and closing it restores the page |
| Landing.UnusedViewsUnreachable | mindful-connect/src/components/landing/LandingPage.tsx:12-68 | from home, chat or world, no sequence of clicks ever reaches the multimedia or emergency view |
| Landing.FreshPageNeverUsesUnusedViews | mindful-connect/src/components/landing/LandingPage.tsx:12 | a fresh page never reaches the two views that are declared but never set |

## Left out

- The non-demo paths of `gemini.ts` and `AuthContext.tsx` call the Gemini API and Firebase over the network. Only the demo branches are modelled.
- Media devices, microphone and camera streams, `setTimeout`/`setInterval` scheduling, animation values, layout positions and all rendering beyond the strings and flags named in the table are left out. They are I/O or presentation.
- `alert` calls are not modelled, because they are I/O. This includes the emergency panel's call alert at `EmergencyPanel.tsx:47-50`. The panel's Quick Help button has no handler in the source, so there is nothing to model.
- `window.open` is modelled only as the link string it is given. Opening a window is I/O.
- Object look-ups ignore keys inherited from `Object.prototype` (such as `"constructor"`). The source's tables would return those inherited members; the model treats them as absent keys.
- `toLowerCase` is modelled on ASCII letters only. The keyword tables the classifier searches are ASCII.
- The long reply, story and description texts are modelled as literals. No lemma states their non-emptiness, because each such statement costs the solver the full literal.
- Gemini.GenerateResponse: does not state that the reply is non-empty (`gemini.ts:201-238`). Every template is a long literal, and stating its length costs the solver that whole literal, which reaches the resource limit for a single template.
- AvatarGallery.Filtered: its contract does not state the per-tab counts that `AvatarGallery.tsx:290` renders from the preset list (Popular 4, New 3, Premium 3, Seasonal 2). Counting a filter over the twelve literal presets costs the solver every preset at once and exceeds the resource limit. What the counts rest on is stated instead: `AvatarGallery.ShownIffInCategory` (a preset is on a tab exactly when it has that category), `AvatarGallery.FilteredKeepsOrder` (a tab keeps the gallery order) and `AvatarGallery.IdReadsBack` (the twelve presets are distinct).
- JavaScript numbers are IEEE doubles; the model computes them exactly, as `real` for `Math.random()` samples, the camera confidence and the progress percentage (`VirtualWorld.Percent`), and as `nat` for times, counts and indices. Rounding in `Math.floor(Math.random() * n)`, `(progress / maxProgress) * 100` and the `> 0.8` comparison is not modelled.
- The editor's name input has a `maxLength` of 20. This is a browser attribute on the input element, so names of any length are accepted by the model.
- `VideoCall.Pad2` is written as a two-character pad rather than through `Text.PadStart`. `VideoCall.Pad2IsPadStart` ties the two together.
- The modal components' `isOpen` prop only decides whether they render. It is not part of their modelled state.
- Contacts, chat messages and generated items take their ids from `Date.now()`. Two actions in the same millisecond get equal ids; the model carries `now` as given and states no uniqueness across equal times.
- `firebase.ts`, `DemoChatInterface.tsx`, `CameraEmotionDetector.tsx`, `AI3DAvatar.tsx`, `AIAvatar.tsx`, `LoginScreen.tsx` and `next.config.js` are not part of this model.
- CustomizableAvatar.CurrentLanguage: its own contract only says the shown language has the chosen code or is the first entry. The full property is split off to keep the look-up cheap: every picker code is found and shown, and unknown codes show English. It is stated by `CustomizableAvatar.PickedLanguageIsShown`.

## Findings

| source | as written | input that shows it | evidently intended | confidence | as-written member | corrected member |
|---|---|---|---|---|---|---|
| mindful-connect/src/components/video/VideoCallWithAI.tsx:174 | the emotion detector tests the `isCallActive` captured when `startCall` ran, which is still `false` | start a call; every detector run then does nothing, so no emotion is ever detected | the detector reads the current call state and records an emotion while the call is active | not executed | VideoCall.DetectionNeverFiresAsWritten | VideoCall.DetectEmotionCurrent |
| mindful-connect/src/components/avatar/AvatarCreator.tsx:65 | the editor seeds its state from `currentAvatar` once, at mount, and never again | choose a preset in the gallery, then open the editor and press save: the avatar reverts to the default | opening the editor starts from the current avatar, so saving keeps the gallery's choice | not executed | VirtualWorld.GalleryChoiceLostAsWritten | VirtualWorld.GalleryChoiceKept |
