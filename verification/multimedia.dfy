/** The demo generator of `MultimediaGenerator.tsx`: image, video and music
    items chosen from a mood × language table, a feed filtered by the active
    tab, and a Spotify tab whose playlist cards start a track. The two
    `Date.now()` readings are the parameters `now` (for the url) and
    `thumbNow` (for the thumbnail). */
module Multimedia {
  import opened Wrappers
  import opened Text
  import Seqs

  datatype MediaType = ImageMedia | VideoMedia | MusicMedia {
    /** The union member `'image' | 'video' | 'music'`. */
    function Name(): string {
      match this
      case ImageMedia => "image"
      case VideoMedia => "video"
      case MusicMedia => "music"
    }
  }

  /** The tabs: one per media type, plus Spotify. */
  datatype Tab = MediaTab(media: MediaType) | SpotifyTab

  /** The mood entries of `moodBasedContent`; only images have a sad entry. */
  datatype MoodEntry = HappyEntry | CalmEntry | SadEntry

  /** The languages each entry is written in. */
  datatype Lang = En | Hi | Ta

  /** `moodBasedContent[type][currentMood]`: the entry the mood names, if the
      type defines one. */
  function DefinedMood(t: MediaType, mood: string): (m: Option<MoodEntry>)
    ensures m == Some(HappyEntry) <==> mood == "happy"
    ensures m == Some(CalmEntry) <==> mood == "calm"
    ensures m == Some(SadEntry) <==> mood == "sad" && t == ImageMedia
  {
    if mood == "happy" then Some(HappyEntry)
    else if mood == "calm" then Some(CalmEntry)
    else if mood == "sad" && t == ImageMedia then Some(SadEntry)
    else None
  }

  /** `... || moodBasedContent[type].happy`: the fallback is happy, not a neutral entry. */
  function ChosenMood(t: MediaType, mood: string): (m: MoodEntry)
    ensures m.SadEntry? ==> t == ImageMedia
    ensures DefinedMood(t, mood).Some? ==> m == DefinedMood(t, mood).value
    ensures DefinedMood(t, mood).None? ==> m == HappyEntry
  {
    DefinedMood(t, mood).GetOr(HappyEntry)
  }

  /** `content[language] || content.en`. */
  function LangOf(language: string): (l: Lang)
    ensures l == Hi <==> language == "hi"
    ensures l == Ta <==> language == "ta"
    ensures l == En <==> language != "hi" && language != "ta"
  {
    if language == "hi" then Hi
    else if language == "ta" then Ta
    else En
  }

  datatype Entry = Entry(title: string, description: string)

  /** The `moodBasedContent` table. */
  function Texts(t: MediaType, m: MoodEntry, l: Lang): Entry
    requires m.SadEntry? ==> t == ImageMedia
  {
    match t
    case ImageMedia => ImageTexts(m, l)
    case VideoMedia => VideoTexts(m.CalmEntry?, l)
    case MusicMedia => MusicTexts(m.CalmEntry?, l)
  }

  function ImageTexts(m: MoodEntry, l: Lang): Entry {
    match (m, l)
    case (HappyEntry, En) => Entry("Sunshine Mandala", "A vibrant mandala radiating joy and positivity")
    case (HappyEntry, Hi) => Entry("सूर्य मंडल", "खुशी और सकारात्मकता से भरा एक जीवंत मंडल")
    case (HappyEntry, Ta) => Entry("சூரிய மண்டலம்", "மகிழ்ச்சி மற்றும் நேர்மறையை வெளிப்படுத்தும் ஒரு துடிப்பான மண்டலம்")
    case (CalmEntry, En) => Entry("Peaceful Lake", "A serene lake surrounded by mountains at sunset")
    case (CalmEntry, Hi) => Entry("शांत झील", "सूर्यास्त के समय पहाड़ों से घिरी एक शांत झील")
    case (CalmEntry, Ta) => Entry("அமைதியான ஏரி", "சூரிய அஸ்தமனத்தின் போது மலைகளால் சூழப்பட்ட அமைதியான ஏரி")
    case (SadEntry, En) => Entry("Healing Rain", "Gentle raindrops on flower petals, symbolizing renewal")
    case (SadEntry, Hi) => Entry("उपचारक बारिश", "फूलों की पंखुड़ियों पर कोमल बारिश की बूंदें, नवीकरण का प्रतीक")
    case (SadEntry, Ta) => Entry("குணப்படுத்தும் மழை", "மலர் இதழ்களில் மென்மையான மழைத்துளிகள், புதுப்பித்தலின் அடையாளம்")
  }

  /** The video entries: happy, or calm when `calm` holds. */
  function VideoTexts(calm: bool, l: Lang): Entry {
    match (calm, l)
    case (false, En) => Entry("Dancing Colors", "Animated colors dancing to uplifting music")
    case (false, Hi) => Entry("नृत्य करते रंग", "उत्साहजनक संगीत पर नृत्य करते हुए रंग")
    case (false, Ta) => Entry("நடனமாடும் நிறங்கள்", "உற்சாகமான இசைக்கு நடனமாடும் நிறங்கள்")
    case (true, En) => Entry("Meditation Journey", "A peaceful journey through nature scenes")
    case (true, Hi) => Entry("ध्यान यात्रा", "प्राकृतिक दृश्यों के माध्यम से एक शांतिपूर्ण यात्रा")
    case (true, Ta) => Entry("தியான பயணம்", "இயற்கை காட்சிகள் வழியாக ஒரு அமைதியான பயணம்")
  }

  /** The music entries: happy, or calm when `calm` holds. */
  function MusicTexts(calm: bool, l: Lang): Entry {
    match (calm, l)
    case (false, En) => Entry("Joyful Melody", "An upbeat composition to lift your spirits")
    case (false, Hi) => Entry("आनंदमय धुन", "आपके मूड को बेहतर बनाने वाली एक जीवंत रचना")
    case (false, Ta) => Entry("மகிழ்ச்சியான இசை", "உங்கள் மனதை உயர்த்தும் ஒரு உற்சாகமான இசை")
    case (true, En) => Entry("Peaceful Harmony", "Soothing sounds for relaxation and meditation")
    case (true, Hi) => Entry("शांतिपूर्ण सामंजस्य", "विश्राम और ध्यान के लिए सुखदायक ध्वनियां")
    case (true, Ta) => Entry("அமைதியான இணக்கம்", "ஓய்வு மற்றும் தியானத்திற்கான அமைதியான ஒலிகள்")
  }

  /** `GeneratedContent`; the optional fields are `Option`s. */
  datatype GeneratedContent = GeneratedContent(
    mediaType: MediaType,
    title: string,
    description: string,
    url: string,
    thumbnail: Option<string>,
    duration: Option<string>)

  const Origin: string := "https://example.com/"
  const ThumbnailBase: string := "https://picsum.photos/300/200?random="
  const ClipLength: string := "2:30"

  /** The shape of every generated item: the url starts at the demo origin,
      only videos have a thumbnail, and videos and music last 2:30. */
  predicate WellFormed(c: GeneratedContent) {
    && |Origin| < |c.url| && c.url[..|Origin|] == Origin
    && (c.thumbnail.Some? <==> c.mediaType == VideoMedia)
    && c.duration == (if c.mediaType == ImageMedia then None else Some(ClipLength))
  }

  /** `https://example.com/${type}/${Date.now()}`. */
  function Url(t: MediaType, now: nat): (url: string)
    ensures |url| == |Origin| + |t.Name()| + 1 + |NatToString(now)|
    ensures url[..|Origin|] == Origin
    ensures url[|url| - |NatToString(now)|..] == NatToString(now)
  {
    Origin + t.Name() + "/" + NatToString(now)
  }

  /** The item `generateContent(t)` builds for the current mood and language. */
  function NewContent(t: MediaType, mood: string, language: string, now: nat, thumbNow: nat): (c: GeneratedContent)
    ensures WellFormed(c) && c.mediaType == t
  {
    var e := Texts(t, ChosenMood(t, mood), LangOf(language));
    GeneratedContent(
      t, e.title, e.description,
      Url(t, now),
      if t == VideoMedia then Some(ThumbnailBase + NatToString(thumbNow)) else None,
      if t == VideoMedia || t == MusicMedia then Some(ClipLength) else None)
  }

  /** The url path splits at '/' into the type name and the timestamp. */
  lemma UrlReadsBack(t: MediaType, now: nat)
    ensures |Origin| < |Url(t, now)| && Url(t, now)[..|Origin|] == Origin
    ensures Split(Url(t, now)[|Origin|..], '/') == [t.Name(), NatToString(now)]
  {
    var parts := [t.Name(), NatToString(now)];
    assert Url(t, now)[|Origin|..] == Join(parts, '/') by {
      assert parts[1..] == [NatToString(now)];
    }
    assert forall i :: 0 <= i < |parts| ==> '/' !in parts[i];
    SplitJoin(parts, '/');
  }

  /** A mood the type has no entry for produces exactly the happy item. */
  lemma MissingMoodUsesHappy(t: MediaType, mood: string, language: string, now: nat, thumbNow: nat)
    requires DefinedMood(t, mood).None?
    ensures NewContent(t, mood, language, now, thumbNow) == NewContent(t, "happy", language, now, thumbNow)
  {
  }

  /** Videos and music have no sad entry, so a sad mood gets the happy one. */
  lemma SadVideoAndMusicAreHappy(t: MediaType, mood: string, language: string, now: nat, thumbNow: nat)
    requires t != ImageMedia && mood == "sad"
    ensures NewContent(t, mood, language, now, thumbNow) == NewContent(t, "happy", language, now, thumbNow)
  {
    MissingMoodUsesHappy(t, mood, language, now, thumbNow);
  }

  /** A language other than en, hi and ta produces exactly the English item. */
  lemma UnknownLanguageUsesEnglish(t: MediaType, mood: string, language: string, now: nat, thumbNow: nat)
    requires language != "en" && language != "hi" && language != "ta"
    ensures NewContent(t, mood, language, now, thumbNow) == NewContent(t, mood, "en", now, thumbNow)
  {
  }

  /** An entry of `spotifyPlaylists`. */
  datatype Playlist = Playlist(id: nat, name: string, artist: string, mood: string, language: string)

  function Playlists(): seq<Playlist> {
    [ Playlist(1, "Bollywood Hits", "Various Artists", "happy", "hi"),
      Playlist(2, "Tamil Melodies", "A.R. Rahman", "calm", "ta"),
      Playlist(3, "Bengali Classics", "Rabindranath Tagore", "peaceful", "bn"),
      Playlist(4, "Punjabi Beats", "Diljit Dosanjh", "energetic", "pa"),
      Playlist(5, "Gujarati Folk", "Traditional", "cultural", "gu"),
      Playlist(6, "Telugu Hits", "Ilaiyaraaja", "romantic", "te"),
      Playlist(7, "Marathi Songs", "Ajay-Atul", "festive", "mr"),
      Playlist(8, "Kannada Classics", "Hamsalekha", "nostalgic", "kn") ]
  }

  /** The playlist ids are 1 to 8 in order, hence pairwise distinct. */
  lemma PlaylistIdsAreOneToEight()
    ensures |Playlists()| == 8
    ensures forall i :: 0 <= i < |Playlists()| ==> Playlists()[i].id == i + 1
    ensures forall i, j :: 0 <= i < j < |Playlists()| ==> Playlists()[i].id != Playlists()[j].id
  {
  }

  datatype MediaState = MediaState(
    activeTab: Tab,
    isGenerating: bool,
    items: seq<GeneratedContent>,
    isPlaying: bool,
    currentTrack: Option<nat>)

  const Initial: MediaState := MediaState(MediaTab(ImageMedia), false, [], false, None)

  /** `playSpotifyTrack`: the track becomes current and playback starts. */
  function PlayTrack(s: MediaState, id: nat): (u: MediaState)
    ensures u.currentTrack == Some(id) && u.isPlaying
    ensures u.activeTab == s.activeTab && u.items == s.items && u.isGenerating == s.isGenerating
  {
    s.(currentTrack := Some(id), isPlaying := true)
  }

  /** A playlist card shows the pause icon. */
  predicate ShowsPause(s: MediaState, id: nat) {
    s.currentTrack == Some(id) && s.isPlaying
  }

  /** After a card is clicked, that card and no other shows the pause icon. */
  lemma ClickedCardAloneShowsPause(s: MediaState, i: nat, j: nat)
    requires i < |Playlists()| && j < |Playlists()|
    ensures ShowsPause(PlayTrack(s, Playlists()[i].id), Playlists()[j].id) <==> i == j
  {
    PlaylistIdsAreOneToEight();
  }

  function SelectTab(s: MediaState, tab: Tab): (u: MediaState)
    ensures u.activeTab == tab && u.items == s.items && u.isGenerating == s.isGenerating
    ensures u.currentTrack == s.currentTrack && u.isPlaying == s.isPlaying
  {
    s.(activeTab := tab)
  }

  /** The start of `generateContent`, before the simulated delay. */
  function BeginGenerate(s: MediaState): (u: MediaState)
    ensures u.isGenerating && u.items == s.items && u.activeTab == s.activeTab
  {
    s.(isGenerating := true)
  }

  /** The end of `generateContent(t)`: the new item goes in front. */
  function FinishGenerate(s: MediaState, t: MediaType, mood: string, language: string, now: nat, thumbNow: nat): (u: MediaState)
    ensures !u.isGenerating && u.activeTab == s.activeTab
    ensures |u.items| == |s.items| + 1 && u.items[1..] == s.items
    ensures u.items[0].mediaType == t && WellFormed(u.items[0])
    ensures u.currentTrack == s.currentTrack && u.isPlaying == s.isPlaying
  {
    s.(items := [NewContent(t, mood, language, now, thumbNow)] + s.items, isGenerating := false)
  }

  /** `generatedContent.filter(content => content.type === activeTab)`. */
  function Visible(items: seq<GeneratedContent>, t: MediaType): (shown: seq<GeneratedContent>)
    ensures forall i :: 0 <= i < |shown| ==> shown[i].mediaType == t && shown[i] in items
    ensures forall i :: 0 <= i < |items| && items[i].mediaType == t ==> items[i] in shown
  {
    Seqs.Filter(items, (c: GeneratedContent) => c.mediaType == t)
  }

  /** "No {activeTab} generated yet." on a media tab. */
  predicate ShowsEmptyMessage(s: MediaState) {
    s.activeTab.MediaTab? && |Visible(s.items, s.activeTab.media)| == 0
  }

  /** On a media tab, the empty message shows exactly when no item has that type. */
  lemma EmptyMessageIffNoneOfType(s: MediaState)
    requires s.activeTab.MediaTab?
    ensures ShowsEmptyMessage(s) <==> forall i :: 0 <= i < |s.items| ==> s.items[i].mediaType != s.activeTab.media
  {
    Seqs.FilterEmptyIff(s.items, (c: GeneratedContent) => c.mediaType == s.activeTab.media);
  }

  /** The shown cards are an order-preserving selection of exactly the items of the tab's type. */
  lemma VisibleIsTypeSubsequence(items: seq<GeneratedContent>, t: MediaType)
    ensures Seqs.IsSubsequence(Visible(items, t), items)
    ensures forall i :: 0 <= i < |Visible(items, t)| ==> Visible(items, t)[i].mediaType == t
    ensures forall i :: 0 <= i < |items| && items[i].mediaType == t ==> items[i] in Visible(items, t)
  {
    Seqs.FilterIsSubsequence(items, (c: GeneratedContent) => c.mediaType == t);
  }

  /** A finished item heads the list of its type; other types' lists are unchanged. */
  lemma FinishedItemHeadsItsType(s: MediaState, t: MediaType, mood: string, language: string, now: nat, thumbNow: nat, shown: MediaType)
    ensures var u := FinishGenerate(s, t, mood, language, now, thumbNow);
      Visible(u.items, shown) ==
        if t == shown then [u.items[0]] + Visible(s.items, shown)
        else Visible(s.items, shown)
  {
    var u := FinishGenerate(s, t, mood, language, now, thumbNow);
    Seqs.FilterPrepend(u.items[0], s.items, (c: GeneratedContent) => c.mediaType == shown);
  }

  /** The user actions. The generate button exists only on a media tab, is
      disabled while generating, and generates the active tab's type; the
      completion carries that type, since the tab may change meanwhile. */
  datatype MediaEvent =
    | TabClicked(tab: Tab)
    | GenerateClicked
    | Finished(t: MediaType, mood: string, language: string, now: nat, thumbNow: nat)
    | PlaylistClicked(index: nat)

  function Step(s: MediaState, e: MediaEvent): MediaState {
    match e
    case TabClicked(tab) => SelectTab(s, tab)
    case GenerateClicked => if s.isGenerating || !s.activeTab.MediaTab? then s else BeginGenerate(s)
    case Finished(t, mood, language, now, thumbNow) => FinishGenerate(s, t, mood, language, now, thumbNow)
    case PlaylistClicked(i) =>
      if s.activeTab == SpotifyTab && i < |Playlists()| then PlayTrack(s, Playlists()[i].id) else s
  }

  function Run(s: MediaState, events: seq<MediaEvent>): MediaState
    decreases |events|
  {
    if |events| == 0 then s else Run(Step(s, events[0]), events[1..])
  }

  predicate AllWellFormed(items: seq<GeneratedContent>) {
    forall i :: 0 <= i < |items| ==> WellFormed(items[i])
  }

  /** Whatever the user does, every generated item keeps its shape, and a
      current track, once there is one, is always a playlist id. */
  lemma {:induction false} RunKeepsShape(s: MediaState, events: seq<MediaEvent>)
    requires AllWellFormed(s.items)
    requires s.currentTrack.Some? ==> 1 <= s.currentTrack.value <= 8
    ensures AllWellFormed(Run(s, events).items)
    ensures Run(s, events).currentTrack.Some? ==> 1 <= Run(s, events).currentTrack.value <= 8
    decreases |events|
  {
    if |events| > 0 {
      StepKeepsShape(s, events[0]);
      RunKeepsShape(Step(s, events[0]), events[1..]);
    }
  }

  lemma StepKeepsShape(s: MediaState, e: MediaEvent)
    requires AllWellFormed(s.items)
    requires s.currentTrack.Some? ==> 1 <= s.currentTrack.value <= 8
    ensures AllWellFormed(Step(s, e).items)
    ensures Step(s, e).currentTrack.Some? ==> 1 <= Step(s, e).currentTrack.value <= 8
  {
    match e
    case Finished(t, mood, language, now, thumbNow) =>
      PrependKeepsWellFormed(NewContent(t, mood, language, now, thumbNow), s.items);
    case PlaylistClicked(i) =>
      PlaylistIdsAreOneToEight();
    case _ =>
  }

  lemma PrependKeepsWellFormed(c: GeneratedContent, items: seq<GeneratedContent>)
    requires WellFormed(c) && AllWellFormed(items)
    ensures AllWellFormed([c] + items)
  {
    Seqs.AllPrepend(c, items, WellFormed);
  }
}
