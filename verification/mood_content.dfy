/** The feed of `MoodContentGenerator.tsx`: a tab per content type, a button
    that turns the current mood into a templated art, music, story or image
    item with a random like count, and the list of generated items filtered
    by the active tab. `Date.now()` is the parameter `now`, `Math.random()`
    the parameter `r`. */
module MoodContent {
  import opened Text
  import Random
  import Seqs

  datatype ContentType = Art | Music | Story | Image {
    /** The union member `'art' | 'music' | 'story' | 'image'`. */
    function Name(): string {
      match this
      case Art => "art"
      case Music => "music"
      case Story => "story"
      case Image => "image"
    }
  }

  /** The four moods the template table defines. */
  datatype MoodKey = HappyKey | SadKey | AnxiousKey | NeutralKey

  /** `contentTemplates[type][currentMood] || contentTemplates[type].neutral`:
      the mood whose entry is used, every undefined mood using neutral. */
  function MoodKeyOf(mood: string): (k: MoodKey)
    ensures k == HappyKey <==> mood == "happy"
    ensures k == SadKey <==> mood == "sad"
    ensures k == AnxiousKey <==> mood == "anxious"
    ensures k == NeutralKey <==> mood != "happy" && mood != "sad" && mood != "anxious"
  {
    if mood == "happy" then HappyKey
    else if mood == "sad" then SadKey
    else if mood == "anxious" then AnxiousKey
    else NeutralKey
  }

  function KeyName(k: MoodKey): string {
    match k
    case HappyKey => "happy"
    case SadKey => "sad"
    case AnxiousKey => "anxious"
    case NeutralKey => "neutral"
  }

  /** A mood that names a table entry selects that entry; `KeyName` and
      `MoodKeyOf` are inverse on the four keys. */
  lemma KeyNameReadsBack(k: MoodKey)
    ensures MoodKeyOf(KeyName(k)) == k
  {
  }

  datatype Template = Template(title: string, content: string)

  /** The `contentTemplates` table. */
  function Templates(t: ContentType, k: MoodKey): Template {
    match t
    case Art => ArtTemplates(k)
    case Music => MusicTemplates(k)
    case Story => StoryTemplates(k)
    case Image => ImageTemplates(k)
  }

  function ArtTemplates(k: MoodKey): Template {
    match k
    case HappyKey => Template("Sunshine Meadow", "A vibrant digital painting featuring a sunlit meadow with wildflowers dancing in the breeze. Golden sunlight filters through fluffy white clouds, casting warm shadows on emerald grass. Butterflies with iridescent wings flutter between daisies and poppies, while a gentle stream reflects the azure sky. The artwork uses warm yellows, bright oranges, and soft greens to evoke pure joy and celebration of life's beautiful moments.")
    case SadKey => Template("Gentle Rain", "A serene watercolor depicting soft rain falling on a quiet pond surrounded by weeping willows. The muted palette of blues, grays, and gentle purples creates a peaceful atmosphere for reflection. Ripples spread across the water's surface as raindrops create delicate patterns. A small wooden bench sits empty under a willow tree, inviting contemplation and healing.")
    case AnxiousKey => Template("Mountain Sanctuary", "A calming landscape showing a pristine mountain lake at dawn. Mist rises gently from the still water while the first rays of sunlight paint the sky in soft pastels. Pine trees stand as silent guardians around the lake, their reflection creating perfect symmetry. The artwork uses cool blues, soft pinks, and peaceful whites to promote tranquility and inner peace.")
    case NeutralKey => Template("Zen Garden", "A minimalist composition featuring a traditional Japanese zen garden. Carefully raked sand creates flowing patterns around three perfectly placed stones. A single cherry blossom branch extends into the frame, its delicate pink petals contrasting with the monochromatic sand. The artwork emphasizes balance, simplicity, and mindful presence.")
  }

  function MusicTemplates(k: MoodKey): Template {
    match k
    case HappyKey => Template("Uplifting Vibes Playlist", "🎵 Feel-Good Anthems:\n• 'Good as Hell' by Lizzo - Empowering self-love anthem\n• 'Happy' by Pharrell Williams - Infectious joy and positivity\n• 'Can't Stop the Feeling' by Justin Timberlake - Pure dance energy\n• 'Walking on Sunshine' by Katrina & The Waves - Classic feel-good vibes\n• 'Best Day of My Life' by American Authors - Optimistic indie rock\n\n🎼 Bonus: Add some upbeat acoustic covers and world music for variety!")
    case SadKey => Template("Healing Harmonies", "🎵 Emotional Release & Comfort:\n• 'Mad World' by Gary Jules - Cathartic and understanding\n• 'The Night We Met' by Lord Huron - Beautiful melancholy\n• 'Breathe Me' by Sia - Raw vulnerability and hope\n• 'Hurt' by Johnny Cash - Deep emotional resonance\n• 'Black' by Pearl Jam - Processing difficult emotions\n\n🎼 Follow with gentle instrumentals by Ólafur Arnalds for healing.")
    case AnxiousKey => Template("Calming Soundscapes", "🎵 Anxiety Relief & Relaxation:\n• 'Weightless' by Marconi Union - Scientifically proven to reduce anxiety\n• 'Spiegel im Spiegel' by Arvo Pärt - Minimalist peace\n• 'On Earth as It Is in Heaven' by Ólafur Arnalds - Ethereal calm\n• Nature sounds: Rain, ocean waves, forest ambience\n• Binaural beats at 40Hz for focus and calm\n\n🎼 Perfect for meditation and deep breathing exercises.")
    case NeutralKey => Template("Ambient Exploration", "🎵 Contemplative Soundscapes:\n• 'Music for Airports' by Brian Eno - Pioneering ambient music\n• Lo-fi hip hop beats - Gentle rhythm for reflection\n• 'Sleep Baby Sleep' by Broods - Dreamy and introspective\n• Instrumental versions of favorite songs\n• Classical piano pieces by Ludovico Einaudi\n\n🎼 Perfect background for journaling or quiet activities.")
  }

  function StoryTemplates(k: MoodKey): Template {
    match k
    case HappyKey => Template("The Music Box Memory", "Maya discovered her grandmother's old music box in the attic, its tiny ballerina frozen mid-spin. As she wound the delicate key, a familiar melody filled the dusty space—the same tune her grandmother hummed while baking cookies. Suddenly, Maya was eight again, dancing in the kitchen while flour dusted the counters and love filled the air.\n\nThe music box became Maya's daily reminder that joy lives in the smallest moments. Every morning, she would wind it up and let the melody fill her heart with gratitude. The tiny ballerina spun with renewed purpose, carrying forward the love that transcends time and connects generations through the simple magic of a cherished memory.")
    case SadKey => Template("The Lighthouse Keeper's Wisdom", "The old oak tree had weathered countless storms, its branches scarred but unbroken. Emma often sat beneath its protective canopy when life felt overwhelming, finding comfort in its steady presence. One autumn day, she noticed new growth sprouting from what appeared to be a dead branch—tiny green leaves reaching toward the light.\n\nThe tree seemed to whisper its ancient wisdom: even in our darkest moments, new life finds a way to emerge. Healing doesn't erase our scars; it transforms them into sources of strength. Emma touched the rough bark and felt the tree's resilience flow into her own heart, reminding her that growth often comes from the places where we've been most broken.")
    case AnxiousKey => Template("The Steady Light", "The lighthouse keeper had one sacred duty: to keep the beacon burning for ships lost in the fog. During fierce storms when visibility was zero, the keeper couldn't see beyond the tower walls. Yet they trusted that their light was reaching those who needed it most, cutting through darkness and uncertainty.\n\nLike the lighthouse keeper, we don't always see the impact of our presence in the world. But our steady light—our kindness, our persistence, our simple act of showing up—guides others through their darkest moments. Sometimes, being a beacon of hope is enough, even when we can't see the ships we're helping to safety.")
    case NeutralKey => Template("The Library Cat's Philosophy", "The library cat wandered between towering shelves with unhurried grace, neither seeking nor avoiding the visitors who paused to watch. Its peaceful journey through the quiet aisles reminded everyone that not every moment needs to be filled with purpose or intense emotion.\n\nVisitors often found themselves slowing down, inspired by the cat's contentment with simply being present. In a world that demands constant motion and feeling, the cat offered a different wisdom: sometimes the most beautiful thing we can do is exist peacefully, allowing life to unfold naturally around us while we remain centered in the gentle rhythm of our own breath.")
  }

  function ImageTemplates(k: MoodKey): Template {
    match k
    case HappyKey => Template("Joyful Mandala", "A vibrant mandala design featuring sunburst patterns in warm yellows and oranges, with intricate geometric flowers radiating from the center. The design incorporates symbols of happiness: butterflies, hearts, and spiraling energy patterns that seem to dance with life. Perfect for coloring or meditation, this mandala captures the essence of pure joy and celebration.")
    case SadKey => Template("Healing Waters", "A gentle abstract image of flowing water in soft blues and purples, with subtle silver highlights that catch the light like tears transformed into something beautiful. The flowing patterns suggest movement and release, while the cool colors provide comfort and peace. This image serves as a visual reminder that emotions, like water, are meant to flow and eventually find their way to calm.")
    case AnxiousKey => Template("Breathing Circles", "A series of concentric circles in calming gradients from deep blue to soft white, designed to guide breathing exercises. Each circle represents an inhale or exhale, with gentle pulsing animations that help regulate breathing patterns. The image includes subtle nature elements like leaves and clouds to connect the viewer with the natural rhythm of breath and life.")
    case NeutralKey => Template("Balanced Stones", "A minimalist image of perfectly balanced river stones stacked in harmony, photographed against a soft, neutral background. The composition emphasizes balance, stability, and the beauty found in simplicity. Each stone represents a moment of mindfulness, creating a visual metaphor for finding equilibrium in life's constant changes.")
  }

  /** `ContentItem`; the `Date` timestamp is the millisecond count it was built from. */
  datatype ContentItem = ContentItem(
    id: string,
    contentType: ContentType,
    title: string,
    content: string,
    mood: string,
    timestamp: nat,
    likes: nat)

  /** An item as `generateContent` builds it: title and content from the
      template its type and mood select, and a like count in [10, 59]. */
  predicate FromTemplate(item: ContentItem) {
    var tpl := Templates(item.contentType, MoodKeyOf(item.mood));
    && item.title == tpl.title
    && item.content == tpl.content
    && 10 <= item.likes <= 59
  }

  /** `Math.floor(Math.random() * 50) + 10`. */
  function Likes(r: real): (n: nat)
    requires Random.IsUnitSample(r)
    ensures 10 <= n <= 59
  {
    Random.PickIndex(r, 50) + 10
  }

  /** Every like count in [10, 59] is drawn by some sample. */
  lemma EveryLikeCountReachable(n: nat)
    requires 10 <= n <= 59
    ensures Random.IsUnitSample((n - 10) as real / 50.0)
    ensures Likes((n - 10) as real / 50.0) == n
  {
    Random.EveryIndexReachable(n - 10, 50);
  }

  /** The item built for `type` in mood `mood`; the mood is recorded as given,
      even when the template lookup fell back to neutral. */
  function NewItem(t: ContentType, mood: string, now: nat, r: real): (item: ContentItem)
    requires Random.IsUnitSample(r)
    ensures FromTemplate(item)
    ensures item.contentType == t && item.mood == mood
    ensures item.timestamp == now && item.id == NatToString(now)
  {
    var tpl := Templates(t, MoodKeyOf(mood));
    ContentItem(NatToString(now), t, tpl.title, tpl.content, mood, now, Likes(r))
  }

  /** The id is the decimal rendering of the creation time, which reads back from it. */
  lemma IdRecordsTime(t: ContentType, mood: string, now: nat, r: real)
    requires Random.IsUnitSample(r)
    ensures var id := NewItem(t, mood, now, r).id;
      (forall i :: 0 <= i < |id| ==> IsDigit(id[i])) && ParseNat(id) == now
  {
    ParseNatToString(now);
  }

  /** A mood outside the table gets the neutral template of its type. */
  lemma UndefinedMoodUsesNeutral(t: ContentType, mood: string, now: nat, r: real)
    requires Random.IsUnitSample(r)
    requires mood != "happy" && mood != "sad" && mood != "anxious"
    ensures NewItem(t, mood, now, r).title == Templates(t, NeutralKey).title
    ensures NewItem(t, mood, now, r).content == Templates(t, NeutralKey).content
    ensures NewItem(t, mood, now, r).mood == mood
  {
  }

  datatype GeneratorState = GeneratorState(
    activeTab: ContentType,
    items: seq<ContentItem>,
    isGenerating: bool)

  const Initial: GeneratorState := GeneratorState(Art, [], false)

  /** A tab button. */
  function SelectTab(s: GeneratorState, tab: ContentType): (u: GeneratorState)
    ensures u.activeTab == tab && u.items == s.items && u.isGenerating == s.isGenerating
  {
    s.(activeTab := tab)
  }

  /** The start of `generateContent`, before the simulated delay. */
  function BeginGenerate(s: GeneratorState): (u: GeneratorState)
    ensures u.isGenerating
    ensures u.items == s.items && u.activeTab == s.activeTab
  {
    s.(isGenerating := true)
  }

  /** The end of `generateContent(t)`: the new item goes in front. The type
      is the tab active at the click, which need not be the active tab now. */
  function FinishGenerate(s: GeneratorState, t: ContentType, mood: string, now: nat, r: real): (u: GeneratorState)
    requires Random.IsUnitSample(r)
    ensures !u.isGenerating && u.activeTab == s.activeTab
    ensures |u.items| == |s.items| + 1 && u.items[1..] == s.items
    ensures FromTemplate(u.items[0]) && u.items[0].contentType == t && u.items[0].mood == mood
    ensures u.items[0].id == NatToString(now) && u.items[0].timestamp == now
  {
    s.(items := [NewItem(t, mood, now, r)] + s.items, isGenerating := false)
  }

  /** The item cards: `generatedContent.filter(item => item.type === activeTab)`. */
  function Visible(items: seq<ContentItem>, tab: ContentType): (shown: seq<ContentItem>)
    ensures forall i :: 0 <= i < |shown| ==> shown[i].contentType == tab && shown[i] in items
    ensures forall i :: 0 <= i < |items| && items[i].contentType == tab ==> items[i] in shown
  {
    Seqs.Filter(items, (item: ContentItem) => item.contentType == tab)
  }

  /** The "No {tab} content generated yet." placeholder. */
  predicate ShowsPlaceholder(s: GeneratorState) {
    |Visible(s.items, s.activeTab)| == 0
  }

  /** The visible cards are, in order, a selection of the items, exactly those of the active type. */
  lemma VisibleIsTabSubsequence(s: GeneratorState)
    ensures Seqs.IsSubsequence(Visible(s.items, s.activeTab), s.items)
    ensures forall i :: 0 <= i < |Visible(s.items, s.activeTab)| ==> Visible(s.items, s.activeTab)[i].contentType == s.activeTab
    ensures forall i :: 0 <= i < |s.items| && s.items[i].contentType == s.activeTab ==> s.items[i] in Visible(s.items, s.activeTab)
  {
    Seqs.FilterIsSubsequence(s.items, (item: ContentItem) => item.contentType == s.activeTab);
  }

  /** The placeholder shows exactly when no item has the active tab's type. */
  lemma PlaceholderIffNoneOfTab(s: GeneratorState)
    ensures ShowsPlaceholder(s) <==> forall i :: 0 <= i < |s.items| ==> s.items[i].contentType != s.activeTab
  {
    Seqs.FilterEmptyIff(s.items, (item: ContentItem) => item.contentType == s.activeTab);
  }

  /** A finished item of the active type heads the visible list; one of
      another type leaves the visible list as it was. */
  lemma FinishedItemHeadsItsTab(s: GeneratorState, t: ContentType, mood: string, now: nat, r: real)
    requires Random.IsUnitSample(r)
    ensures var u := FinishGenerate(s, t, mood, now, r);
      Visible(u.items, s.activeTab) ==
        if t == s.activeTab then [u.items[0]] + Visible(s.items, s.activeTab)
        else Visible(s.items, s.activeTab)
  {
    var u := FinishGenerate(s, t, mood, now, r);
    Seqs.FilterPrepend(u.items[0], s.items, (item: ContentItem) => item.contentType == s.activeTab);
  }

  /** `getMoodColor`: the header and button gradient. */
  function MoodColor(mood: string): (g: string)
    ensures mood == "happy" ==> g == "from-yellow-400 to-orange-500"
    ensures mood == "sad" ==> g == "from-blue-400 to-blue-600"
    ensures mood == "anxious" ==> g == "from-purple-400 to-purple-600"
    ensures mood == "excited" ==> g == "from-pink-400 to-red-500"
    ensures mood == "calm" ==> g == "from-green-400 to-green-600"
    ensures g == "from-gray-400 to-gray-600" <==>
      mood != "happy" && mood != "sad" && mood != "anxious" && mood != "excited" && mood != "calm"
  {
    match mood
    case "happy" => "from-yellow-400 to-orange-500"
    case "sad" => "from-blue-400 to-blue-600"
    case "anxious" => "from-purple-400 to-purple-600"
    case "excited" => "from-pink-400 to-red-500"
    case "calm" => "from-green-400 to-green-600"
    case _ => "from-gray-400 to-gray-600"
  }

  /** The user actions; `Finished` carries the type captured at the click. */
  datatype GeneratorEvent =
    | TabClicked(tab: ContentType)
    | GenerateClicked
    | Finished(t: ContentType, mood: string, now: nat, r: real)

  predicate ValidEvent(e: GeneratorEvent) {
    e.Finished? ==> Random.IsUnitSample(e.r)
  }

  function Step(s: GeneratorState, e: GeneratorEvent): GeneratorState
    requires ValidEvent(e)
  {
    match e
    case TabClicked(tab) => SelectTab(s, tab)
    case GenerateClicked => if s.isGenerating then s else BeginGenerate(s)
    case Finished(t, mood, now, r) => FinishGenerate(s, t, mood, now, r)
  }

  function Run(s: GeneratorState, events: seq<GeneratorEvent>): GeneratorState
    requires forall i :: 0 <= i < |events| ==> ValidEvent(events[i])
    decreases |events|
  {
    if |events| == 0 then s else Run(Step(s, events[0]), events[1..])
  }

  /** The shape every stored item has: its id is its creation time in
      decimal, and its title, content and like count are as the template
      table builds them. */
  predicate WellFormed(item: ContentItem) {
    item.id == NatToString(item.timestamp) && FromTemplate(item)
  }

  predicate AllWellFormed(items: seq<ContentItem>) {
    forall i :: 0 <= i < |items| ==> WellFormed(items[i])
  }

  /** Whatever the user does, every item in the feed keeps that shape. */
  lemma {:induction false} RunKeepsItemsWellFormed(s: GeneratorState, events: seq<GeneratorEvent>)
    requires AllWellFormed(s.items)
    requires forall i :: 0 <= i < |events| ==> ValidEvent(events[i])
    ensures AllWellFormed(Run(s, events).items)
    decreases |events|
  {
    if |events| > 0 {
      StepKeepsItemsWellFormed(s, events[0]);
      RunKeepsItemsWellFormed(Step(s, events[0]), events[1..]);
    }
  }

  lemma StepKeepsItemsWellFormed(s: GeneratorState, e: GeneratorEvent)
    requires AllWellFormed(s.items) && ValidEvent(e)
    ensures AllWellFormed(Step(s, e).items)
  {
    if e.Finished? {
      FinishKeepsItemsWellFormed(s, e.t, e.mood, e.now, e.r);
    }
  }

  lemma FinishKeepsItemsWellFormed(s: GeneratorState, t: ContentType, mood: string, now: nat, r: real)
    requires Random.IsUnitSample(r)
    requires AllWellFormed(s.items)
    ensures AllWellFormed(FinishGenerate(s, t, mood, now, r).items)
  {
    var item := NewItem(t, mood, now, r);
    Seqs.AllPrepend(item, s.items, WellFormed);
  }
}
