/** The preset picker of `AvatarGallery.tsx`: twelve preset avatars in four
    categories, the category filter behind each tab, the record look-ups
    that render a preset, and the selection that hands a plain
    avatar to `onSelect`. */
module AvatarGallery {
  import opened Wrappers
  import Seqs
  import AvatarCreator

  datatype Category = Popular | New | Premium | Seasonal {
    function Id(): string {
      match this
      case Popular => "popular"
      case New => "new"
      case Premium => "premium"
      case Seasonal => "seasonal"
    }
  }

  /** `PresetAvatar`: an `AvatarConfig` plus id, category, description and likes. */
  datatype PresetAvatar = PresetAvatar(
    id: string,
    emoji: string,
    style: string,
    color: string,
    accessory: string,
    background: string,
    name: string,
    category: Category,
    description: string,
    likes: nat)

  /** The twelve presets of `presetAvatars`, one constructor each. */
  datatype Preset =
    | SunnySmile | StarLeader | PeacefulBlossom | WiseButterfly
    | CreativeSpirit | PassionateFire | RainbowHope
    | RoyalAdvisor | DiamondSoul | MagicalUnicorn
    | SummerSunflower | WinterCrystal
  {
    function Id(): string {
      match this
      case SunnySmile => "1"
      case StarLeader => "2"
      case PeacefulBlossom => "3"
      case WiseButterfly => "4"
      case CreativeSpirit => "5"
      case PassionateFire => "6"
      case RainbowHope => "7"
      case RoyalAdvisor => "8"
      case DiamondSoul => "9"
      case MagicalUnicorn => "10"
      case SummerSunflower => "11"
      case WinterCrystal => "12"
    }

    function Emoji(): string {
      match this
      case SunnySmile => "😊"
      case StarLeader => "🌟"
      case PeacefulBlossom => "🌸"
      case WiseButterfly => "🦋"
      case CreativeSpirit => "🎭"
      case PassionateFire => "🔥"
      case RainbowHope => "🌈"
      case RoyalAdvisor => "👑"
      case DiamondSoul => "💎"
      case MagicalUnicorn => "🦄"
      case SummerSunflower => "🌻"
      case WinterCrystal => "❄️"
    }

    function Style(): string {
      match this
      case SunnySmile => "friendly"
      case StarLeader => "energetic"
      case PeacefulBlossom => "calm"
      case WiseButterfly => "wise"
      case CreativeSpirit => "playful"
      case PassionateFire => "energetic"
      case RainbowHope => "friendly"
      case RoyalAdvisor => "wise"
      case DiamondSoul => "mysterious"
      case MagicalUnicorn => "playful"
      case SummerSunflower => "energetic"
      case WinterCrystal => "calm"
    }

    function Color(): string {
      match this
      case SunnySmile => "#3B82F6"
      case StarLeader => "#F59E0B"
      case PeacefulBlossom => "#EC4899"
      case WiseButterfly => "#8B5CF6"
      case CreativeSpirit => "#EF4444"
      case PassionateFire => "#F97316"
      case RainbowHope => "#10B981"
      case RoyalAdvisor => "#6366F1"
      case DiamondSoul => "#06B6D4"
      case MagicalUnicorn => "#EC4899"
      case SummerSunflower => "#F59E0B"
      case WinterCrystal => "#06B6D4"
    }

    function Accessory(): string {
      match this
      case SunnySmile => "none"
      case StarLeader => "crown"
      case PeacefulBlossom => "flower"
      case WiseButterfly => "sparkle"
      case CreativeSpirit => "star"
      case PassionateFire => "none"
      case RainbowHope => "heart"
      case RoyalAdvisor => "crown"
      case DiamondSoul => "sparkle"
      case MagicalUnicorn => "star"
      case SummerSunflower => "flower"
      case WinterCrystal => "sparkle"
    }

    function Background(): string {
      match this
      case SunnySmile => "gradient1"
      case StarLeader => "gradient4"
      case PeacefulBlossom => "gradient3"
      case WiseButterfly => "gradient6"
      case CreativeSpirit => "gradient2"
      case PassionateFire => "gradient1"
      case RainbowHope => "gradient5"
      case RoyalAdvisor => "gradient4"
      case DiamondSoul => "gradient6"
      case MagicalUnicorn => "gradient4"
      case SummerSunflower => "gradient1"
      case WinterCrystal => "gradient2"
    }

    function Name(): string {
      match this
      case SunnySmile => "Sunny Smile"
      case StarLeader => "Star Leader"
      case PeacefulBlossom => "Peaceful Blossom"
      case WiseButterfly => "Wise Butterfly"
      case CreativeSpirit => "Creative Spirit"
      case PassionateFire => "Passionate Fire"
      case RainbowHope => "Rainbow Hope"
      case RoyalAdvisor => "Royal Advisor"
      case DiamondSoul => "Diamond Soul"
      case MagicalUnicorn => "Magical Unicorn"
      case SummerSunflower => "Summer Sunflower"
      case WinterCrystal => "Winter Crystal"
    }

    function Category(): Category {
      match this
      case SunnySmile => Popular
      case StarLeader => Popular
      case PeacefulBlossom => Popular
      case WiseButterfly => Popular
      case CreativeSpirit => New
      case PassionateFire => New
      case RainbowHope => New
      case RoyalAdvisor => Premium
      case DiamondSoul => Premium
      case MagicalUnicorn => Premium
      case SummerSunflower => Seasonal
      case WinterCrystal => Seasonal
    }

    function Description(): string {
      match this
      case SunnySmile => "A cheerful and welcoming avatar perfect for making new friends"
      case StarLeader => "Confident and inspiring, great for community helpers"
      case PeacefulBlossom => "Serene and gentle, perfect for mindful conversations"
      case WiseButterfly => "Thoughtful and insightful, ideal for deep discussions"
      case CreativeSpirit => "Artistic and expressive, perfect for creative minds"
      case PassionateFire => "Bold and determined, great for motivational support"
      case RainbowHope => "Optimistic and colorful, spreads joy wherever they go"
      case RoyalAdvisor => "Majestic and knowledgeable, for experienced helpers"
      case DiamondSoul => "Rare and precious, for special community members"
      case MagicalUnicorn => "Enchanting and unique, brings magic to conversations"
      case SummerSunflower => "Bright and warm, perfect for summer vibes"
      case WinterCrystal => "Cool and serene, brings winter peace"
    }

    function Likes(): nat {
      match this
      case SunnySmile => 1247
      case StarLeader => 892
      case PeacefulBlossom => 756
      case WiseButterfly => 634
      case CreativeSpirit => 123
      case PassionateFire => 89
      case RainbowHope => 67
      case RoyalAdvisor => 445
      case DiamondSoul => 321
      case MagicalUnicorn => 567
      case SummerSunflower => 234
      case WinterCrystal => 189
    }

    function Record(): PresetAvatar {
      PresetAvatar(Id(), Emoji(), Style(), Color(), Accessory(), Background(), Name(),
        Category(), Description(), Likes())
    }
  }

  /** The presets in display order. */
  function Presets(): seq<Preset> {
    [ SunnySmile, StarLeader, PeacefulBlossom, WiseButterfly,
      CreativeSpirit, PassionateFire, RainbowHope,
      RoyalAdvisor, DiamondSoul, MagicalUnicorn,
      SummerSunflower, WinterCrystal ]
  }

  /** `avatarStyles[style]`. */
  function StyleEntry(style: string): Option<string> {
    match style
    case "friendly" => Some("from-blue-400 to-blue-600")
    case "energetic" => Some("from-orange-400 to-red-500")
    case "calm" => Some("from-green-400 to-green-600")
    case "wise" => Some("from-purple-400 to-purple-600")
    case "playful" => Some("from-pink-400 to-pink-600")
    case "mysterious" => Some("from-gray-600 to-gray-800")
    case _ => None
  }

  /** `backgrounds[background]`. */
  function BackgroundEntry(background: string): Option<string> {
    match background
    case "gradient1" => Some("from-orange-400 via-red-500 to-pink-500")
    case "gradient2" => Some("from-blue-400 via-blue-500 to-blue-600")
    case "gradient3" => Some("from-green-400 via-green-500 to-green-600")
    case "gradient4" => Some("from-purple-400 via-pink-500 to-red-500")
    case "gradient5" => Some("from-yellow-400 via-orange-500 to-red-500")
    case "gradient6" => Some("from-indigo-400 via-purple-500 to-pink-500")
    case _ => None
  }

  /** `accessories[accessory]`. */
  function AccessoryEntry(accessory: string): Option<string> {
    match accessory
    case "none" => Some("")
    case "crown" => Some("👑")
    case "glasses" => Some("👓")
    case "hat" => Some("🎩")
    case "flower" => Some("🌸")
    case "star" => Some("⭐")
    case "heart" => Some("💖")
    case "sparkle" => Some("✨")
    case _ => None
  }

  /** `getStyleGradient`: the entry, or the blue gradient for an unknown key. */
  function StyleGradient(style: string): (g: string)
    ensures StyleEntry(style).None? ==> g == AvatarCreator.DefaultStyleGradient
  {
    AvatarCreator.OrFallback(StyleEntry(style), AvatarCreator.DefaultStyleGradient)
  }

  /** `getBackgroundGradient`: the entry, or the sunset gradient for an unknown key. */
  function BackgroundGradient(background: string): (g: string)
    ensures BackgroundEntry(background).None? ==> g == AvatarCreator.SunsetGradient
  {
    AvatarCreator.OrFallback(BackgroundEntry(background), AvatarCreator.SunsetGradient)
  }

  /** `getAccessoryEmoji`: the entry, or nothing for an unknown key. */
  function AccessoryEmoji(accessory: string): (e: string)
    ensures AccessoryEntry(accessory).None? ==> e == ""
  {
    AvatarCreator.OrFallback(AccessoryEntry(accessory), "")
  }

  /** The gallery's style record holds exactly the editor's style table. */
  lemma StyleEntriesMatchEditor(style: string)
    ensures StyleEntry(style).Some? <==> AvatarCreator.IsStyleId(style)
    ensures forall s: AvatarCreator.Style :: StyleEntry(s.Id()) == Some(s.Gradient())
  {
    forall s: AvatarCreator.Style ensures StyleEntry(s.Id()) == Some(s.Gradient()) {
      match s
      case Friendly =>
      case Energetic =>
      case CalmStyle =>
      case Wise =>
      case Playful =>
      case Mysterious =>
    }
    if StyleEntry(style).Some? {
      var s: AvatarCreator.Style :=
        match style
        case "friendly" => AvatarCreator.Friendly
        case "energetic" => AvatarCreator.Energetic
        case "calm" => AvatarCreator.CalmStyle
        case "wise" => AvatarCreator.Wise
        case "playful" => AvatarCreator.Playful
        case _ => AvatarCreator.Mysterious;
      assert s.Id() == style;
    }
  }

  /** The gallery's background record holds exactly the editor's background table. */
  lemma BackgroundEntriesMatchEditor(background: string)
    ensures BackgroundEntry(background).Some? <==> AvatarCreator.IsBackgroundId(background)
    ensures forall b: AvatarCreator.Background :: BackgroundEntry(b.Id()) == Some(b.Gradient())
  {
    forall b: AvatarCreator.Background ensures BackgroundEntry(b.Id()) == Some(b.Gradient()) {
      match b
      case Sunset =>
      case Ocean =>
      case Forest =>
      case Galaxy =>
      case Dawn =>
      case Twilight =>
    }
    if BackgroundEntry(background).Some? {
      var b: AvatarCreator.Background :=
        match background
        case "gradient1" => AvatarCreator.Sunset
        case "gradient2" => AvatarCreator.Ocean
        case "gradient3" => AvatarCreator.Forest
        case "gradient4" => AvatarCreator.Galaxy
        case "gradient5" => AvatarCreator.Dawn
        case _ => AvatarCreator.Twilight;
      assert b.Id() == background;
    }
  }

  /** The gallery's accessory record holds exactly the editor's accessory table. */
  lemma AccessoryEntriesMatchEditor(accessory: string)
    ensures AccessoryEntry(accessory).Some? <==> AvatarCreator.IsAccessoryId(accessory)
    ensures forall x: AvatarCreator.Accessory :: AccessoryEntry(x.Id()) == Some(x.Emoji())
  {
    forall x: AvatarCreator.Accessory ensures AccessoryEntry(x.Id()) == Some(x.Emoji()) {
      match x
      case NoAccessory =>
      case Crown =>
      case Glasses =>
      case Hat =>
      case Flower =>
      case Star =>
      case Heart =>
      case Sparkle =>
    }
    if AccessoryEntry(accessory).Some? {
      var x: AvatarCreator.Accessory :=
        match accessory
        case "none" => AvatarCreator.NoAccessory
        case "crown" => AvatarCreator.Crown
        case "glasses" => AvatarCreator.Glasses
        case "hat" => AvatarCreator.Hat
        case "flower" => AvatarCreator.Flower
        case "star" => AvatarCreator.Star
        case "heart" => AvatarCreator.Heart
        case _ => AvatarCreator.Sparkle;
      assert x.Id() == accessory;
    }
  }

  /** The gallery renders every style key, known or not, exactly as the editor does. */
  lemma StyleRenderingAgrees(style: string)
    ensures StyleGradient(style) == AvatarCreator.StyleGradient(style)
  {
    StyleEntriesMatchEditor(style);
    if AvatarCreator.IsStyleId(style) {
      var s: AvatarCreator.Style :| s.Id() == style;
      AvatarCreator.KnownStyleGradient(s);
    }
  }

  /** The gallery renders every background key exactly as the editor does. */
  lemma BackgroundRenderingAgrees(background: string)
    ensures BackgroundGradient(background) == AvatarCreator.BackgroundGradient(background)
  {
    BackgroundEntriesMatchEditor(background);
    if AvatarCreator.IsBackgroundId(background) {
      var b: AvatarCreator.Background :| b.Id() == background;
      AvatarCreator.KnownBackgroundGradient(b);
    }
  }

  /** The gallery renders every accessory key exactly as the editor does. */
  lemma AccessoryRenderingAgrees(accessory: string)
    ensures AccessoryEmoji(accessory) == AvatarCreator.AccessoryEmoji(accessory)
  {
    AccessoryEntriesMatchEditor(accessory);
    if AvatarCreator.IsAccessoryId(accessory) {
      var x: AvatarCreator.Accessory :| x.Id() == accessory;
      AvatarCreator.KnownAccessoryEmoji(x);
    }
  }

  /** A preset's position in `Presets()`. */
  function Position(p: Preset): (i: nat)
    ensures i < |Presets()| && Presets()[i] == p
  {
    match p
    case SunnySmile => 0
    case StarLeader => 1
    case PeacefulBlossom => 2
    case WiseButterfly => 3
    case CreativeSpirit => 4
    case PassionateFire => 5
    case RainbowHope => 6
    case RoyalAdvisor => 7
    case DiamondSoul => 8
    case MagicalUnicorn => 9
    case SummerSunflower => 10
    case WinterCrystal => 11
  }

  /** No preset falls back: its style, background and accessory are keys of the records. */
  lemma PresetsUseKnownKeys(p: Preset)
    ensures StyleEntry(p.Style()).Some?
    ensures BackgroundEntry(p.Background()).Some?
    ensures AccessoryEntry(p.Accessory()).Some?
  {
  }

  /** The preset a card id names, if any. */
  function PresetOfId(id: string): Option<Preset> {
    match id
    case "1" => Some(SunnySmile)
    case "2" => Some(StarLeader)
    case "3" => Some(PeacefulBlossom)
    case "4" => Some(WiseButterfly)
    case "5" => Some(CreativeSpirit)
    case "6" => Some(PassionateFire)
    case "7" => Some(RainbowHope)
    case "8" => Some(RoyalAdvisor)
    case "9" => Some(DiamondSoul)
    case "10" => Some(MagicalUnicorn)
    case "11" => Some(SummerSunflower)
    case "12" => Some(WinterCrystal)
    case _ => None
  }

  /** A preset's id names that preset and no other, so the twelve ids are distinct. */
  lemma IdReadsBack(p: Preset)
    ensures PresetOfId(p.Id()) == Some(p)
  {
  }

  function InCategory(c: Category): Preset -> bool {
    (p: Preset) => p.Category() == c
  }

  /** `filteredAvatars`. */
  function Filtered(c: Category): (shown: seq<Preset>)
    ensures forall i :: 0 <= i < |shown| ==> shown[i].Category() == c
  {
    Seqs.Filter(Presets(), InCategory(c))
  }

  /** The tabs keep the display order of the presets. */
  lemma FilteredKeepsOrder(c: Category)
    ensures Seqs.IsSubsequence(Filtered(c), Presets())
  {
    Seqs.FilterIsSubsequence(Presets(), InCategory(c));
  }

  /** A preset is shown on a tab exactly when it belongs to that tab's
      category, so the four tabs partition the gallery. */
  lemma ShownIffInCategory(p: Preset, c: Category)
    ensures p in Filtered(c) <==> p.Category() == c
  {
    var i := Position(p);
    assert Presets()[i] == p;
    if p in Filtered(c) {
      var k :| 0 <= k < |Filtered(c)| && Filtered(c)[k] == p;
      assert InCategory(c)(Filtered(c)[k]);
    }
  }

  /** `handleSelect`: the `AvatarConfig` part of a preset. */
  function Select(p: PresetAvatar): (a: AvatarCreator.AvatarConfig)
    ensures a.emoji == p.emoji && a.style == p.style && a.color == p.color
    ensures a.accessory == p.accessory && a.background == p.background && a.name == p.name
  {
    AvatarCreator.AvatarConfig(p.emoji, p.style, p.color, p.accessory, p.background, p.name)
  }

  /** A preset as an `AvatarConfig` extended with the gallery's fields. */
  function Extend(a: AvatarCreator.AvatarConfig, id: string, category: Category, description: string, likes: nat): PresetAvatar {
    PresetAvatar(id, a.emoji, a.style, a.color, a.accessory, a.background, a.name, category, description, likes)
  }

  /** Selecting drops exactly the gallery's own fields: extending and
      selecting are inverse in both directions. */
  lemma SelectDropsOnlyGalleryFields(a: AvatarCreator.AvatarConfig, p: PresetAvatar, id: string, category: Category, description: string, likes: nat)
    ensures Select(Extend(a, id, category, description, likes)) == a
    ensures Extend(Select(p), p.id, p.category, p.description, p.likes) == p
  {
  }

  /** The gallery's own state: the category tab and the highlighted card. */
  datatype GalleryState = GalleryState(selectedCategory: Category, selectedAvatar: Option<string>)

  const Initial: GalleryState := GalleryState(Popular, None)

  /** Clicking a category tab switches the tab and keeps the highlight. */
  function SelectCategory(s: GalleryState, c: Category): (u: GalleryState)
    ensures u.selectedCategory == c && u.selectedAvatar == s.selectedAvatar
  {
    s.(selectedCategory := c)
  }

  /** Clicking a card highlights it by id. */
  function ClickCard(s: GalleryState, p: PresetAvatar): (u: GalleryState)
    ensures u.selectedAvatar == Some(p.id) && u.selectedCategory == s.selectedCategory
  {
    s.(selectedAvatar := Some(p.id))
  }

  predicate Highlighted(s: GalleryState, p: PresetAvatar) {
    s.selectedAvatar == Some(p.id)
  }

  /** After a card is clicked, it is the only highlighted preset. */
  lemma ClickedCardAloneHighlighted(s: GalleryState, p: Preset, q: Preset)
    ensures Highlighted(ClickCard(s, p.Record()), q.Record()) <==> p == q
  {
    IdReadsBack(p);
    IdReadsBack(q);
  }

  /** "No avatars found in this category." */
  predicate ShowsEmptyMessage(s: GalleryState) {
    |Filtered(s.selectedCategory)| == 0
  }

  /** One preset of each category. */
  function Representative(c: Category): (p: Preset)
    ensures p.Category() == c
  {
    match c
    case Popular => SunnySmile
    case New => CreativeSpirit
    case Premium => RoyalAdvisor
    case Seasonal => SummerSunflower
  }

  /** Every category has presets, so the empty message never shows. */
  lemma NeverShowsEmptyMessage(s: GalleryState)
    ensures !ShowsEmptyMessage(s)
  {
    ShownIffInCategory(Representative(s.selectedCategory), s.selectedCategory);
  }

  /** "Select Avatar": `onSelect` receives the preset's plain avatar and the gallery closes. */
  datatype Selection = Selection(chosen: AvatarCreator.AvatarConfig, isOpen: bool)

  function SelectAvatar(p: PresetAvatar): (r: Selection)
    ensures !r.isOpen
    ensures r.chosen == Select(p)
  {
    Selection(Select(p), false)
  }
}
