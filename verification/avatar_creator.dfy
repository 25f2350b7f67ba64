/** The avatar editor of `AvatarCreator.tsx`: five option tables, the
    look-ups that turn an avatar's ids into gradients and an accessory emoji,
    the pickers that each set one field, the shuffle button and the save
    callback. `Math.random()` is passed in as one sample per field. */
module AvatarCreator {
  import opened Wrappers
  import Random
  import Seqs

  /** `AvatarConfig`, shared with the gallery and the virtual world. */
  datatype AvatarConfig = AvatarConfig(
    emoji: string,
    style: string,
    color: string,
    accessory: string,
    background: string,
    name: string)

  /** The `avatarStyles` entries, with their id, label and gradient. */
  datatype Style = Friendly | Energetic | CalmStyle | Wise | Playful | Mysterious {
    function Id(): string {
      match this
      case Friendly => "friendly"
      case Energetic => "energetic"
      case CalmStyle => "calm"
      case Wise => "wise"
      case Playful => "playful"
      case Mysterious => "mysterious"
    }
    function Label(): string {
      match this
      case Friendly => "Friendly"
      case Energetic => "Energetic"
      case CalmStyle => "Calm"
      case Wise => "Wise"
      case Playful => "Playful"
      case Mysterious => "Mysterious"
    }
    function Gradient(): string {
      match this
      case Friendly => "from-blue-400 to-blue-600"
      case Energetic => "from-orange-400 to-red-500"
      case CalmStyle => "from-green-400 to-green-600"
      case Wise => "from-purple-400 to-purple-600"
      case Playful => "from-pink-400 to-pink-600"
      case Mysterious => "from-gray-600 to-gray-800"
    }
  }

  /** The `accessories` entries, with their id, label and emoji. */
  datatype Accessory = NoAccessory | Crown | Glasses | Hat | Flower | Star | Heart | Sparkle {
    function Id(): string {
      match this
      case NoAccessory => "none"
      case Crown => "crown"
      case Glasses => "glasses"
      case Hat => "hat"
      case Flower => "flower"
      case Star => "star"
      case Heart => "heart"
      case Sparkle => "sparkle"
    }
    function Label(): string {
      match this
      case NoAccessory => "None"
      case Crown => "Crown"
      case Glasses => "Glasses"
      case Hat => "Hat"
      case Flower => "Flower"
      case Star => "Star"
      case Heart => "Heart"
      case Sparkle => "Sparkle"
    }
    function Emoji(): string {
      match this
      case NoAccessory => ""
      case Crown => "👑"
      case Glasses => "👓"
      case Hat => "🎩"
      case Flower => "🌸"
      case Star => "⭐"
      case Heart => "💖"
      case Sparkle => "✨"
    }
  }

  /** The `backgrounds` entries, with their id, label and gradient. */
  datatype Background = Sunset | Ocean | Forest | Galaxy | Dawn | Twilight {
    function Id(): string {
      match this
      case Sunset => "gradient1"
      case Ocean => "gradient2"
      case Forest => "gradient3"
      case Galaxy => "gradient4"
      case Dawn => "gradient5"
      case Twilight => "gradient6"
    }
    function Label(): string {
      match this
      case Sunset => "Sunset"
      case Ocean => "Ocean"
      case Forest => "Forest"
      case Galaxy => "Galaxy"
      case Dawn => "Dawn"
      case Twilight => "Twilight"
    }
    function Gradient(): string {
      match this
      case Sunset => "from-orange-400 via-red-500 to-pink-500"
      case Ocean => "from-blue-400 via-blue-500 to-blue-600"
      case Forest => "from-green-400 via-green-500 to-green-600"
      case Galaxy => "from-purple-400 via-pink-500 to-red-500"
      case Dawn => "from-yellow-400 via-orange-500 to-red-500"
      case Twilight => "from-indigo-400 via-purple-500 to-pink-500"
    }
  }

  function Emojis(): seq<string> {
    [ "😊", "😎", "🤗", "😇", "🥰", "😌", "🤔", "😴", "🤓", "😋",
      "🌟", "🌈", "🌸", "🌺", "🌻", "🌷", "🌹", "🦋", "🐱", "🐶",
      "🦊", "🐼", "🐨", "🦁", "🐯", "🐸", "🐙", "🦄", "🐲", "👑",
      "💎", "⭐", "🔥", "💫", "✨", "🎭", "🎨", "🎪", "🎯", "🎲" ]
  }

  function Styles(): seq<Style> {
    [Friendly, Energetic, CalmStyle, Wise, Playful, Mysterious]
  }

  function Colors(): seq<string> {
    [ "#3B82F6", "#EF4444", "#10B981", "#F59E0B", "#8B5CF6",
      "#EC4899", "#06B6D4", "#84CC16", "#F97316", "#6366F1" ]
  }

  function Accessories(): seq<Accessory> {
    [NoAccessory, Crown, Glasses, Hat, Flower, Star, Heart, Sparkle]
  }

  function Backgrounds(): seq<Background> {
    [Sunset, Ocean, Forest, Galaxy, Dawn, Twilight]
  }

  const DefaultStyleGradient: string := "from-blue-400 to-blue-600"
  const SunsetGradient: string := "from-orange-400 via-red-500 to-pink-500"

  /** JavaScript `found?.field || fallback` for a string field: a missing
      entry and an empty string both give the fallback. */
  function OrFallback(found: Option<string>, fallback: string): (r: string)
    ensures found.Some? && found.value != "" ==> r == found.value
    ensures found.None? || found.value == "" ==> r == fallback
  {
    match found
    case Some(v) => if v == "" then fallback else v
    case None => fallback
  }

  predicate IsStyleId(id: string) {
    exists s: Style :: s.Id() == id
  }

  predicate IsAccessoryId(id: string) {
    exists x: Accessory :: x.Id() == id
  }

  predicate IsBackgroundId(id: string) {
    exists g: Background :: g.Id() == id
  }

  /** Ids name their entries: no two entries of a table share one. */
  lemma StyleIdInjective(s: Style, t: Style)
    requires s.Id() == t.Id()
    ensures s == t
  {
    assert s.Id()[0] == t.Id()[0];
  }

  lemma AccessoryIdInjective(x: Accessory, y: Accessory)
    requires x.Id() == y.Id()
    ensures x == y
  {
    assert x.Id()[0] == y.Id()[0];
    assert |x.Id()| == |y.Id()|;
  }

  lemma BackgroundIdInjective(g: Background, h: Background)
    requires g.Id() == h.Id()
    ensures g == h
  {
    assert g.Id()[8] == h.Id()[8];
  }

  /** `getStyleGradient`. */
  function StyleGradient(style: string): (g: string)
    ensures !IsStyleId(style) ==> g == DefaultStyleGradient
  {
    var found := Seqs.Find(Styles(), (s: Style) => s.Id() == style);
    if found.None? then OrFallback(None, DefaultStyleGradient)
    else OrFallback(Some(found.value.Gradient()), DefaultStyleGradient)
  }

  /** `getBackgroundGradient`. */
  function BackgroundGradient(background: string): (g: string)
    ensures !IsBackgroundId(background) ==> g == SunsetGradient
  {
    var found := Seqs.Find(Backgrounds(), (b: Background) => b.Id() == background);
    if found.None? then OrFallback(None, SunsetGradient)
    else OrFallback(Some(found.value.Gradient()), SunsetGradient)
  }

  /** `getAccessoryEmoji`. */
  function AccessoryEmoji(accessory: string): (e: string)
    ensures !IsAccessoryId(accessory) ==> e == ""
  {
    var found := Seqs.Find(Accessories(), (x: Accessory) => x.Id() == accessory);
    if found.None? then OrFallback(None, "")
    else OrFallback(Some(found.value.Emoji()), "")
  }

  /** Every listed style renders its own gradient. */
  lemma KnownStyleGradient(s: Style)
    ensures StyleGradient(s.Id()) == s.Gradient()
  {
    FindStyle(s);
  }

  lemma FindStyle(s: Style)
    ensures Seqs.Find(Styles(), (t: Style) => t.Id() == s.Id()) == Some(s)
  {
    assert s in Styles();
    var found := Seqs.Find(Styles(), (t: Style) => t.Id() == s.Id());
    StyleIdInjective(found.value, s);
  }

  /** Every listed background renders its own gradient. */
  lemma KnownBackgroundGradient(b: Background)
    ensures BackgroundGradient(b.Id()) == b.Gradient()
  {
    FindBackground(b);
  }

  lemma FindBackground(b: Background)
    ensures Seqs.Find(Backgrounds(), (h: Background) => h.Id() == b.Id()) == Some(b)
  {
    assert b in Backgrounds();
    var found := Seqs.Find(Backgrounds(), (h: Background) => h.Id() == b.Id());
    BackgroundIdInjective(found.value, b);
  }

  /** Every listed accessory renders its own emoji (the empty one for `none`). */
  lemma KnownAccessoryEmoji(x: Accessory)
    ensures AccessoryEmoji(x.Id()) == x.Emoji()
  {
    FindAccessory(x);
  }

  lemma FindAccessory(x: Accessory)
    ensures Seqs.Find(Accessories(), (y: Accessory) => y.Id() == x.Id()) == Some(x)
  {
    assert x in Accessories();
    var found := Seqs.Find(Accessories(), (y: Accessory) => y.Id() == x.Id());
    AccessoryIdInjective(found.value, x);
  }

  /** Every field other than the name holds a value its picker offers. */
  predicate InOptions(a: AvatarConfig) {
    && a.emoji in Emojis()
    && IsStyleId(a.style)
    && a.color in Colors()
    && IsAccessoryId(a.accessory)
    && IsBackgroundId(a.background)
  }

  /** The avatar the editor starts from when none is supplied. */
  const DefaultAvatar: AvatarConfig := AvatarConfig("😊", "friendly", "#3B82F6", "none", "gradient1", "My Avatar")

  /** `useState(currentAvatar || {...})`: a supplied avatar is always truthy. */
  function InitialAvatar(current: Option<AvatarConfig>): (a: AvatarConfig)
    ensures current.Some? ==> a == current.value
    ensures current.None? ==> a == DefaultAvatar && InOptions(a)
  {
    assert Friendly.Id() == "friendly" && NoAccessory.Id() == "none" && Sunset.Id() == "gradient1";
    current.GetOr(DefaultAvatar)
  }

  /** `randomizeAvatar`: one draw per table; the name is kept. */
  function Randomize(a: AvatarConfig, rEmoji: real, rStyle: real, rColor: real, rAccessory: real, rBackground: real): (b: AvatarConfig)
    requires Random.IsUnitSample(rEmoji) && Random.IsUnitSample(rStyle) && Random.IsUnitSample(rColor)
    requires Random.IsUnitSample(rAccessory) && Random.IsUnitSample(rBackground)
    ensures b.name == a.name
    ensures InOptions(b)
  {
    var s := Random.PickIndex(rStyle, |Styles()|);
    var x := Random.PickIndex(rAccessory, |Accessories()|);
    var g := Random.PickIndex(rBackground, |Backgrounds()|);
    assert IsStyleId(Styles()[s].Id());
    assert IsAccessoryId(Accessories()[x].Id());
    assert IsBackgroundId(Backgrounds()[g].Id());
    AvatarConfig(
      Emojis()[Random.PickIndex(rEmoji, |Emojis()|)],
      Styles()[s].Id(),
      Colors()[Random.PickIndex(rColor, |Colors()|)],
      Accessories()[x].Id(),
      Backgrounds()[g].Id(),
      a.name)
  }

  /** Every combination of options can come out of the shuffle. */
  lemma EveryCombinationReachable(a: AvatarConfig, e: nat, s: nat, c: nat, x: nat, g: nat)
    requires e < |Emojis()| && s < |Styles()| && c < |Colors()| && x < |Accessories()| && g < |Backgrounds()|
    ensures Random.IsUnitSample(e as real / |Emojis()| as real)
    ensures Random.IsUnitSample(s as real / |Styles()| as real)
    ensures Random.IsUnitSample(c as real / |Colors()| as real)
    ensures Random.IsUnitSample(x as real / |Accessories()| as real)
    ensures Random.IsUnitSample(g as real / |Backgrounds()| as real)
    ensures Randomize(a, e as real / |Emojis()| as real, s as real / |Styles()| as real, c as real / |Colors()| as real,
                      x as real / |Accessories()| as real, g as real / |Backgrounds()| as real)
         == AvatarConfig(Emojis()[e], Styles()[s].Id(), Colors()[c], Accessories()[x].Id(), Backgrounds()[g].Id(), a.name)
  {
    Random.EveryIndexReachable(e, |Emojis()|);
    Random.EveryIndexReachable(s, |Styles()|);
    Random.EveryIndexReachable(c, |Colors()|);
    Random.EveryIndexReachable(x, |Accessories()|);
    Random.EveryIndexReachable(g, |Backgrounds()|);
  }

  datatype Field = EmojiField | StyleField | ColorField | AccessoryField | BackgroundField | NameField

  function Get(a: AvatarConfig, f: Field): string {
    match f
    case EmojiField => a.emoji
    case StyleField => a.style
    case ColorField => a.color
    case AccessoryField => a.accessory
    case BackgroundField => a.background
    case NameField => a.name
  }

  /** A picker action: one of the option buttons, or an edit of the name box. */
  datatype Pick =
    | EmojiPick(emoji: string)
    | StylePick(style: Style)
    | ColorPick(color: string)
    | AccessoryPick(accessory: Accessory)
    | BackgroundPick(background: Background)
    | NameEdit(name: string)
  {
    /** The emoji and colour buttons are the entries of their lists. */
    predicate Valid() {
      match this
      case EmojiPick(e) => e in Emojis()
      case ColorPick(c) => c in Colors()
      case _ => true
    }

    function Target(): Field {
      match this
      case EmojiPick(_) => EmojiField
      case StylePick(_) => StyleField
      case ColorPick(_) => ColorField
      case AccessoryPick(_) => AccessoryField
      case BackgroundPick(_) => BackgroundField
      case NameEdit(_) => NameField
    }

    /** The value the button or text box carries. */
    function Value(): string {
      match this
      case EmojiPick(e) => e
      case StylePick(st) => st.Id()
      case ColorPick(c) => c
      case AccessoryPick(x) => x.Id()
      case BackgroundPick(g) => g.Id()
      case NameEdit(name) => name
    }
  }

  /** `setAvatar({ ...avatar, field: value })`: the target field takes the
      picked value and every other field is unchanged. */
  function Apply(a: AvatarConfig, p: Pick): (b: AvatarConfig)
    ensures Get(b, p.Target()) == p.Value()
    ensures forall f :: f != p.Target() ==> Get(b, f) == Get(a, f)
  {
    match p
    case EmojiPick(_) => a.(emoji := p.Value())
    case StylePick(_) => a.(style := p.Value())
    case ColorPick(_) => a.(color := p.Value())
    case AccessoryPick(_) => a.(accessory := p.Value())
    case BackgroundPick(_) => a.(background := p.Value())
    case NameEdit(_) => a.(name := p.Value())
  }

  /** The editor's tabs. */
  datatype CreatorTab = EmojiTab | StyleTab | ColorTab | AccessoryTab | BackgroundTab

  datatype CreatorState = CreatorState(avatar: AvatarConfig, activeTab: CreatorTab)

  function Mount(current: Option<AvatarConfig>): CreatorState {
    CreatorState(InitialAvatar(current), EmojiTab)
  }

  /** `handleSave`: the avatar handed to `onSave`, exactly as edited. */
  function Save(s: CreatorState): (saved: AvatarConfig)
    ensures saved == s.avatar
  {
    s.avatar
  }

  datatype CreatorEvent =
    | Picked(p: Pick)
    | Shuffled(rEmoji: real, rStyle: real, rColor: real, rAccessory: real, rBackground: real)
    | TabSelected(tab: CreatorTab)

  predicate ValidEvent(e: CreatorEvent) {
    match e
    case Picked(p) => p.Valid()
    case Shuffled(a, b, c, d, g) =>
      Random.IsUnitSample(a) && Random.IsUnitSample(b) && Random.IsUnitSample(c) &&
      Random.IsUnitSample(d) && Random.IsUnitSample(g)
    case TabSelected(_) => true
  }

  function Step(s: CreatorState, e: CreatorEvent): CreatorState
    requires ValidEvent(e)
  {
    match e
    case Picked(p) => s.(avatar := Apply(s.avatar, p))
    case Shuffled(a, b, c, d, g) => s.(avatar := Randomize(s.avatar, a, b, c, d, g))
    case TabSelected(tab) => s.(activeTab := tab)
  }

  function Run(s: CreatorState, events: seq<CreatorEvent>): CreatorState
    requires forall i :: 0 <= i < |events| ==> ValidEvent(events[i])
    decreases |events|
  {
    if |events| == 0 then s else Run(Step(s, events[0]), events[1..])
  }

  lemma StepKeepsInOptions(s: CreatorState, e: CreatorEvent)
    requires ValidEvent(e) && InOptions(s.avatar)
    ensures InOptions(Step(s, e).avatar)
  {
    if e.Picked? {
      match e.p {
        case StylePick(st) => assert IsStyleId(st.Id());
        case AccessoryPick(x) => assert IsAccessoryId(x.Id());
        case BackgroundPick(g) => assert IsBackgroundId(g.Id());
        case _ =>
      }
    }
  }

  /** Starting from options, no sequence of picks, shuffles and tab changes
      produces an avatar the pickers do not offer (the name aside). */
  lemma {:induction false} RunKeepsInOptions(s: CreatorState, events: seq<CreatorEvent>)
    requires forall i :: 0 <= i < |events| ==> ValidEvent(events[i])
    requires InOptions(s.avatar)
    ensures InOptions(Run(s, events).avatar)
    decreases |events|
  {
    if |events| > 0 {
      StepKeepsInOptions(s, events[0]);
      RunKeepsInOptions(Step(s, events[0]), events[1..]);
    }
  }
}
