/** The shared space of `VirtualWorld.tsx`: the seeded community members and
    achievements, the header counters, the user card and its detail modal,
    the current user's avatar with its hand-written rendering, and the two
    avatar dialogs (editor and gallery) that replace that avatar. */
module VirtualWorld {
  import opened Wrappers
  import Seqs
  import AvatarCreator
  import AvatarGallery

  /** `VirtualUser`; the map position is kept as the two percentages. */
  datatype VirtualUser = VirtualUser(
    id: string,
    name: string,
    avatar: string,
    mood: string,
    isOnline: bool,
    x: nat,
    y: nat,
    level: nat,
    badges: seq<string>,
    supportGiven: nat,
    supportReceived: nat,
    isHelper: bool)

  /** The four members of the `users` state. */
  function Users(): seq<VirtualUser> {
    [ VirtualUser("1", "Alex", "🌟", "peaceful", true, 20, 30, 8, ["🏆", "💝"], 25, 18, true),
      VirtualUser("2", "Sam", "🌸", "hopeful", true, 60, 45, 3, ["🤝"], 8, 12, false),
      VirtualUser("3", "Jordan", "🌈", "calm", true, 40, 70, 12, ["👑", "🏆", "💝", "🎭"], 50, 30, true),
      VirtualUser("4", "Riley", "🦋", "grateful", false, 75, 25, 6, ["💝", "🤝"], 15, 20, false) ]
  }

  datatype Achievement = Achievement(
    id: string,
    title: string,
    description: string,
    icon: string,
    unlocked: bool,
    progress: nat,
    maxProgress: nat)

  datatype UserStats = UserStats(
    level: nat,
    xp: nat,
    xpToNext: nat,
    connectionsToday: nat,
    supportGiven: nat,
    achievements: seq<Achievement>)

  /** The seeded `userStats`. */
  function InitialStats(): UserStats {
    UserStats(5, 1250, 1500, 3, 12, [
      Achievement("1", "First Connection", "Made your first connection", "🤝", true, 1, 1),
      Achievement("2", "Supportive Friend", "Helped 10 people", "💝", true, 10, 10),
      Achievement("3", "Mood Master", "Shared 50 mood updates", "🎭", false, 23, 50),
      Achievement("4", "Community Builder", "Connected 100 people", "🏗️", false, 45, 100)])
  }

  /** `getMoodColor`. */
  function MoodColor(mood: string): (c: string)
    ensures mood == "peaceful" ==> c == "bg-blue-400"
    ensures mood == "hopeful" ==> c == "bg-green-400"
    ensures mood == "calm" ==> c == "bg-purple-400"
    ensures mood == "grateful" ==> c == "bg-yellow-400"
    ensures c == "bg-gray-400" <==> mood !in {"peaceful", "hopeful", "calm", "grateful"}
  {
    match mood
    case "peaceful" => "bg-blue-400"
    case "hopeful" => "bg-green-400"
    case "calm" => "bg-purple-400"
    case "grateful" => "bg-yellow-400"
    case _ => "bg-gray-400"
  }

  /** Every seeded member has one of the four coloured moods. */
  lemma SeededMoodsAreColoured(i: nat)
    requires i < |Users()|
    ensures MoodColor(Users()[i].mood) != "bg-gray-400"
  {
  }

  predicate IsOnline(u: VirtualUser) {
    u.isOnline
  }

  /** The "N online" counter. */
  function OnlineCount(users: seq<VirtualUser>): (n: nat)
    ensures n <= |users|
    ensures n == 0 <==> forall i :: 0 <= i < |users| ==> !users[i].isOnline
  {
    Seqs.Count(users, IsOnline)
  }

  /** The buttons of the detail modal. */
  datatype Action = StartConversation | SendSupport | RequestProfessionalHelp

  /** Online members offer a conversation and support, helpers also
      professional help; offline members offer nothing. */
  function Actions(u: VirtualUser): (r: seq<Action>)
    ensures |r| > 0 <==> u.isOnline
    ensures RequestProfessionalHelp in r <==> u.isOnline && u.isHelper
    ensures u.isOnline ==> |r| >= 2 && r[..2] == [StartConversation, SendSupport]
  {
    if u.isOnline then
      [StartConversation, SendSupport] + (if u.isHelper then [RequestProfessionalHelp] else [])
    else []
  }

  predicate OffersActions(u: VirtualUser) {
    |Actions(u)| > 0
  }

  /** Filters with pointwise-equal predicates are equal. */
  lemma {:induction false} FilterSamePredicate(users: seq<VirtualUser>)
    ensures Seqs.Filter(users, IsOnline) == Seqs.Filter(users, OffersActions)
    decreases |users|
  {
    if |users| > 0 {
      FilterSamePredicate(users[1..]);
    }
  }

  /** The header's online counter counts exactly the members whose modal offers actions. */
  lemma OnlineCountIsActionable(users: seq<VirtualUser>)
    ensures OnlineCount(users) == Seqs.Count(users, OffersActions)
  {
    FilterSamePredicate(users);
  }

  /** Of the seeded members, all but Riley are online. */
  lemma SeededOnlineCount()
    ensures OnlineCount(Users()) == 3
  {
    var us := Users();
    assert us == [us[0]] + ([us[1]] + ([us[2]] + [us[3]]));
    Seqs.FilterPrepend(us[0], [us[1]] + ([us[2]] + [us[3]]), IsOnline);
    Seqs.FilterPrepend(us[1], [us[2]] + [us[3]], IsOnline);
    Seqs.FilterPrepend(us[2], [us[3]], IsOnline);
    Seqs.FilterPrepend(us[3], [], IsOnline);
  }

  /** The card under a member shows at most the first three badges;
      the modal shows them all. */
  function BadgePreview(u: VirtualUser): (b: seq<string>)
    ensures |b| == if |u.badges| < 3 then |u.badges| else 3
    ensures b <= u.badges
  {
    if |u.badges| <= 3 then u.badges else u.badges[..3]
  }

  /** Only Jordan, with four badges, has one hidden on the card. */
  lemma OnlyJordanHasHiddenBadges(i: nat)
    requires i < |Users()|
    ensures BadgePreview(Users()[i]) != Users()[i].badges <==> Users()[i].name == "Jordan"
  {
  }

  predicate IsUnlocked(a: Achievement) {
    a.unlocked
  }

  /** The star counter in the header. */
  function UnlockedCount(stats: UserStats): (n: nat)
    ensures n <= |stats.achievements|
    ensures n == 0 <==> forall i :: 0 <= i < |stats.achievements| ==> !stats.achievements[i].unlocked
  {
    Seqs.Count(stats.achievements, IsUnlocked)
  }

  /** A progress bar's width in percent, `progress / maxProgress * 100`;
      with a zero maximum JavaScript yields no usable width. */
  function Percent(progress: nat, maxProgress: nat): (w: Option<real>)
    ensures w.Some? <==> maxProgress > 0
    ensures w.Some? && progress <= maxProgress ==> 0.0 <= w.value <= 100.0
    ensures w.Some? ==> (w.value == 100.0 <==> progress == maxProgress)
  {
    if maxProgress == 0 then None
    else
      var q := progress as real / maxProgress as real;
      assert q * maxProgress as real == progress as real;
      assert progress <= maxProgress ==> q <= 1.0;
      assert q == 1.0 <==> progress == maxProgress;
      Some(q * 100.0)
  }

  /** The seeded achievements are consistent: an achievement is unlocked
      exactly when its bar is full, and no bar overflows. */
  lemma SeededAchievementsConsistent(i: nat)
    requires i < |InitialStats().achievements|
    ensures var a := InitialStats().achievements[i];
      && a.progress <= a.maxProgress
      && Percent(a.progress, a.maxProgress).Some?
      && (a.unlocked <==> Percent(a.progress, a.maxProgress) == Some(100.0))
  {
  }

  /** Two of the four seeded achievements are unlocked. */
  lemma SeededUnlockedCount()
    ensures UnlockedCount(InitialStats()) == 2
  {
    var xs := InitialStats().achievements;
    assert xs == [xs[0]] + ([xs[1]] + ([xs[2]] + [xs[3]]));
    Seqs.FilterPrepend(xs[0], [xs[1]] + ([xs[2]] + [xs[3]]), IsUnlocked);
    Seqs.FilterPrepend(xs[1], [xs[2]] + [xs[3]], IsUnlocked);
    Seqs.FilterPrepend(xs[2], [xs[3]], IsUnlocked);
    Seqs.FilterPrepend(xs[3], [], IsUnlocked);
  }

  // The current user's avatar, drawn with inline ternaries rather than the
  // editor's look-ups.

  /** The background ternary: unknown ids get the sixth gradient. */
  function WorldBackground(background: string): (g: string)
    ensures g == "from-indigo-400 via-purple-500 to-pink-500" <==>
      background !in {"gradient1", "gradient2", "gradient3", "gradient4", "gradient5"}
  {
    if background == "gradient1" then "from-orange-400 via-red-500 to-pink-500"
    else if background == "gradient2" then "from-blue-400 via-blue-500 to-blue-600"
    else if background == "gradient3" then "from-green-400 via-green-500 to-green-600"
    else if background == "gradient4" then "from-purple-400 via-pink-500 to-red-500"
    else if background == "gradient5" then "from-yellow-400 via-orange-500 to-red-500"
    else "from-indigo-400 via-purple-500 to-pink-500"
  }

  /** The style ternary: unknown ids get the grey gradient. */
  function WorldStyle(style: string): (g: string)
    ensures g == "from-gray-600 to-gray-800" <==>
      style !in {"friendly", "energetic", "calm", "wise", "playful"}
  {
    if style == "friendly" then "from-blue-400 to-blue-600"
    else if style == "energetic" then "from-orange-400 to-red-500"
    else if style == "calm" then "from-green-400 to-green-600"
    else if style == "wise" then "from-purple-400 to-purple-600"
    else if style == "playful" then "from-pink-400 to-pink-600"
    else "from-gray-600 to-gray-800"
  }

  /** The accessory badge: absent for "none", else the emoji ternary
      (empty for an unknown id). */
  function WorldAccessory(accessory: string): (badge: Option<string>)
    ensures badge.None? <==> accessory == "none"
    ensures badge == Some("") <==>
      accessory !in {"none", "crown", "glasses", "hat", "flower", "star", "heart", "sparkle"}
  {
    if accessory == "none" then None
    else Some(
      if accessory == "crown" then "👑"
      else if accessory == "glasses" then "👓"
      else if accessory == "hat" then "🎩"
      else if accessory == "flower" then "🌸"
      else if accessory == "star" then "⭐"
      else if accessory == "heart" then "💖"
      else if accessory == "sparkle" then "✨"
      else "")
  }

  /** The editor's badge: shown when its look-up yields a non-empty emoji. */
  function EditorAccessory(accessory: string): Option<string> {
    var e := AvatarCreator.AccessoryEmoji(accessory);
    if e == "" then None else Some(e)
  }

  /** The ids every renderer knows. */
  predicate KnownKeys(a: AvatarCreator.AvatarConfig) {
    && AvatarCreator.IsStyleId(a.style)
    && AvatarCreator.IsBackgroundId(a.background)
    && AvatarCreator.IsAccessoryId(a.accessory)
  }

  lemma WorldStyleOfKnown(s: AvatarCreator.Style)
    ensures WorldStyle(s.Id()) == s.Gradient()
  {
    match s
    case Friendly =>
    case Energetic =>
    case CalmStyle =>
    case Wise =>
    case Playful =>
    case Mysterious =>
  }

  lemma WorldBackgroundOfKnown(b: AvatarCreator.Background)
    ensures WorldBackground(b.Id()) == b.Gradient()
  {
    match b
    case Sunset =>
    case Ocean =>
    case Forest =>
    case Galaxy =>
    case Dawn =>
    case Twilight =>
  }

  lemma WorldAccessoryOfKnown(x: AvatarCreator.Accessory)
    ensures x.Emoji() == "" <==> x.NoAccessory?
    ensures WorldAccessory(x.Id()) == if x.NoAccessory? then None else Some(x.Emoji())
  {
    match x
    case NoAccessory =>
    case Crown =>
    case Glasses =>
    case Hat =>
    case Flower =>
    case Star =>
    case Heart =>
    case Sparkle =>
  }

  /** On the ids the pickers offer, the world draws an avatar exactly as the editor does. */
  lemma KnownKeysRenderLikeEditor(a: AvatarCreator.AvatarConfig)
    requires KnownKeys(a)
    ensures WorldStyle(a.style) == AvatarCreator.StyleGradient(a.style)
    ensures WorldBackground(a.background) == AvatarCreator.BackgroundGradient(a.background)
    ensures WorldAccessory(a.accessory) == EditorAccessory(a.accessory)
  {
    var s: AvatarCreator.Style :| s.Id() == a.style;
    WorldStyleOfKnown(s);
    AvatarCreator.KnownStyleGradient(s);
    var b: AvatarCreator.Background :| b.Id() == a.background;
    WorldBackgroundOfKnown(b);
    AvatarCreator.KnownBackgroundGradient(b);
    var x: AvatarCreator.Accessory :| x.Id() == a.accessory;
    WorldAccessoryOfKnown(x);
    AvatarCreator.KnownAccessoryEmoji(x);
  }

  /** On an unknown style the two renderers fall back differently. */
  lemma UnknownStyleRendersDifferently(style: string)
    requires !AvatarCreator.IsStyleId(style)
    ensures WorldStyle(style) == "from-gray-600 to-gray-800"
    ensures AvatarCreator.StyleGradient(style) == "from-blue-400 to-blue-600"
  {
    assert AvatarCreator.Style.Friendly.Id() != style && AvatarCreator.Style.Energetic.Id() != style;
    assert AvatarCreator.Style.CalmStyle.Id() != style && AvatarCreator.Style.Wise.Id() != style;
    assert AvatarCreator.Style.Playful.Id() != style;
  }

  /** On an unknown background the two renderers fall back differently. */
  lemma UnknownBackgroundRendersDifferently(background: string)
    requires !AvatarCreator.IsBackgroundId(background)
    ensures WorldBackground(background) == "from-indigo-400 via-purple-500 to-pink-500"
    ensures AvatarCreator.BackgroundGradient(background) == "from-orange-400 via-red-500 to-pink-500"
  {
    assert AvatarCreator.Background.Sunset.Id() != background && AvatarCreator.Background.Ocean.Id() != background;
    assert AvatarCreator.Background.Forest.Id() != background && AvatarCreator.Background.Galaxy.Id() != background;
    assert AvatarCreator.Background.Dawn.Id() != background;
  }

  /** The world's own state: the open panels and dialogs, the selected
      member, the current avatar, and the state the two dialog components
      keep while mounted. */
  datatype WorldState = WorldState(
    selectedUser: Option<VirtualUser>,
    showStats: bool,
    showAchievements: bool,
    showCreator: bool,
    showGallery: bool,
    currentAvatar: AvatarCreator.AvatarConfig,
    creator: AvatarCreator.CreatorState,
    gallery: AvatarGallery.GalleryState)

  /** The world starts with the default avatar; the editor is mounted with it. */
  function Initial(): (s: WorldState)
    ensures s.currentAvatar == AvatarCreator.DefaultAvatar == s.creator.avatar
    ensures s.selectedUser.None? && !s.showCreator && !s.showGallery
  {
    WorldState(None, false, false, false, false, AvatarCreator.DefaultAvatar,
      AvatarCreator.Mount(Some(AvatarCreator.DefaultAvatar)), AvatarGallery.Initial)
  }

  datatype WorldEvent =
    | StatsClicked
    | AchievementsClicked
    | GalleryOpened
    | CreatorOpened
    | UserClicked(u: VirtualUser)
    | BackdropClicked
    | CreatorInput(e: AvatarCreator.CreatorEvent)
    | CreatorSaved
    | CreatorClosed
    | GalleryTab(c: AvatarGallery.Category)
    | GalleryCard(p: AvatarGallery.Preset)
    | GallerySelected(p: AvatarGallery.Preset)
    | GalleryClosed

  predicate ValidEvent(e: WorldEvent) {
    e.CreatorInput? ==> AvatarCreator.ValidEvent(e.e)
  }

  /** One event. Dialog input only arrives while that dialog is open.
      `reseed` says whether opening the editor re-seeds it from the
      current avatar; the component as written does not. */
  function StepWith(s: WorldState, e: WorldEvent, reseed: bool): (t: WorldState)
    requires ValidEvent(e)
    ensures t.currentAvatar != s.currentAvatar ==>
      (e.CreatorSaved? && s.showCreator) || (e.GallerySelected? && s.showGallery)
    ensures !s.showCreator && e.CreatorInput? ==> t == s
    ensures !s.showGallery && (e.GalleryTab? || e.GalleryCard? || e.GallerySelected?) ==> t == s
  {
    match e
    case StatsClicked => s.(showStats := !s.showStats)
    case AchievementsClicked => s.(showAchievements := !s.showAchievements)
    case GalleryOpened => s.(showGallery := true)
    case CreatorOpened =>
      if reseed then s.(showCreator := true, creator := AvatarCreator.Mount(Some(s.currentAvatar)))
      else s.(showCreator := true)
    case UserClicked(u) => s.(selectedUser := Some(u))
    case BackdropClicked => s.(selectedUser := None)
    case CreatorInput(ce) =>
      if s.showCreator then s.(creator := AvatarCreator.Step(s.creator, ce)) else s
    case CreatorSaved =>
      if s.showCreator then s.(currentAvatar := AvatarCreator.Save(s.creator), showCreator := false) else s
    case CreatorClosed => s.(showCreator := false)
    case GalleryTab(c) =>
      if s.showGallery then s.(gallery := AvatarGallery.SelectCategory(s.gallery, c)) else s
    case GalleryCard(p) =>
      if s.showGallery then s.(gallery := AvatarGallery.ClickCard(s.gallery, p.Record())) else s
    case GallerySelected(p) =>
      if s.showGallery then
        var r := AvatarGallery.SelectAvatar(p.Record());
        s.(currentAvatar := r.chosen, showGallery := r.isOpen)
      else s
    case GalleryClosed => s.(showGallery := false)
  }

  /** The component as written: the editor keeps the state it was mounted with. */
  function StepAsWritten(s: WorldState, e: WorldEvent): WorldState
    requires ValidEvent(e)
  {
    StepWith(s, e, false)
  }

  /** The corrected component: opening the editor starts from the current avatar. */
  function Step(s: WorldState, e: WorldEvent): WorldState
    requires ValidEvent(e)
  {
    StepWith(s, e, true)
  }

  function RunWith(s: WorldState, events: seq<WorldEvent>, reseed: bool): WorldState
    requires forall i :: 0 <= i < |events| ==> ValidEvent(events[i])
    decreases |events|
  {
    if |events| == 0 then s else RunWith(StepWith(s, events[0], reseed), events[1..], reseed)
  }

  /** Clicking a header button twice restores its panel. */
  lemma TogglesAreInvolutions(s: WorldState)
    ensures Step(Step(s, StatsClicked), StatsClicked).showStats == s.showStats
    ensures Step(Step(s, AchievementsClicked), AchievementsClicked).showAchievements == s.showAchievements
    ensures Step(s, StatsClicked).showStats != s.showStats
  {
  }

  /** Choosing a gallery preset makes its avatar the current one and closes the gallery. */
  lemma GallerySelectionReplacesAvatar(s: WorldState, p: AvatarGallery.Preset)
    requires s.showGallery
    ensures Step(s, GallerySelected(p)).currentAvatar == AvatarGallery.Select(p.Record())
    ensures !Step(s, GallerySelected(p)).showGallery
  {
  }

  /** With the correction, opening the editor and saving at once keeps the current avatar. */
  lemma OpenThenSaveKeepsAvatar(s: WorldState)
    ensures Step(Step(s, CreatorOpened), CreatorSaved).currentAvatar == s.currentAvatar
  {
  }

  /** As written, saving straight after opening the editor stores whatever
      the editor last held, not the current avatar. */
  lemma OpenThenSaveAsWritten(s: WorldState)
    ensures StepAsWritten(StepAsWritten(s, CreatorOpened), CreatorSaved).currentAvatar == s.creator.avatar
  {
  }

  /** As written, a preset chosen in the gallery is lost when the editor is
      then opened and saved: the editor still holds the avatar it was
      mounted with. */
  lemma GalleryChoiceLostAsWritten(p: AvatarGallery.Preset)
    ensures var s1 := StepAsWritten(StepAsWritten(Initial(), GalleryOpened), GallerySelected(p));
      && s1.currentAvatar == AvatarGallery.Select(p.Record())
      && StepAsWritten(StepAsWritten(s1, CreatorOpened), CreatorSaved).currentAvatar == AvatarCreator.DefaultAvatar
      && AvatarCreator.DefaultAvatar != AvatarGallery.Select(p.Record())
  {
    PresetNameIsNotDefault(p);
  }

  lemma PresetNameIsNotDefault(p: AvatarGallery.Preset)
    ensures p.Name() != AvatarCreator.DefaultAvatar.name
  {
    match p
    case SunnySmile =>
    case StarLeader =>
    case PeacefulBlossom =>
    case WiseButterfly =>
    case CreativeSpirit =>
    case PassionateFire =>
    case RainbowHope =>
    case RoyalAdvisor =>
    case DiamondSoul =>
    case MagicalUnicorn =>
    case SummerSunflower =>
    case WinterCrystal =>
  }

  /** The same steps with the correction keep the gallery's choice. */
  lemma GalleryChoiceKept(p: AvatarGallery.Preset)
    ensures var s1 := Step(Step(Initial(), GalleryOpened), GallerySelected(p));
      Step(Step(s1, CreatorOpened), CreatorSaved).currentAvatar == AvatarGallery.Select(p.Record())
  {
  }

  /** Editor input keeps the ids known. */
  lemma CreatorStepKeepsKnownKeys(c: AvatarCreator.CreatorState, e: AvatarCreator.CreatorEvent)
    requires AvatarCreator.ValidEvent(e) && KnownKeys(c.avatar)
    ensures KnownKeys(AvatarCreator.Step(c, e).avatar)
  {
    match e
    case Picked(p) =>
      var b := AvatarCreator.Apply(c.avatar, p);
      assert b.style == AvatarCreator.Get(b, AvatarCreator.StyleField);
      assert b.background == AvatarCreator.Get(b, AvatarCreator.BackgroundField);
      assert b.accessory == AvatarCreator.Get(b, AvatarCreator.AccessoryField);
      match p {
        case StylePick(st) => assert AvatarCreator.IsStyleId(st.Id());
        case AccessoryPick(x) => assert AvatarCreator.IsAccessoryId(x.Id());
        case BackgroundPick(g) => assert AvatarCreator.IsBackgroundId(g.Id());
        case _ =>
      }
    case Shuffled(_, _, _, _, _) =>
    case TabSelected(_) =>
  }

  /** A gallery preset has known ids. */
  lemma PresetHasKnownKeys(p: AvatarGallery.Preset)
    ensures KnownKeys(AvatarGallery.Select(p.Record()))
  {
    AvatarGallery.PresetsUseKnownKeys(p);
    AvatarGallery.StyleEntriesMatchEditor(p.Style());
    AvatarGallery.BackgroundEntriesMatchEditor(p.Background());
    AvatarGallery.AccessoryEntriesMatchEditor(p.Accessory());
  }

  predicate Consistent(s: WorldState) {
    KnownKeys(s.currentAvatar) && KnownKeys(s.creator.avatar)
  }

  lemma StepKeepsConsistent(s: WorldState, e: WorldEvent, reseed: bool)
    requires ValidEvent(e) && Consistent(s)
    ensures Consistent(StepWith(s, e, reseed))
  {
    match e
    case CreatorInput(ce) =>
      if s.showCreator {
        CreatorStepKeepsKnownKeys(s.creator, ce);
      }
    case GallerySelected(p) =>
      PresetHasKnownKeys(p);
    case _ =>
  }

  /** Whatever the user does, with or without the correction, the current
      avatar and the editor's avatar keep ids every renderer knows. */
  lemma {:induction false} RunKeepsConsistent(s: WorldState, events: seq<WorldEvent>, reseed: bool)
    requires forall i :: 0 <= i < |events| ==> ValidEvent(events[i])
    requires Consistent(s)
    ensures Consistent(RunWith(s, events, reseed))
    decreases |events|
  {
    if |events| > 0 {
      StepKeepsConsistent(s, events[0], reseed);
      RunKeepsConsistent(StepWith(s, events[0], reseed), events[1..], reseed);
    }
  }

  /** So the hand-written rendering of the current avatar never shows the
      fallbacks on which it differs from the editor. */
  lemma WorldAlwaysRendersLikeEditor(events: seq<WorldEvent>, reseed: bool)
    requires forall i :: 0 <= i < |events| ==> ValidEvent(events[i])
    ensures var a := RunWith(Initial(), events, reseed).currentAvatar;
      && WorldStyle(a.style) == AvatarCreator.StyleGradient(a.style)
      && WorldBackground(a.background) == AvatarCreator.BackgroundGradient(a.background)
      && WorldAccessory(a.accessory) == EditorAccessory(a.accessory)
  {
    assert KnownKeys(AvatarCreator.DefaultAvatar) by {
      assert AvatarCreator.Style.Friendly.Id() == "friendly";
      assert AvatarCreator.Background.Sunset.Id() == "gradient1";
      assert AvatarCreator.Accessory.NoAccessory.Id() == "none";
    }
    RunKeepsConsistent(Initial(), events, reseed);
    KnownKeysRenderLikeEditor(RunWith(Initial(), events, reseed).currentAvatar);
  }

  /** The modal's actions for a clicked member. */
  lemma ClickedUserActions(s: WorldState, u: VirtualUser)
    ensures Step(s, UserClicked(u)).selectedUser == Some(u)
    ensures Step(Step(s, UserClicked(u)), BackdropClicked).selectedUser.None?
  {
  }
}
