/** The landing page of `LandingPage.tsx`: a view switch between the home
    page, the chat and the virtual world, plus two modal flags for the
    multimedia generator and the emergency panel. */
module Landing {

  /** The values `currentView` is declared to take. */
  datatype View = LandingView | ChatView | WorldView | MultimediaView | EmergencyView

  /** The page's state: the current view and the two modal flags. */
  datatype Page = Page(view: View, showMultimedia: bool, showEmergency: bool)

  function Initial(): Page {
    Page(LandingView, false, false)
  }

  /** `handleFeatureClick`. */
  function FeatureClick(p: Page, feature: string): (q: Page)
    ensures feature == "ai-companion" ==> q == p.(view := ChatView)
    ensures feature == "virtual-community" ==> q == p.(view := WorldView)
    ensures feature == "mood-creation" ==> q == p.(showMultimedia := true)
    ensures feature == "emergency-support" ==> q == p.(showEmergency := true)
  {
    match feature
    case "ai-companion" => p.(view := ChatView)
    case "virtual-community" => p.(view := WorldView)
    case "mood-creation" => p.(showMultimedia := true)
    case "emergency-support" => p.(showEmergency := true)
    case _ => p.(view := LandingView)
  }

  /** The four feature names the switch knows. */
  predicate KnownFeature(feature: string) {
    feature in {"ai-companion", "virtual-community", "mood-creation", "emergency-support"}
  }

  /** Any other feature name falls to the default branch and goes home,
      leaving both modal flags as they were. */
  lemma UnknownFeatureGoesHome(p: Page, feature: string)
    requires !KnownFeature(feature)
    ensures FeatureClick(p, feature) == Page(LandingView, p.showMultimedia, p.showEmergency)
  {
  }

  /** A modal flag is raised by its own feature and by nothing else, and a
      feature click never lowers one. */
  lemma FlagsRiseOnlyForTheirFeature(p: Page, feature: string)
    ensures FeatureClick(p, feature).showMultimedia <==> p.showMultimedia || feature == "mood-creation"
    ensures FeatureClick(p, feature).showEmergency <==> p.showEmergency || feature == "emergency-support"
  {
  }

  /** The view stays put exactly for the two modal features; every other
      feature sets it (possibly to the value it already had). */
  lemma ModalFeaturesKeepView(p: Page, feature: string)
    ensures feature in {"mood-creation", "emergency-support"} ==> FeatureClick(p, feature).view == p.view
    ensures feature !in {"mood-creation", "emergency-support"} ==>
      FeatureClick(p, feature).view in {LandingView, ChatView, WorldView}
  {
  }

  /** What the page draws: the chat and world views have their own screens;
      every other view, including the two never-set ones, falls through to
      the home page. */
  datatype Screen = HomeScreen | ChatScreen | WorldScreen

  function ScreenOf(p: Page): (s: Screen)
    ensures s == ChatScreen <==> p.view == ChatView
    ensures s == WorldScreen <==> p.view == WorldView
  {
    if p.view == ChatView then ChatScreen
    else if p.view == WorldView then WorldScreen
    else HomeScreen
  }

  /** The modals are part of the home page's markup, so a raised flag shows
      its modal only while the home page is drawn. */
  predicate ShowsMultimediaModal(p: Page) {
    ScreenOf(p) == HomeScreen && p.showMultimedia
  }

  predicate ShowsEmergencyModal(p: Page) {
    ScreenOf(p) == HomeScreen && p.showEmergency
  }

  /** The controls that change the page's state. */
  datatype Event =
    | FeatureClicked(feature: string)
    | BackToHome
    | MultimediaClosed
    | EmergencyClosed

  /** Which controls are on screen: the feature buttons and both modals'
      close buttons on the home page, a back button on the chat and world
      screens. */
  predicate Available(p: Page, e: Event) {
    match e
    case FeatureClicked(_) => ScreenOf(p) == HomeScreen
    case BackToHome => ScreenOf(p) != HomeScreen
    case MultimediaClosed => ShowsMultimediaModal(p)
    case EmergencyClosed => ShowsEmergencyModal(p)
  }

  function Step(p: Page, e: Event): Page {
    match e
    case FeatureClicked(f) => FeatureClick(p, f)
    case BackToHome => p.(view := LandingView)
    case MultimediaClosed => p.(showMultimedia := false)
    case EmergencyClosed => p.(showEmergency := false)
  }

  /** Opening the chat or the world from the home page and pressing back
      restores the page exactly. */
  lemma BackUndoesNavigation(p: Page, feature: string)
    requires p.view == LandingView
    requires feature in {"ai-companion", "virtual-community"}
    ensures Available(FeatureClick(p, feature), BackToHome)
    ensures Step(FeatureClick(p, feature), BackToHome) == p
  {
  }

  /** Opening a modal and closing it restores the page, when the modal was
      closed before. */
  lemma CloseUndoesModal(p: Page)
    requires p.view == LandingView && !p.showMultimedia && !p.showEmergency
    ensures Step(Step(p, FeatureClicked("mood-creation")), MultimediaClosed) == p
    ensures Step(Step(p, FeatureClicked("emergency-support")), EmergencyClosed) == p
    ensures ShowsMultimediaModal(Step(p, FeatureClicked("mood-creation")))
    ensures ShowsEmergencyModal(Step(p, FeatureClicked("emergency-support")))
  {
  }

  function Run(p: Page, events: seq<Event>): Page
    decreases |events|
  {
    if |events| == 0 then p else Run(Step(p, events[0]), events[1..])
  }

  /** The views some transition can set. */
  predicate UsedView(v: View) {
    v == LandingView || v == ChatView || v == WorldView
  }

  /** Whatever is clicked, in any order, the page never enters the
      multimedia or emergency view: no transition sets them. */
  lemma {:induction false} UnusedViewsUnreachable(p: Page, events: seq<Event>)
    requires UsedView(p.view)
    ensures UsedView(Run(p, events).view)
    ensures Run(p, events).view != MultimediaView && Run(p, events).view != EmergencyView
    decreases |events|
  {
    if |events| > 0 {
      UnusedViewsUnreachable(Step(p, events[0]), events[1..]);
    }
  }

  /** From a fresh page, in particular. */
  lemma FreshPageNeverUsesUnusedViews(events: seq<Event>)
    ensures UsedView(Run(Initial(), events).view)
  {
    UnusedViewsUnreachable(Initial(), events);
  }
}
