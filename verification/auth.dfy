/** The demo-mode authentication state machine of `AuthContext.tsx`: a
    provider holding the current user and a loading flag, with guest and
    Google sign-in, logout and the derived `isGuest` flag. The Firebase
    paths taken outside demo mode are not modelled. `Date.now()` is the
    parameter `now`. */
module Auth {
  import opened Wrappers
  import opened Text

  /** The fields of the Firebase `User` that the demo users set. */
  datatype User = User(
    uid: string,
    isAnonymous: bool,
    displayName: Option<string>,
    email: Option<string>,
    photoURL: Option<string>)

  datatype AuthState = AuthState(user: Option<User>, loading: bool)

  /** `useState(null)` and `useState(true)`. */
  const Initial: AuthState := AuthState(None, true)

  const GuestPrefix: string := "demo-guest-"
  const GooglePrefix: string := "demo-google-"
  const DemoName: string := "Demo User"
  const DemoEmail: string := "demo@example.com"
  const OutsideProvider: string := "useAuth must be used within an AuthProvider"

  /** `prefix` followed by a decimal rendering of a timestamp. */
  predicate HasStampedUid(uid: string, prefix: string) {
    && |prefix| < |uid|
    && uid[..|prefix|] == prefix
    && forall i :: |prefix| <= i < |uid| ==> IsDigit(uid[i])
  }

  /** The mount effect in demo mode: loading ends, no user is loaded. */
  function Mount(s: AuthState): (t: AuthState)
    ensures t.user == s.user
    ensures !t.loading
  {
    s.(loading := false)
  }

  function GuestUser(now: nat): User {
    User(GuestPrefix + NatToString(now), true, None, None, None)
  }

  function GoogleUser(now: nat): User {
    User(GooglePrefix + NatToString(now), false, Some(DemoName), Some(DemoEmail), None)
  }

  /** Demo guest sign-in: an anonymous user with no name, e-mail or photo. */
  function SignInAsGuest(s: AuthState, now: nat): (t: AuthState)
    ensures t.loading == s.loading
    ensures t.user.Some? && t.user.value.isAnonymous
    ensures t.user.value.displayName.None? && t.user.value.email.None? && t.user.value.photoURL.None?
    ensures HasStampedUid(t.user.value.uid, GuestPrefix)
    ensures t.user.value.uid == GuestPrefix + NatToString(now)
  {
    s.(user := Some(GuestUser(now)))
  }

  /** Demo Google sign-in: a named, non-anonymous user. */
  function SignInWithGoogle(s: AuthState, now: nat): (t: AuthState)
    ensures t.loading == s.loading
    ensures t.user.Some? && !t.user.value.isAnonymous
    ensures t.user.value.displayName == Some(DemoName) && t.user.value.email == Some(DemoEmail)
    ensures t.user.value.photoURL.None?
    ensures HasStampedUid(t.user.value.uid, GooglePrefix)
    ensures t.user.value.uid == GooglePrefix + NatToString(now)
  {
    s.(user := Some(GoogleUser(now)))
  }

  /** Demo logout clears the user and nothing else. */
  function Logout(s: AuthState): (t: AuthState)
    ensures t.user.None?
    ensures t.loading == s.loading
  {
    s.(user := None)
  }

  /** `user?.isAnonymous || false`. */
  function IsGuest(s: AuthState): (b: bool)
    ensures b <==> s.user.Some? && s.user.value.isAnonymous
  {
    match s.user
    case None => false
    case Some(u) => u.isAnonymous
  }

  /** `useAuth()`: the context value inside a provider, an error outside one. */
  function UseAuth(context: Option<AuthState>): (r: Result<AuthState, string>)
    ensures r.Success? <==> context.Some?
    ensures r.Success? ==> r.value == context.value
    ensures r.Failure? ==> r.error == OutsideProvider
  {
    match context
    case None => Failure(OutsideProvider)
    case Some(s) => Success(s)
  }

  /** The guest uid carries the sign-in time, which reads back from its digits. */
  lemma GuestUidRecordsTime(now: nat)
    ensures var uid := GuestUser(now).uid;
      && HasStampedUid(uid, GuestPrefix)
      && ParseNat(uid[|GuestPrefix|..]) == now
  {
    var uid := GuestUser(now).uid;
    assert uid[|GuestPrefix|..] == NatToString(now);
    ParseNatToString(now);
  }

  /** The Google uid carries the sign-in time in the same way. */
  lemma GoogleUidRecordsTime(now: nat)
    ensures var uid := GoogleUser(now).uid;
      && HasStampedUid(uid, GooglePrefix)
      && ParseNat(uid[|GooglePrefix|..]) == now
  {
    var uid := GoogleUser(now).uid;
    assert uid[|GooglePrefix|..] == NatToString(now);
    ParseNatToString(now);
  }

  /** A guest uid and a Google uid never coincide, whatever the timestamps. */
  lemma GuestAndGoogleUidsDiffer(a: nat, b: nat)
    ensures GuestUser(a).uid != GoogleUser(b).uid
  {
    assert GuestUser(a).uid[6] == 'u';
    assert GoogleUser(b).uid[6] == 'o';
  }

  /** The four user actions of the demo provider. */
  datatype Event = Mounted | GuestSignIn(now: nat) | GoogleSignIn(now: nat) | LoggedOut

  function Step(s: AuthState, e: Event): AuthState {
    match e
    case Mounted => Mount(s)
    case GuestSignIn(now) => SignInAsGuest(s, now)
    case GoogleSignIn(now) => SignInWithGoogle(s, now)
    case LoggedOut => Logout(s)
  }

  function Run(s: AuthState, events: seq<Event>): AuthState
    decreases |events|
  {
    if |events| == 0 then s else Run(Step(s, events[0]), events[1..])
  }

  /** Every user the demo provider can hold is one of the two demo users. */
  predicate DemoUserShape(s: AuthState) {
    match s.user
    case None => true
    case Some(u) =>
      if u.isAnonymous then
        && HasStampedUid(u.uid, GuestPrefix)
        && u.displayName.None? && u.email.None? && u.photoURL.None?
      else
        && HasStampedUid(u.uid, GooglePrefix)
        && u.displayName == Some(DemoName) && u.email == Some(DemoEmail) && u.photoURL.None?
  }

  /** From the initial state, any sequence of actions keeps the user a demo user. */
  lemma {:induction false} RunKeepsDemoShape(s: AuthState, events: seq<Event>)
    requires DemoUserShape(s)
    ensures DemoUserShape(Run(s, events))
    decreases |events|
  {
    if |events| > 0 {
      var next := Step(s, events[0]);
      assert DemoUserShape(next);
      RunKeepsDemoShape(next, events[1..]);
    }
  }

  /** For a demo user, being a guest is the same as carrying a guest uid. */
  lemma GuestIffGuestUid(s: AuthState)
    requires DemoUserShape(s) && s.user.Some?
    ensures IsGuest(s) <==> s.user.value.uid[..|GuestPrefix|] == GuestPrefix
  {
    var uid := s.user.value.uid;
    if !s.user.value.isAnonymous {
      assert uid[6] == 'o';
      assert uid[..|GuestPrefix|][6] == 'o';
    }
  }

  /** The flag follows the last action: guest sign-in sets it, Google sign-in and logout clear it. */
  lemma IsGuestFollowsLastAction(s: AuthState, now: nat)
    ensures IsGuest(SignInAsGuest(s, now))
    ensures !IsGuest(SignInWithGoogle(s, now))
    ensures !IsGuest(Logout(s))
    ensures IsGuest(Mount(s)) == IsGuest(s)
    ensures !IsGuest(Initial)
  {
  }
}
