/**
 * The root navigator: which of the loading screen, the sign-in flow, the onboarding
 * flow or the main app is shown, how the authentication and onboarding statuses
 * are learnt after sign-in, and which main screens carry the bottom navigation bar.
 */
module AppNavigator {
  import opened Wrappers
  import opened Types
  import opened RemoteSchema
  import opened CloudStorage

  const HomeScreen := "Home"

  /** What the navigator renders. */
  datatype View =
    | Loading
    | AuthFlowView
    | OnboardingView
    | MainView(screen: string, bottomNav: bool)

  /** The bottom bar is hidden on the check-in, the privacy policy and the about screen. */
  predicate ShowsBottomNav(screen: string) {
    screen != "MoodCheckIn" && screen != "PrivacyPolicy" && screen != "About"
  }

  /**
   * The view for the two statuses (none while unknown) and the current screen:
   * loading while either status the decision needs is unknown, then sign-in,
   * then onboarding, then the main app.
   */
  function Display(isAuthenticated: Option<bool>, hasCompletedOnboarding: Option<bool>, screen: string): (v: View)
    ensures v == Loading <==>
              isAuthenticated.None? || (isAuthenticated == Some(true) && hasCompletedOnboarding.None?)
    ensures v == AuthFlowView <==> isAuthenticated == Some(false)
    ensures v == OnboardingView <==> isAuthenticated == Some(true) && hasCompletedOnboarding == Some(false)
    ensures v.MainView? <==> isAuthenticated == Some(true) && hasCompletedOnboarding == Some(true)
    ensures v.MainView? ==> v.screen == screen && (v.bottomNav <==> ShowsBottomNav(screen))
  {
    if isAuthenticated.None? || (isAuthenticated.value && hasCompletedOnboarding.None?) then Loading
    else if !isAuthenticated.value then AuthFlowView
    else if !hasCompletedOnboarding.value then OnboardingView
    else MainView(screen, ShowsBottomNav(screen))
  }

  /** Signed out, the onboarding status does not matter: the sign-in flow is shown. */
  lemma SignedOutShowsAuthFlow(onboarded: Option<bool>, screen: string)
    ensures Display(Some(false), onboarded, screen) == AuthFlowView
  {
  }

  /**
   * `profile?.onboardingComplete ?? false` for a signed-in user, as the profile read
   * leaves it, and false when that read throws: a remote profile row always reads as
   * onboarded, a cached profile as it was saved, no profile as not onboarded.
   */
  function OnboardingStatus(cached: Option<UserProfile>, reply: Reply<StoredProfile>, fault: bool): (b: bool)
    ensures fault ==> !b
    ensures !fault && reply.Rows? ==> b
    ensures !fault && reply.NoRows? ==> (b <==> cached.Some? && cached.value.onboardingComplete)
  {
    if fault then false
    else if reply.Rows? then ProfileFromRow(reply.data).onboardingComplete
    else cached.Some? && cached.value.onboardingComplete
  }

  /** A signed-in user whose profile read throws is sent to onboarding. */
  lemma FailedStatusReadShowsOnboarding(cached: Option<UserProfile>, reply: Reply<StoredProfile>, screen: string)
    ensures Display(Some(true), Some(OnboardingStatus(cached, reply, true)), screen) == OnboardingView
  {
  }

  class Navigator {
    const sync: SyncCoordinator
    var isAuthenticated: Option<bool>
    var hasCompletedOnboarding: Option<bool>
    var currentScreen: string

    ghost predicate Valid()
      reads this, sync, sync.local
    {
      sync.Valid()
    }

    constructor (coordinator: SyncCoordinator)
      requires coordinator.Valid()
      ensures Valid() && sync == coordinator
      ensures isAuthenticated == None && hasCompletedOnboarding == None && currentScreen == HomeScreen
      ensures Current() == Loading
    {
      sync := coordinator;
      isAuthenticated, hasCompletedOnboarding, currentScreen := None, None, HomeScreen;
    }

    /** What is on screen now. */
    function Current(): View
      reads this
    {
      Display(isAuthenticated, hasCompletedOnboarding, currentScreen)
    }

    /** Reads the profile and records whether onboarding is complete; a throw reads as not complete. */
    method CheckOnboardingStatus(user: Option<Id>, reply: Reply<StoredProfile>, fault: bool)
      requires Valid()
      modifies this`hasCompletedOnboarding, sync`calls, sync.local`profile
      ensures Valid()
      ensures user.Some? ==> hasCompletedOnboarding == Some(OnboardingStatus(old(sync.local.profile), reply, fault))
      ensures user.None? ==>
                (hasCompletedOnboarding == Some(!fault && old(sync.local.profile).Some? && old(sync.local.profile).value.onboardingComplete))
      ensures sync.calls == old(sync.calls) + if user.Some? then [SelectProfile(user.value)] else []
      ensures sync.local.profile == if user.Some? then ProfilePulled(old(sync.local.profile), reply, fault)
                                    else old(sync.local.profile)
    ensures sync.local.moodEntries == old(sync.local.moodEntries) && sync.local.medications == old(sync.local.medications)
            && sync.local.safetyPlan == old(sync.local.safetyPlan)
    {
      var r := sync.GetUserProfile(user, reply, fault);
      if r.Threw? {
        hasCompletedOnboarding := Some(false);
      } else {
        hasCompletedOnboarding := Some(r.value.Some? && r.value.value.onboardingComplete);
      }
    }

    /**
     * What every path into a session does once `uid` is signed in: the full pull,
     * then the onboarding check. `statusReply` and `statusFault` are what the check's
     * own profile read meets.
     */
    method SignedIn(uid: Id, env: PullEnv, statusReply: Reply<StoredProfile>, statusFault: bool)
      requires Valid()
      modifies this`hasCompletedOnboarding, sync`calls,
               sync.local`profile, sync.local`moodEntries, sync.local`medications, sync.local`safetyPlan
      ensures Valid()
      ensures var pulled := ProfilePulled(old(sync.local.profile), env.profileReply, env.profileFault);
              && hasCompletedOnboarding == Some(OnboardingStatus(pulled, statusReply, statusFault))
              && sync.local.profile == ProfilePulled(pulled, statusReply, statusFault)
      ensures sync.calls == old(sync.calls) + PullPrefix(uid, PullsStarted(env)) + [SelectProfile(uid)]
      ensures sync.local.moodEntries == MoodsAfterPull(old(sync.local.moodEntries), env)
      ensures sync.local.medications == MedsAfterPull(old(sync.local.medications), env)
      ensures sync.local.safetyPlan == PlanAfterPull(old(sync.local.safetyPlan), env)
    {
      var started := sync.PullAll(uid, env);
      CheckOnboardingStatus(Some(uid), statusReply, statusFault);
    }

    /**
     * The authentication listener: a session signs the user in and runs the pull and
     * the onboarding check; no session clears the onboarding status.
     */
    method AuthStateChanged(session: Option<Id>, env: PullEnv, statusReply: Reply<StoredProfile>, statusFault: bool)
      requires Valid()
      modifies this`isAuthenticated, this`hasCompletedOnboarding, sync`calls,
               sync.local`profile, sync.local`moodEntries, sync.local`medications, sync.local`safetyPlan
      ensures Valid()
      ensures isAuthenticated == Some(session.Some?)
      ensures session.None? ==> hasCompletedOnboarding == None && Current() == AuthFlowView
      ensures session.None? ==> sync.calls == old(sync.calls) && sync.local.profile == old(sync.local.profile)
      ensures session.None? ==>
                && sync.local.moodEntries == old(sync.local.moodEntries)
                && sync.local.medications == old(sync.local.medications)
                && sync.local.safetyPlan == old(sync.local.safetyPlan)
      ensures session.Some? ==>
                var pulled := ProfilePulled(old(sync.local.profile), env.profileReply, env.profileFault);
                && hasCompletedOnboarding == Some(OnboardingStatus(pulled, statusReply, statusFault))
                && sync.local.profile == ProfilePulled(pulled, statusReply, statusFault)
                && sync.calls == old(sync.calls) + PullPrefix(session.value, PullsStarted(env)) + [SelectProfile(session.value)]
      ensures session.Some? ==>
                && sync.local.moodEntries == MoodsAfterPull(old(sync.local.moodEntries), env)
                && sync.local.medications == MedsAfterPull(old(sync.local.medications), env)
                && sync.local.safetyPlan == PlanAfterPull(old(sync.local.safetyPlan), env)
    {
      isAuthenticated := Some(session.Some?);
      if session.Some? {
        SignedIn(session.value, env, statusReply, statusFault);
      } else {
        hasCompletedOnboarding := None;
      }
    }

    /**
     * The check on mount: records whether someone is signed in and, if so, runs the
     * pull and the onboarding check. Signed out, the onboarding status stays as it
     * was, which the sign-in view does not consult.
     */
    method CheckAuthStatus(user: Option<Id>, env: PullEnv, statusReply: Reply<StoredProfile>, statusFault: bool)
      requires Valid()
      modifies this`isAuthenticated, this`hasCompletedOnboarding, sync`calls,
               sync.local`profile, sync.local`moodEntries, sync.local`medications, sync.local`safetyPlan
      ensures Valid()
      ensures isAuthenticated == Some(user.Some?)
      ensures user.None? ==> hasCompletedOnboarding == old(hasCompletedOnboarding) && Current() == AuthFlowView
      ensures user.None? ==> sync.calls == old(sync.calls) && sync.local.profile == old(sync.local.profile)
      ensures user.None? ==>
                && sync.local.moodEntries == old(sync.local.moodEntries)
                && sync.local.medications == old(sync.local.medications)
                && sync.local.safetyPlan == old(sync.local.safetyPlan)
      ensures user.Some? ==>
                var pulled := ProfilePulled(old(sync.local.profile), env.profileReply, env.profileFault);
                && hasCompletedOnboarding == Some(OnboardingStatus(pulled, statusReply, statusFault))
                && sync.local.profile == ProfilePulled(pulled, statusReply, statusFault)
                && sync.calls == old(sync.calls) + PullPrefix(user.value, PullsStarted(env)) + [SelectProfile(user.value)]
      ensures user.Some? ==>
                && sync.local.moodEntries == MoodsAfterPull(old(sync.local.moodEntries), env)
                && sync.local.medications == MedsAfterPull(old(sync.local.medications), env)
                && sync.local.safetyPlan == PlanAfterPull(old(sync.local.safetyPlan), env)
    {
      isAuthenticated := Some(user.Some?);
      if user.Some? {
        SignedIn(user.value, env, statusReply, statusFault);
      }
    }

    /** The sign-in flow finished for `uid`: signed in, then the pull and the onboarding check. */
    method AuthComplete(uid: Id, env: PullEnv, statusReply: Reply<StoredProfile>, statusFault: bool)
      requires Valid()
      modifies this`isAuthenticated, this`hasCompletedOnboarding, sync`calls,
               sync.local`profile, sync.local`moodEntries, sync.local`medications, sync.local`safetyPlan
      ensures Valid()
      ensures isAuthenticated == Some(true)
      ensures var pulled := ProfilePulled(old(sync.local.profile), env.profileReply, env.profileFault);
              && hasCompletedOnboarding == Some(OnboardingStatus(pulled, statusReply, statusFault))
              && sync.local.profile == ProfilePulled(pulled, statusReply, statusFault)
              && sync.calls == old(sync.calls) + PullPrefix(uid, PullsStarted(env)) + [SelectProfile(uid)]
      ensures sync.local.moodEntries == MoodsAfterPull(old(sync.local.moodEntries), env)
      ensures sync.local.medications == MedsAfterPull(old(sync.local.medications), env)
      ensures sync.local.safetyPlan == PlanAfterPull(old(sync.local.safetyPlan), env)
      ensures Current() == OnboardingView || Current().MainView?
    {
      isAuthenticated := Some(true);
      SignedIn(uid, env, statusReply, statusFault);
    }

    /** The onboarding flow finished: a signed-in user now sees the main app. */
    method OnboardingComplete()
      modifies this`hasCompletedOnboarding
      ensures hasCompletedOnboarding == Some(true)
      ensures isAuthenticated == Some(true) ==> Current() == MainView(currentScreen, ShowsBottomNav(currentScreen))
    {
      hasCompletedOnboarding := Some(true);
    }

    method Navigate(screen: string)
      modifies this`currentScreen
      ensures currentScreen == screen
    {
      currentScreen := screen;
    }

    /** Signing out: back to the sign-in flow, with the onboarding status unknown and the home screen next. */
    method Logout()
      modifies this`isAuthenticated, this`hasCompletedOnboarding, this`currentScreen
      ensures isAuthenticated == Some(false) && hasCompletedOnboarding == None && currentScreen == HomeScreen
      ensures Current() == AuthFlowView
    {
      isAuthenticated, hasCompletedOnboarding, currentScreen := Some(false), None, HomeScreen;
    }
  }
}
