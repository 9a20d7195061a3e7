/** The configuration page: two credential inputs whose whitespace is stripped as they are
    typed, a show/hide toggle for each, a three-entry navigation whose view switch happens
    when a timer fires, and the verification of the credentials against Jira. The timer is
    modelled as a queue of scheduled view switches that a separate method fires, and the
    awaited Apex call is a parameter. */
module ConfigurationSetup {
  import opened Js
  import opened Platform

  /** The two inputs `handleInputChange` can be bound to, by their `name`. */
  datatype CredentialField = UserName | ApiKey

  /** The profile the verification service returns, kept as received. */
  datatype UserProfile = UserProfile(fields: map<string, string>)

  /** The object the verification service resolves with. */
  datatype VerifyResult = VerifyResult(success: bool, userProfile: Option<UserProfile>, error: string)

  /** The three view flags `showSetupGuide`, `showUserGuide` and `showConnectJiraGuide`. */
  datatype Views = Views(setupGuide: bool, userGuide: bool, connectJiraGuide: bool)

  predicate IsKnownItem(item: string) {
    item == "setupGuide" || item == "userGuide" || item == "connectGoogleGuide"
  }

  predicate ExactlyOne(v: Views) {
    (if v.setupGuide then 1 else 0) + (if v.userGuide then 1 else 0)
    + (if v.connectJiraGuide then 1 else 0) == 1
  }

  /** The flags after `resetViews` followed by `updateView(item)`: a known item shows exactly
      its own view, anything else shows none. */
  function ViewsFor(item: string): (v: Views)
    ensures IsKnownItem(item) <==> ExactlyOne(v)
    ensures !IsKnownItem(item) ==> v == Views(false, false, false)
    ensures v.setupGuide <==> item == "setupGuide"
    ensures v.userGuide <==> item == "userGuide"
    ensures v.connectJiraGuide <==> item == "connectGoogleGuide"
  {
    match item
    case "setupGuide" => Views(true, false, false)
    case "userGuide" => Views(false, true, false)
    case "connectGoogleGuide" => Views(false, false, true)
    case _ => Views(false, false, false)
  }

  /** The icon of a visibility toggle: the hide icon exactly while the input is masked. */
  function ToggleIcon(visible: bool): (icon: string)
    ensures icon == "utility:hide" <==> !visible
    ensures icon == "utility:preview" <==> visible
  {
    if visible then "utility:preview" else "utility:hide"
  }

  /** The type of a credential input: a password field exactly while the input is masked,
      which is exactly while its toggle shows the hide icon. */
  function InputType(visible: bool): (inputType: string)
    ensures inputType == "password" <==> !visible
    ensures inputType == "text" <==> visible
    ensures inputType == "password" <==> ToggleIcon(visible) == "utility:hide"
  {
    if visible then "text" else "password"
  }

  const MissingCredentialsToast := Toast("Error", "Please enter both username and API key.", "error")
  const VerifiedToast := Toast("Success", "Jira credentials verified successfully!", "success")

  /** What a verification call leaves behind once the spinner is turned off. */
  datatype Outcome = Outcome(userProfile: Option<UserProfile>, errorMessage: string, toast: Toast)

  /** The outcome of `verifyCredentials` for an answered or a failed call: success keeps the
      profile and no message, anything else keeps no profile and reports an error. */
  function VerificationOutcome(call: Call<VerifyResult>): (o: Outcome)
    ensures call.Returned? && call.value.success ==>
      o.userProfile == call.value.userProfile && o.errorMessage == "" && o.toast == VerifiedToast
    ensures call.Returned? && !call.value.success ==>
      o.userProfile == None && o.errorMessage == call.value.error && o.toast.message == call.value.error
    ensures call.Threw? ==> o.userProfile == None && o.errorMessage != ""
    ensures call.Threw? ==> o.errorMessage == "Error verifying credentials: " + Show(call.failure.message)
    ensures o.toast.variant == "error" <==> !(call.Returned? && call.value.success)
    ensures o.toast.variant == "error" ==> o.toast.message == o.errorMessage
  {
    match call
    case Returned(result) =>
      if result.success then Outcome(result.userProfile, "", VerifiedToast)
      else Outcome(None, result.error, Toast("Error", result.error, "error"))
    case Threw(f) =>
      var message := "Error verifying credentials: " + Show(f.message);
      Outcome(None, message, Toast("Error", message, "error"))
  }

  class Component {
    var userName: string
    var apiKey: string
    var showSetupGuide: bool
    var showUserGuide: bool
    var showConnectJiraGuide: bool
    var activeTab: string
    var isTransitioning: bool
    var showSpinner: bool
    var isClientIdVisible: bool
    var isClientSecretVisible: bool
    var userProfile: Option<UserProfile>
    var errorMessage: string
    /** The toast events dispatched so far, oldest first. */
    var toasts: seq<Toast>
    /** The items of the navigation timers scheduled and not yet fired, in firing order. */
    var pendingNavigations: seq<string>

    constructor ()
      ensures Valid() && activeTab == "setupGuide" && !isTransitioning && pendingNavigations == []
      ensures userName == "" && apiKey == "" && !showSpinner && userProfile == None && errorMessage == ""
      ensures !isClientIdVisible && !isClientSecretVisible && toasts == []
    {
      userName, apiKey := "", "";
      showSetupGuide, showUserGuide, showConnectJiraGuide := true, false, false;
      activeTab, isTransitioning, showSpinner := "setupGuide", false, false;
      isClientIdVisible, isClientSecretVisible := false, false;
      userProfile, errorMessage, toasts, pendingNavigations := None, "", [], [];
    }

    function CurrentViews(): Views
      reads this
    {
      Views(showSetupGuide, showUserGuide, showConnectJiraGuide)
    }

    /** The flags always show the view of the active tab, and a transition is only under way
        while a timer is pending. */
    ghost predicate Valid()
      reads this
    {
      CurrentViews() == ViewsFor(activeTab) && (isTransitioning ==> pendingNavigations != [])
    }

    // -------------------------------------------------------------------------
    // Getters

    function ToggleIconClientId(): string
      reads this
    {
      ToggleIcon(isClientIdVisible)
    }

    function ToggleIconClientSecret(): string
      reads this
    {
      ToggleIcon(isClientSecretVisible)
    }

    function UserNameType(): string
      reads this
    {
      InputType(isClientIdVisible)
    }

    function ApiKeyType(): string
      reads this
    {
      InputType(isClientSecretVisible)
    }

    // -------------------------------------------------------------------------
    // Visibility and input

    method ToggleUserNameVisibility()
      requires Valid()
      modifies this`isClientIdVisible
      ensures Valid()
      ensures isClientIdVisible == !old(isClientIdVisible)
    {
      isClientIdVisible := !isClientIdVisible;
    }

    method ToggleApiKeyVisibility()
      requires Valid()
      modifies this`isClientSecretVisible
      ensures Valid()
      ensures isClientSecretVisible == !old(isClientSecretVisible)
    {
      isClientSecretVisible := !isClientSecretVisible;
    }

    /** Each toggle undoes itself: two clicks restore both flags and what the getters show. */
    method ToggleTwiceRestoresVisibility()
      requires Valid()
      modifies this`isClientIdVisible, this`isClientSecretVisible
      ensures Valid()
      ensures isClientIdVisible == old(isClientIdVisible) && isClientSecretVisible == old(isClientSecretVisible)
      ensures UserNameType() == old(UserNameType()) && ApiKeyType() == old(ApiKeyType())
      ensures ToggleIconClientId() == old(ToggleIconClientId())
      ensures ToggleIconClientSecret() == old(ToggleIconClientSecret())
    {
      ToggleUserNameVisibility();
      ToggleUserNameVisibility();
      ToggleApiKeyVisibility();
      ToggleApiKeyVisibility();
    }

    /** `handleInputChange`: the named input receives the value without any whitespace; a
        value without whitespace is stored as it is, and the other input is untouched. */
    method HandleInputChange(field: CredentialField, value: string)
      requires Valid()
      modifies this`userName, this`apiKey
      ensures Valid()
      ensures field == UserName ==> userName == StripWhitespace(value) && apiKey == old(apiKey)
      ensures field == ApiKey ==> apiKey == StripWhitespace(value) && userName == old(userName)
      ensures NoWhitespace(if field == UserName then userName else apiKey)
      ensures NoWhitespace(value) ==> (if field == UserName then userName else apiKey) == value
    {
      StripWhitespaceFixedPoints(value);
      match field {
        case UserName => userName := StripWhitespace(value);
        case ApiKey => apiKey := StripWhitespace(value);
      }
    }

    // -------------------------------------------------------------------------
    // Navigation

    /** `handleNavigation`: selecting the active tab changes nothing; any other item starts a
        transition and schedules its view switch. */
    method HandleNavigation(item: string)
      requires Valid()
      modifies this`isTransitioning, this`pendingNavigations
      ensures Valid()
      ensures item == old(activeTab) ==> unchanged(this)
      ensures item != old(activeTab) ==>
        isTransitioning && pendingNavigations == old(pendingNavigations) + [item]
    {
      if activeTab == item {
        return;
      }
      isTransitioning := true;
      pendingNavigations := pendingNavigations + [item];
    }

    /** The earliest scheduled navigation timer fires: the views switch to its item, which
        becomes the active tab, and the transition ends. */
    method FireNavigationTimer()
      requires Valid() && pendingNavigations != []
      modifies this`showSetupGuide, this`showUserGuide, this`showConnectJiraGuide,
               this`activeTab, this`isTransitioning, this`pendingNavigations
      ensures Valid()
      ensures activeTab == old(pendingNavigations[0]) && !isTransitioning
      ensures pendingNavigations == old(pendingNavigations[1..])
      ensures CurrentViews() == ViewsFor(activeTab)
    {
      var item := pendingNavigations[0];
      pendingNavigations := pendingNavigations[1..];
      ResetViews();
      UpdateView(item);
      activeTab := item;
      isTransitioning := false;
    }

    /** A click on an item while no transition is pending, followed by its timer: the item is
        the active tab, no transition is under way, and exactly the item's view is shown when
        the item is known, none otherwise. */
    method Navigate(item: string)
      requires Valid() && pendingNavigations == []
      modifies this`showSetupGuide, this`showUserGuide, this`showConnectJiraGuide,
               this`activeTab, this`isTransitioning, this`pendingNavigations
      ensures Valid() && pendingNavigations == []
      ensures activeTab == item && !isTransitioning
      ensures IsKnownItem(item) <==> ExactlyOne(CurrentViews())
      ensures !IsKnownItem(item) ==> !showSetupGuide && !showUserGuide && !showConnectJiraGuide
    {
      HandleNavigation(item);
      if pendingNavigations != [] {
        FireNavigationTimer();
      }
    }

    method ResetViews()
      modifies this`showSetupGuide, this`showUserGuide, this`showConnectJiraGuide
      ensures CurrentViews() == Views(false, false, false)
    {
      showSetupGuide := false;
      showUserGuide := false;
      showConnectJiraGuide := false;
    }

    /** `updateView`: turns on the flag of a known item and leaves the others; an unknown item
        changes nothing. */
    method UpdateView(item: string)
      modifies this`showSetupGuide, this`showUserGuide, this`showConnectJiraGuide
      ensures showSetupGuide == (old(showSetupGuide) || item == "setupGuide")
      ensures showUserGuide == (old(showUserGuide) || item == "userGuide")
      ensures showConnectJiraGuide == (old(showConnectJiraGuide) || item == "connectGoogleGuide")
    {
      match item {
        case "setupGuide" => showSetupGuide := true;
        case "userGuide" => showUserGuide := true;
        case "connectGoogleGuide" => showConnectJiraGuide := true;
        case _ =>
      }
    }

    // -------------------------------------------------------------------------
    // Verification

    /** `verifyCredentials`, with the verification call's outcome as a parameter. Missing
        credentials only raise a toast; otherwise the outcome of the call is stored and
        announced, and the spinner ends off. */
    method VerifyCredentials(call: Call<VerifyResult>)
      requires Valid()
      modifies this`showSpinner, this`userProfile, this`errorMessage, this`toasts
      ensures Valid()
      ensures userName == "" || apiKey == "" ==>
        && showSpinner == old(showSpinner) && userProfile == old(userProfile)
        && errorMessage == old(errorMessage) && toasts == old(toasts) + [MissingCredentialsToast]
      ensures userName != "" && apiKey != "" ==>
        var o := VerificationOutcome(call);
        && !showSpinner && userProfile == o.userProfile && errorMessage == o.errorMessage
        && toasts == old(toasts) + [o.toast]
    {
      if userName == "" || apiKey == "" {
        ShowToast(MissingCredentialsToast);
        return;
      }
      showSpinner := true;
      userProfile := None;
      errorMessage := "";
      match call {
        case Returned(result) =>
          if result.success {
            userProfile := result.userProfile;
            ShowToast(VerifiedToast);
          } else {
            errorMessage := result.error;
            ShowToast(Toast("Error", result.error, "error"));
          }
        case Threw(f) =>
          errorMessage := "Error verifying credentials: " + Show(f.message);
          ShowToast(Toast("Error", errorMessage, "error"));
      }
      showSpinner := false;
    }

    method ShowToast(t: Toast)
      modifies this`toasts
      ensures toasts == old(toasts) + [t]
    {
      toasts := toasts + [t];
    }
  }
}
