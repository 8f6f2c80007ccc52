/**
 * The Header component's state (header/index.tsx) as an object: the presence
 * fields its callbacks update, the requests it has handed out, its copy of the
 * preference record, its chat list, and the forwarded-chat notification effect.
 * Every callback is proved to perform the matching transition of Presence.
 */
module Header {
  import opened Wrappers
  import opened Presence
  import opened Chats
  import opened ProfileSettings
  import opened ChatAlerts

  class HeaderComponent {
    var activity: Option<ActivityData>
    var csaStatus: Status
    var csaActive: bool
    var showStatusConfirmationModal: bool
    var statusPopupTimerHasStarted: bool
    var secondsUntilStatusPopup: nat
    /** Countdown intervals created and not yet cleared. */
    var liveCountdowns: nat
    /** Requests and notices handed to collaborators, oldest first. */
    var effects: seq<Effect>
    var profileSettings: UserProfileSettings
    /** None when the chat query answered without a list. */
    var activeChatsList: Option<seq<Chat>>
    /** `userInfo?.idCode`. */
    const viewerId: Option<string>
    const forwardedAlerts: RepeatEffect

    /** The presence fields as one value. */
    function State(): HeaderState
      reads this
    {
      HeaderState(activity, csaStatus, csaActive, showStatusConfirmationModal,
                  statusPopupTimerHasStarted, secondsUntilStatusPopup, liveCountdowns)
    }

    predicate Valid()
      reads this, forwardedAlerts
    {
      Inv(State()) && forwardedAlerts.kind == ForwardedChat && forwardedAlerts.Valid()
    }

    /** Mounting: initial state, and the viewer's profile settings requested. */
    constructor (viewerId: Option<string>)
      ensures Valid() && fresh(forwardedAlerts) && this.viewerId == viewerId
      ensures State() == Initial && effects == [FetchProfileSettings(viewerId)]
      ensures profileSettings == Defaults && activeChatsList == Some([])
      ensures forwardedAlerts.lastCount == None && forwardedAlerts.subs == [] && forwardedAlerts.alerts == []
    {
      activity := None;
      csaStatus := Online;
      csaActive := false;
      showStatusConfirmationModal := false;
      statusPopupTimerHasStarted := false;
      secondsUntilStatusPopup := COUNTDOWN_SECONDS;
      liveCountdowns := 0;
      effects := [FetchProfileSettings(viewerId)];
      profileSettings := Defaults;
      activeChatsList := Some([]);
      this.viewerId := viewerId;
      forwardedAlerts := new RepeatEffect(ForwardedChat);
    }

    /** The profile fetch answered; only a present `response` replaces the record. */
    method ProfileSettingsFetched(response: Option<UserProfileSettings>)
      modifies this
      ensures profileSettings == (if response.Some? then response.value else old(profileSettings))
      ensures State() == old(State()) && effects == old(effects) && activeChatsList == old(activeChatsList)
    {
      if response.Some? {
        profileSettings := response.value;
      }
    }

    /** The active-chats query answered. */
    method ChatsFetched(list: Option<seq<Chat>>)
      modifies this
      ensures activeChatsList == list
      ensures State() == old(State()) && effects == old(effects) && profileSettings == old(profileSettings)
    {
      activeChatsList := list;
    }

    method ActivityLoaded(data: ActivityData, row: ActivityRow)
      requires Valid()
      modifies this
      ensures Valid()
      ensures State() == Presence.ActivityLoaded(old(State()), data, row).next
      ensures effects == old(effects) + Presence.ActivityLoaded(old(State()), data, row).effects
      ensures profileSettings == old(profileSettings) && activeChatsList == old(activeChatsList)
    {
      activity := Some(data);
      csaStatus := row.status;
      csaActive := row.active == "true";
    }

    method OnIdle()
      requires Valid()
      modifies this
      ensures Valid()
      ensures State() == Presence.OnIdle(old(State())).next
      ensures effects == old(effects) + Presence.OnIdle(old(State())).effects
      ensures profileSettings == old(profileSettings) && activeChatsList == old(activeChatsList)
    {
      if activity.None? {
        return;
      }
      if csaStatus == Offline {
        return;
      }
      csaStatus := Idle;
      effects := effects + [PostActivity(csaActive, activity.value.idCode, Idle)];
    }

    method OnActive()
      requires Valid()
      modifies this
      ensures Valid()
      ensures State() == Presence.OnActive(old(State())).next
      ensures effects == old(effects) + Presence.OnActive(old(State())).effects
      ensures profileSettings == old(profileSettings) && activeChatsList == old(activeChatsList)
    {
      if activity.None? {
        return;
      }
      if csaStatus == Offline {
        showStatusConfirmationModal := !showStatusConfirmationModal;
        return;
      }
      csaStatus := Online;
      effects := effects + [PostActivity(csaActive, activity.value.idCode, Online)];
    }

    method ShowStatusChangePopup()
      requires Valid()
      modifies this
      ensures Valid()
      ensures State() == Presence.ShowStatusChangePopup(old(State())).next
      ensures effects == old(effects)
      ensures profileSettings == old(profileSettings) && activeChatsList == old(activeChatsList)
    {
      if statusPopupTimerHasStarted {
        return;
      }
      statusPopupTimerHasStarted := !statusPopupTimerHasStarted;
      liveCountdowns := liveCountdowns + 1;
    }

    method HandleCsaStatusChange(checked: bool)
      requires Valid()
      modifies this
      ensures Valid()
      ensures State() == Presence.HandleCsaStatusChange(old(State()), checked).next
      ensures effects == old(effects) + Presence.HandleCsaStatusChange(old(State()), checked).effects
      ensures profileSettings == old(profileSettings) && activeChatsList == old(activeChatsList)
    {
      csaActive := checked;
      effects := effects + [PostActivity(checked, "", if checked then Online else Offline)];
      if !checked {
        ShowStatusChangePopup();
      }
    }

    /** One second of the countdown interval. */
    method CountdownTick()
      requires Valid()
      modifies this
      ensures Valid()
      ensures State() == Presence.CountdownTick(old(State())).next
      ensures effects == old(effects)
      ensures profileSettings == old(profileSettings) && activeChatsList == old(activeChatsList)
    {
      if liveCountdowns == 0 {
        return;
      }
      if secondsUntilStatusPopup > 0 {
        secondsUntilStatusPopup := secondsUntilStatusPopup - 1;
      } else {
        liveCountdowns := liveCountdowns - 1;
        showStatusConfirmationModal := !showStatusConfirmationModal;
        statusPopupTimerHasStarted := !statusPopupTimerHasStarted;
        secondsUntilStatusPopup := 0;
      }
    }

    method CancelModal()
      requires Valid()
      modifies this
      ensures Valid()
      ensures State() == Presence.CancelModal(old(State())).next
      ensures effects == old(effects)
      ensures profileSettings == old(profileSettings) && activeChatsList == old(activeChatsList)
    {
      showStatusConfirmationModal := !showStatusConfirmationModal;
    }

    method ConfirmModal()
      requires Valid()
      modifies this
      ensures Valid()
      ensures State() == Presence.ConfirmModal(old(State())).next
      ensures effects == old(effects) + Presence.ConfirmModal(old(State())).effects
      ensures profileSettings == old(profileSettings) && activeChatsList == old(activeChatsList)
    {
      HandleCsaStatusChange(true);
      showStatusConfirmationModal := !showStatusConfirmationModal;
    }

    method ActivityPostSucceeded()
      modifies this
      ensures State() == old(State())
      ensures effects == old(effects) + Presence.ActivityPostSucceeded(old(State())).effects
      ensures profileSettings == old(profileSettings) && activeChatsList == old(activeChatsList)
    {
      if csaStatus == Online {
        effects := effects + [ExtendSession];
      }
    }

    method ActivityPostFailed(message: string)
      modifies this
      ensures State() == old(State())
      ensures effects == old(effects) + Presence.ActivityPostFailed(old(State()), message).effects
      ensures profileSettings == old(profileSettings) && activeChatsList == old(activeChatsList)
    {
      effects := effects + [InvalidateActivityQuery, ErrorNotice(message)];
    }

    /** The session-extension post answered with `custom_jwt_extend` (None for null). */
    method SessionExtended(token: Option<string>)
      modifies this
      ensures State() == old(State())
      ensures effects == old(effects) + Presence.SessionExtended(old(State()), token).effects
      ensures profileSettings == old(profileSettings) && activeChatsList == old(activeChatsList)
    {
      if token.None? {
        return;
      }
      effects := effects + [SetJwtCookie(token.value)];
    }

    method LogoutClicked()
      modifies this
      ensures State() == old(State()) && effects == old(effects) + [PostLogout]
      ensures profileSettings == old(profileSettings) && activeChatsList == old(activeChatsList)
    {
      effects := effects + [PostLogout];
    }

    method LogoutSucceeded()
      modifies this
      ensures State() == old(State()) && effects == old(effects) + [RedirectToLogin]
      ensures profileSettings == old(profileSettings) && activeChatsList == old(activeChatsList)
    {
      effects := effects + [RedirectToLogin];
    }

    method LogoutFailed(message: string)
      modifies this
      ensures State() == old(State()) && effects == old(effects) + [ErrorNotice(message)]
      ensures profileSettings == old(profileSettings) && activeChatsList == old(activeChatsList)
    {
      effects := effects + [ErrorNotice(message)];
    }

    /**
     * A render: the forwarded-chat effect sees the current counter and preferences.
     * It runs only when the counter differs from the previous render's.
     */
    method Render()
      requires Valid()
      modifies forwardedAlerts
      ensures Valid()
      ensures forwardedAlerts.lastCount == Some(ForwardedChats(activeChatsList, viewerId))
      ensures old(forwardedAlerts.lastCount) == Some(ForwardedChats(activeChatsList, viewerId)) ==>
        forwardedAlerts.alerts == old(forwardedAlerts.alerts) && forwardedAlerts.subs == old(forwardedAlerts.subs)
      ensures old(forwardedAlerts.lastCount) != Some(ForwardedChats(activeChatsList, viewerId)) ==>
        forwardedAlerts.alerts == old(forwardedAlerts.alerts)
          + ImmediateAlerts(ForwardedChat, ForwardedChats(activeChatsList, viewerId), profileSettings)
      ensures (old(forwardedAlerts.lastCount) != Some(ForwardedChats(activeChatsList, viewerId))
               && ForwardedChats(activeChatsList, viewerId) > 0) ==>
        LiveCount(forwardedAlerts.subs) == 1
        && forwardedAlerts.subs[|forwardedAlerts.subs| - 1] == Subscription(profileSettings, true)
      ensures LiveCount(forwardedAlerts.subs) <= 1
      ensures ForwardedChats(activeChatsList, viewerId) == 0 ==> LiveCount(forwardedAlerts.subs) == 0
    {
      forwardedAlerts.Render(ForwardedChats(activeChatsList, viewerId), profileSettings);
      AtMostOneLive(forwardedAlerts.subs, forwardedAlerts.current);
    }

    /** The header goes away: the forwarded-chat subscription is cancelled. */
    method Unmount()
      requires Valid()
      modifies forwardedAlerts
      ensures Valid() && LiveCount(forwardedAlerts.subs) == 0
      ensures forwardedAlerts.alerts == old(forwardedAlerts.alerts)
    {
      forwardedAlerts.Unmount();
    }
  }
}
