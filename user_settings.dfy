/**
 * The settings drawer's own state (UserSettings/userSettings.tsx): its copy
 * of the preference record, the posts it has sent and not yet heard back
 * from, and the unanswered-chat notification effect it runs.
 */
module UserSettings {
  import opened Wrappers
  import opened ProfileSettings
  import opened Chats
  import opened ChatAlerts

  /** Requests and notices the drawer hands to its collaborators. */
  datatype SettingsEffect =
    | FetchSettings(userId: Option<string>)
    | PostSettings(record: UserProfileSettings)
    | InvalidateSettingsQuery
    | ErrorNotice(message: string)

  class SettingsStore {
    var settings: UserProfileSettings
    /** Records posted and not yet answered, in the order they were sent. */
    var pending: seq<UserProfileSettings>
    var effects: seq<SettingsEffect>
    /** The drawer's chat list: initialised empty and never assigned. */
    const activeChatsList: seq<Chat> := []
    const unansweredAlerts: RepeatEffect

    predicate Valid()
      reads this, unansweredAlerts
    {
      unansweredAlerts.kind == NewChat && unansweredAlerts.Valid()
    }

    /** Mounting the drawer: defaults in place, and the profile fetched for the viewer. */
    constructor (viewerId: Option<string>)
      ensures Valid() && fresh(unansweredAlerts)
      ensures settings == Defaults && pending == []
      ensures effects == [FetchSettings(viewerId)]
      ensures unansweredAlerts.lastCount == None && unansweredAlerts.subs == [] && unansweredAlerts.alerts == []
    {
      settings := Defaults;
      pending := [];
      effects := [FetchSettings(viewerId)];
      unansweredAlerts := new RepeatEffect(NewChat);
    }

    /** The fetch answered: a present `response` replaces the whole record, an absent one keeps it. */
    method SettingsFetched(response: Option<UserProfileSettings>)
      modifies this
      ensures settings == (if response.Some? then response.value else old(settings))
      ensures pending == old(pending) && effects == old(effects)
    {
      if response.Some? {
        settings := response.value;
      }
    }

    /** A switch changed: the updated record is posted; local state waits for the answer. */
    method Toggle(key: Key, checked: bool)
      modifies this
      ensures settings == old(settings)
      ensures pending == old(pending) + [With(old(settings), key, checked)]
      ensures effects == old(effects) + [PostSettings(With(old(settings), key, checked))]
    {
      var newSettings := With(settings, key, checked);
      pending := pending + [newSettings];
      effects := effects + [PostSettings(newSettings)];
    }

    /** Post `i` succeeded: the record it carried becomes the local state. */
    method PostSucceeded(i: nat)
      requires i < |pending|
      modifies this
      ensures settings == old(pending[i])
      ensures pending == old(pending[..i] + pending[i + 1..])
      ensures effects == old(effects)
    {
      settings := pending[i];
      pending := pending[..i] + pending[i + 1..];
    }

    /** Post `i` failed: local state stays, the cached profile is invalidated and the error shown. */
    method PostFailed(i: nat, message: string)
      requires i < |pending|
      modifies this
      ensures settings == old(settings)
      ensures pending == old(pending[..i] + pending[i + 1..])
      ensures effects == old(effects) + [InvalidateSettingsQuery, ErrorNotice(message)]
    {
      pending := pending[..i] + pending[i + 1..];
      effects := effects + [InvalidateSettingsQuery, ErrorNotice(message)];
    }

    /** A render: the unanswered-chat effect sees a count of 0, so it never alerts or subscribes. */
    method Render()
      requires Valid()
      modifies unansweredAlerts
      ensures Valid()
      ensures unansweredAlerts.alerts == old(unansweredAlerts.alerts)
      ensures LiveCount(unansweredAlerts.subs) == 0
    {
      DrawerCountsAreZero(None);
      unansweredAlerts.Render(UnansweredChats(Some(activeChatsList)), settings);
    }

    /** The drawer closes. */
    method Unmount()
      requires Valid()
      modifies unansweredAlerts
      ensures Valid() && LiveCount(unansweredAlerts.subs) == 0
      ensures unansweredAlerts.alerts == old(unansweredAlerts.alerts)
    {
      unansweredAlerts.Unmount();
    }
  }

  /** Over the drawer's empty chat list both counters are 0 and the immediate alerts are empty. */
  lemma DrawerCountsAreZero(viewerId: Option<string>)
    ensures UnansweredChats(Some([])) == 0 && ForwardedChats(Some([]), viewerId) == 0
    ensures forall p :: ImmediateAlerts(NewChat, 0, p) == []
  {
  }

  /**
   * Two switches flipped before either post answers are both built from the
   * same local record, so once both posts succeed in order the earlier change is lost.
   */
  method LaterPostDropsEarlierToggle(viewerId: Option<string>, fetched: UserProfileSettings, k1: Key, c1: bool, k2: Key, c2: bool)
    returns (final: UserProfileSettings)
    requires k1 != k2
    ensures Get(final, k1) == Get(fetched, k1) && Get(final, k2) == c2
    ensures Get(fetched, k1) != c1 ==> Get(final, k1) != c1
  {
    var store := new SettingsStore(viewerId);
    store.SettingsFetched(Some(fetched));
    store.Toggle(k1, c1);
    store.Toggle(k2, c2);
    store.PostSucceeded(0);
    store.PostSucceeded(0);
    final := store.settings;
  }
}
