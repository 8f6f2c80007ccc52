# Header, navigation menu and settings drawer of the customer-support console

This project models the logic inside three React components of the console's UI
library: the side-navigation menu, the site header and the user-settings drawer.
JSX, styling and transport are left out. What remains is modelled as follows.

- **Role-based menu filter** (`Menu`). Only the viewer's first authority picks a rule, and
  the rule keeps or drops each top-level item. The module also covers the fallback to the
  default menu when `items` is empty. **Route matching** (`Routing`) models `checkRouting`,
  which compares the pieces at index 1 of the two `split('/')` results.
- **Presence and status confirmation** (`Presence`, `Header`). The header's state is the
  status (online / idle / offline), the present/away switch, the confirmation modal, the
  away countdown and the activity-query data.
  - The idle timer's `onIdle`/`onActive`, the switch, the countdown tick, the dialog
    buttons and the answers of the backend calls are transitions of that state.
  - Each transition returns the requests it makes (activity post, session extension,
    cookie write, query invalidation, error notice, logout, redirect) as a list of effects.
  - `Header.HeaderComponent` is the component as an object. Its callbacks update fields
    step by step, and each one is proved to perform the matching `Presence` transition.
- **Chat counters** (`Chats`): unanswered chats and chats forwarded to the viewer.
- **Notification effect** (`ChatAlerts`). When a counter changes, the effect decides at once
  whether to play a sound and show a popup. It then keeps one repeating subscription, which
  the effect's cleanup cancels. `ChatAlerts.RepeatEffect` is that effect as an object, and
  the header (forwarded chats) and the drawer (unanswered chats) each own one.
- **Preferences** (`ProfileSettings`, `UserSettings`). The settings record is flat: seven
  switches plus a user id. A toggle replaces one field. The drawer posts the new record and
  adopts it only once the post succeeds. Its settings sections are shown only to some roles.

Time is discrete: every one-second countdown tick, every idle-timer signal and every firing
of a repeating subscription is its own event. Backend answers are events too, and their
payloads are parameters.

## Model

| member | source | states |
|---|---|---|
| Menu.Keeps | libs/react-ui/src/lib/header/src/menu/index.tsx:65-73 | only the five named roles keep anything; an item with id `settings` is kept for an administrator alone; an id-less item is kept exactly for the service manager, support agent and chatbot trainer |
| Menu.FilterByRole | libs/react-ui/src/lib/header/src/menu/index.tsx:63-74 | the filtered list is no longer than the input and every item in it passes the role's rule |
| Menu.FilterMenu | libs/react-ui/src/lib/header/src/menu/index.tsx:63-75 | the menu is no longer than the items, and every item in it passes the rule of `authorities[0]` |
| Menu.NoAuthorityNoMenu | libs/react-ui/src/lib/header/src/menu/index.tsx:64-72 | with no authority `authorities[0]` is undefined, the switch falls to `default` and the menu is empty |
| Menu.VisibleMenu | libs/react-ui/src/lib/header/src/menu/index.tsx:26-28 | an empty `items` prop is replaced by the default menu before filtering; a non-empty one is filtered as given |
| Authority.FirstAuthority | libs/react-ui/src/lib/header/src/menu/index.tsx:64 | `authorities[0]` is present exactly when the list is non-empty, and is its first element |
| Menu.FilterIsSubsequence | libs/react-ui/src/lib/header/src/menu/index.tsx:63-74 | the result is an order-preserving subsequence of the input; kept items, children included, are unchanged |
| Menu.FilterMembership | libs/react-ui/src/lib/header/src/menu/index.tsx:63-74 | an item is in the result iff it is in the input and its role's rule keeps it |
| Menu.FilterMultiplicity | libs/react-ui/src/lib/header/src/menu/index.tsx:63-74 | the result holds every copy of an item the rule keeps, as many times as the input does, and no copy of a dropped item |
| Menu.FilterKeepsAllKept | libs/react-ui/src/lib/header/src/menu/index.tsx:63-74 | a list whose every item passes the rule is returned unchanged |
| Menu.FilterIdempotent | libs/react-ui/src/lib/header/src/menu/index.tsx:63-74 | filtering an already filtered menu with the same authorities changes nothing |
| Menu.NoRuleKeepsNothing | libs/react-ui/src/lib/header/src/menu/index.tsx:71-72 | a missing role, ROLE_UNAUTHENTICATED or any unnamed role keeps no item |
| Menu.OnlyFirstAuthorityMatters | libs/react-ui/src/lib/header/src/menu/index.tsx:64 | authorities after the first do not change the menu |
| Menu.AdministratorKeepsItemsWithId | libs/react-ui/src/lib/header/src/menu/index.tsx:66 | an administrator sees exactly the items whose `id` is truthy (present and non-empty) |
| Menu.ServiceManagerDropsSettingsAndTraining | libs/react-ui/src/lib/header/src/menu/index.tsx:67 | a service manager sees exactly the items other than `settings` and `training` (id-less items included) |
| Menu.CustomerSupportAgentDropsSettingsAndAnalytics | libs/react-ui/src/lib/header/src/menu/index.tsx:68 | a support agent sees exactly the items other than `settings` and `analytics` |
| Menu.ChatbotTrainerDropsSettingsAndConversations | libs/react-ui/src/lib/header/src/menu/index.tsx:69 | a chatbot trainer sees exactly the items other than `settings` and `conversations` |
| Menu.AnalystKeepsOnlyAnalytics | libs/react-ui/src/lib/header/src/menu/index.tsx:70 | an analyst sees exactly the items whose id is `analytics` |
| Menu.UnmappedRoleSeesNothing | libs/react-ui/src/lib/header/src/menu/index.tsx:71-72 | unauthenticated and unknown first authorities see an empty menu |
| Menu.ServiceManagerScenario | libs/react-ui/src/lib/header/src/menu/index.tsx:67 | conversations, training, analytics, settings filter to conversations, analytics for a service manager |
| Routing.Split | libs/react-ui/src/lib/header/src/menu/index.tsx:122 | `split('/')` yields at least one piece and no piece contains a slash |
| Routing.SegmentAt1 | libs/react-ui/src/lib/header/src/menu/index.tsx:122 | `split('/')[1]` is defined exactly when the path holds a slash, and then holds no slash itself |
| Routing.CheckRouting | libs/react-ui/src/lib/header/src/menu/index.tsx:121-123 | a path with a slash never matches one without, and two slash-free paths always match |
| Routing.JoinSplit | libs/react-ui/src/lib/header/src/menu/index.tsx:122 | joining the pieces with '/' gives back the original string |
| Routing.IndexOf | libs/react-ui/src/lib/header/src/menu/index.tsx:122 | the index found holds the character and no earlier index does |
| Routing.SplitAtFirstSlash | libs/react-ui/src/lib/header/src/menu/index.tsx:122 | the pieces are the text before the first slash followed by the pieces of the rest; one piece when there is no slash |
| Routing.SegmentAt1IsSecondSegment | libs/react-ui/src/lib/header/src/menu/index.tsx:122 | `split('/')[1]` is the text between the first and second slash, and undefined when there is no slash |
| Routing.CheckRoutingMeaning | libs/react-ui/src/lib/header/src/menu/index.tsx:121-123 | `checkRouting(a, b)` holds iff the second path segments of a and b agree, both missing counting as equal |
| Routing.CheckRoutingIsEquivalence | libs/react-ui/src/lib/header/src/menu/index.tsx:121-123 | `checkRouting` is reflexive, symmetric and transitive |
| Chats.UnansweredChats | libs/react-ui/src/lib/header/src/header/index.tsx:109-115 | 0 when no list was received, otherwise at most the list's length |
| Chats.ForwardedChats | libs/react-ui/src/lib/header/src/header/index.tsx:116-126 | 0 when no list was received, otherwise at most the list's length |
| Chats.UnansweredCountsPositions | libs/react-ui/src/lib/header/src/header/index.tsx:109-115 | the unanswered counter equals the number of chats whose `customerSupportId` is empty |
| Chats.ForwardedCountsPositions | libs/react-ui/src/lib/header/src/header/index.tsx:116-126 | the forwarded counter equals the number of REDIRECTED chats whose `customerSupportId` is the viewer's id code |
| Chats.CountersWithinList | libs/react-ui/src/lib/header/src/header/index.tsx:109-126 | for a viewer whose id code is not empty, unanswered plus forwarded never exceeds the list's length |
| ProfileSettings.With | libs/react-ui/src/lib/header/src/header/components/UserSettings/userSettings.tsx:77-80 | the spread record holds `checked` at the named key, every other switch and the user id as before |
| ProfileSettings.SameFieldsSameRecord | libs/react-ui/src/lib/header/src/header/components/UserSettings/userSettings.tsx:37-47 | a record is determined by its user id and its seven switches |
| ProfileSettings.WithIsUnique | libs/react-ui/src/lib/header/src/header/components/UserSettings/userSettings.tsx:77-80 | any record differing from the current one only at the named key, holding `checked` there, is the spread record |
| ProfileSettings.WithCurrentValue | libs/react-ui/src/lib/header/src/header/components/UserSettings/userSettings.tsx:77-80 | re-sending a switch's current value leaves the record unchanged |
| ProfileSettings.WithTwice | libs/react-ui/src/lib/header/src/header/components/UserSettings/userSettings.tsx:77-80 | a second write to the same key overrides the first |
| ProfileSettings.Includes | libs/react-ui/src/lib/header/src/header/components/UserSettings/userSettings.tsx:172 | `list.includes(x)` holds iff x is in the list |
| ProfileSettings.SomeIncluded | libs/react-ui/src/lib/header/src/header/components/UserSettings/userSettings.tsx:168-172 | `gates.some(g => list.includes(g))` holds iff some gate role is in the list |
| ProfileSettings.ShowsSettingsSections | libs/react-ui/src/lib/header/src/header/components/UserSettings/userSettings.tsx:168-172 | settings sections are shown iff the authorities include ADMINISTRATOR, CUSTOMER_SUPPORT_AGENT or SERVICE_MANAGER, anywhere in the list |
| ChatAlerts.ImmediateAlerts | libs/react-ui/src/lib/header/src/header/components/UserSettings/userSettings.tsx:109-119 | for a positive count: a sound iff the sound flag is set, a popup iff both the e-mail and popup flags are set, each at most once, sound first; nothing for 0 |
| ChatAlerts.RepeatAlerts | libs/react-ui/src/lib/header/src/header/components/UserSettings/userSettings.tsx:120-129 | each firing plays a sound iff the sound flag is set and shows a popup iff the popup flag alone is set, each at most once, sound first |
| ChatAlerts.LiveCount | libs/react-ui/src/lib/header/src/header/components/UserSettings/userSettings.tsx:120-133 | the number of live subscriptions never exceeds the number made |
| ChatAlerts.AtMostOneLive | libs/react-ui/src/lib/header/src/header/components/UserSettings/userSettings.tsx:107-135 | when only the latest run's subscription can be live, exactly one is live while a run holds one and none otherwise |
| ChatAlerts.Unsubscribe | libs/react-ui/src/lib/header/src/header/components/UserSettings/userSettings.tsx:132 | unsubscribing marks that subscription dead and leaves the others alone |
| ChatAlerts.RepeatEffect.constructor | libs/react-ui/src/lib/header/src/header/components/UserSettings/userSettings.tsx:107-108 | before the first run there are no subscriptions and no alerts |
| ChatAlerts.RepeatEffect.Cleanup | libs/react-ui/src/lib/header/src/header/components/UserSettings/userSettings.tsx:131-133 | the cleanup cancels the last run's subscription, if any, and afterwards none is live |
| ChatAlerts.RepeatEffect.Run | libs/react-ui/src/lib/header/src/header/components/UserSettings/userSettings.tsx:108-130 | one effect run: the immediate alerts are appended, earlier subscriptions are kept as they are, and a positive count adds one live subscription capturing the current preferences, which becomes the current one |
| ChatAlerts.RepeatEffect.Render | libs/react-ui/src/lib/header/src/header/components/UserSettings/userSettings.tsx:107-135 | an unchanged count does nothing; a changed count cleans up, emits the immediate alerts and, when positive, leaves exactly one live subscription capturing the current preferences, and none at 0; earlier subscriptions are kept in place, only the previous run's one cancelled |
| ChatAlerts.RepeatEffect.Unmount | libs/react-ui/src/lib/header/src/header/components/UserSettings/userSettings.tsx:131-133 | unmounting leaves no live subscription |
| ChatAlerts.RepeatEffect.Fire | libs/react-ui/src/lib/header/src/header/components/UserSettings/userSettings.tsx:120-129 | only the current run's subscription can fire, emitting the repeat alerts for the preferences it captured; a cancelled one does nothing |
| UserSettings.SettingsStore.constructor | libs/react-ui/src/lib/header/src/header/components/UserSettings/userSettings.tsx:37-61 | the drawer starts from the default record and requests the viewer's profile settings; its unanswered-chat effect has no run yet, no subscription and no alert |
| UserSettings.SettingsStore.SettingsFetched | libs/react-ui/src/lib/header/src/header/components/UserSettings/userSettings.tsx:52-61 | a truthy `response` replaces the whole record; otherwise the current record stays |
| UserSettings.SettingsStore.Toggle | libs/react-ui/src/lib/header/src/header/components/UserSettings/userSettings.tsx:75-82 | a switch posts the record with exactly that key changed and leaves local state as it was |
| UserSettings.SettingsStore.PostSucceeded | libs/react-ui/src/lib/header/src/header/components/UserSettings/userSettings.tsx:85-88 | after a successful post, local state is the record that post sent |
| UserSettings.SettingsStore.PostFailed | libs/react-ui/src/lib/header/src/header/components/UserSettings/userSettings.tsx:89-96 | after a failed post, local state is unchanged, the profile-settings query is invalidated and an error notice carries the message |
| UserSettings.SettingsStore.Render | libs/react-ui/src/lib/header/src/header/components/UserSettings/userSettings.tsx:99-135 | the drawer's chat list stays empty, so its unanswered effect never alerts and never holds a live subscription |
| UserSettings.SettingsStore.Unmount | libs/react-ui/src/lib/header/src/header/components/UserSettings/userSettings.tsx:131-133 | closing the drawer leaves no live subscription |
| UserSettings.DrawerCountsAreZero | libs/react-ui/src/lib/header/src/header/components/UserSettings/userSettings.tsx:33 | over the drawer's empty list both counters are 0 and a run emits no alerts |
| UserSettings.LaterPostDropsEarlierToggle | libs/react-ui/src/lib/header/src/header/components/UserSettings/userSettings.tsx:75-88 | after a fetch, two switches flipped before either post answers, and both posts succeeding in order, leave the first key at its fetched value and the second at its new one: the first change is lost |
| Consts.IdleTimeoutIsFiveMinutes | libs/react-ui/src/lib/header/src/header/consts/consts.ts:1 | the idle timeout is 300000 ms |
| Consts.SubscriptionIntervalIsTwoMinutes | libs/react-ui/src/lib/header/src/header/consts/consts.ts:7 | the repeat interval is 2 * 60 * 1000 = 120000 ms |
| Consts.StatusColorsCoverStatuses | libs/react-ui/src/lib/header/src/header/consts/consts.ts:2-6 | exactly idle, online and offline have colours, pairwise distinct |
| Presence.StatusColorsTellStatusesApart | libs/react-ui/src/lib/header/src/header/index.tsx:326 | two statuses get the same dot colour iff they are the same status |
| Presence.ActivityLoaded | libs/react-ui/src/lib/header/src/header/index.tsx:90-97 | the query's first row sets the status, and the switch is on iff its `active` text is "true" |
| Presence.OnIdle | libs/react-ui/src/lib/header/src/header/index.tsx:212-222 | without activity data or while offline nothing happens; otherwise status becomes idle and one idle report with the unchanged switch is sent; offline is neither entered nor left |
| Presence.OnActive | libs/react-ui/src/lib/header/src/header/index.tsx:224-237 | without data nothing happens; while offline only the modal is toggled and nothing is sent; otherwise status becomes online with one online report; online is never reached from offline |
| Presence.ShowStatusChangePopup | libs/react-ui/src/lib/header/src/header/index.tsx:257-260 | a no-op while a countdown has started; otherwise raises the flag and starts exactly one interval |
| Presence.HandleCsaStatusChange | libs/react-ui/src/lib/header/src/header/index.tsx:246-255 | the switch takes `checked` and one report (online iff checked, empty id) is sent; status, modal and seconds stay; turning away always leaves a countdown started |
| Presence.CountdownTick | libs/react-ui/src/lib/header/src/header/index.tsx:261-272 | with seconds left, a tick takes one off; at 0 it clears the interval, toggles the modal and the started flag, and the seconds stay 0 |
| Presence.CancelModal | libs/react-ui/src/lib/header/src/header/index.tsx:349-357 | cancel and close flip the modal and change nothing else |
| Presence.ConfirmModal | libs/react-ui/src/lib/header/src/header/index.tsx:360-366 | confirm turns the switch on, reports online, and toggles the modal; the status itself is unchanged |
| Presence.ActivityPostSucceeded | libs/react-ui/src/lib/header/src/header/index.tsx:164-166 | a successful report extends the session iff the status is online |
| Presence.ActivityPostFailed | libs/react-ui/src/lib/header/src/header/index.tsx:167-177 | a failed report keeps local state, invalidates the activity query and shows the error message |
| Presence.SessionExtended | libs/react-ui/src/lib/header/src/header/index.tsx:186-192 | a non-null token is written to the JWT cookie; a null one writes nothing |
| Presence.LogoutClicked | libs/react-ui/src/lib/header/src/header/index.tsx:337 | the logout button posts a logout and changes no state |
| Presence.LogoutSucceeded | libs/react-ui/src/lib/header/src/header/index.tsx:200-202 | a successful logout redirects to the login page |
| Presence.LogoutFailed | libs/react-ui/src/lib/header/src/header/index.tsx:203-209 | a failed logout shows the error message |
| Presence.RunAppend | libs/react-ui/src/lib/header/src/header/index.tsx:212-272 | running two event sequences in turn is running their concatenation |
| Presence.RunKeepsInv | libs/react-ui/src/lib/header/src/header/index.tsx:257-272 | after any event sequence the started flag is raised iff exactly one countdown interval runs, so two never run at once |
| Presence.StepOnlyTogglesModal | libs/react-ui/src/lib/header/src/header/index.tsx:227-364 | no event sets the modal to a fixed value: each one commutes with flipping the modal |
| Presence.RunOnlyTogglesModal | libs/react-ui/src/lib/header/src/header/index.tsx:227-364 | flipping the modal before any event sequence equals flipping it after, with the same requests |
| Presence.OfflineStaysOffline | libs/react-ui/src/lib/header/src/header/index.tsx:212-237 | idle-timer signals keep an offline agent offline and send nothing; each activity signal only toggles the modal |
| Presence.ActivityKeepsOfflineness | libs/react-ui/src/lib/header/src/header/index.tsx:212-237 | idle-timer signals end offline iff they start offline, and never change the switch or the countdown |
| Presence.NoActivityDataNoChange | libs/react-ui/src/lib/header/src/header/index.tsx:212-226 | before the activity query answers, idle-timer signals change nothing and send nothing |
| Presence.Ticks | libs/react-ui/src/lib/header/src/header/index.tsx:261-272 | n countdown ticks in a row |
| Presence.TicksCountDown | libs/react-ui/src/lib/header/src/header/index.tsx:262-265 | while seconds remain, n ticks only subtract n seconds |
| Presence.TicksSnoc | libs/react-ui/src/lib/header/src/header/index.tsx:261-272 | n + 1 ticks are n ticks followed by one |
| Presence.CountdownTogglesModalOnce | libs/react-ui/src/lib/header/src/header/index.tsx:257-272 | a countdown started with k seconds left leaves the modal alone for k ticks, toggles it on tick k + 1 and ends stopped with 0 seconds |
| Presence.AwayCountdownFromStart | libs/react-ui/src/lib/header/src/header/index.tsx:246-272 | from mount, switching to away and waiting 301 seconds sends one offline report and opens the modal with the countdown stopped |
| Presence.RestartedCountdownFiresAtOnce | libs/react-ui/src/lib/header/src/header/index.tsx:262-270 | seconds are not reset to 300, so a countdown restarted after one has run out toggles the modal on its first tick |
| Header.HeaderComponent.constructor | libs/react-ui/src/lib/header/src/header/index.tsx:51-78 | mounting starts online, switch off, modal hidden, no countdown, 300 seconds, default preferences, an empty chat list, and requests the profile settings; the forwarded-chat effect has no run yet, no subscription and no alert |
| Header.HeaderComponent.ProfileSettingsFetched | libs/react-ui/src/lib/header/src/header/index.tsx:80-88 | a truthy `response` replaces the header's preference record; otherwise it stays |
| Header.HeaderComponent.ChatsFetched | libs/react-ui/src/lib/header/src/header/index.tsx:100-105 | the chat list is replaced wholesale by the query's answer |
| Header.HeaderComponent.ActivityLoaded | libs/react-ui/src/lib/header/src/header/index.tsx:90-97 | performs Presence.ActivityLoaded and keeps the single-countdown invariant |
| Header.HeaderComponent.OnIdle | libs/react-ui/src/lib/header/src/header/index.tsx:212-222 | performs Presence.OnIdle on the fields and appends its request |
| Header.HeaderComponent.OnActive | libs/react-ui/src/lib/header/src/header/index.tsx:224-237 | performs Presence.OnActive on the fields and appends its request |
| Header.HeaderComponent.ShowStatusChangePopup | libs/react-ui/src/lib/header/src/header/index.tsx:257-260 | performs Presence.ShowStatusChangePopup and keeps the single-countdown invariant |
| Header.HeaderComponent.HandleCsaStatusChange | libs/react-ui/src/lib/header/src/header/index.tsx:246-255 | performs Presence.HandleCsaStatusChange, calling ShowStatusChangePopup when turning away |
| Header.HeaderComponent.CountdownTick | libs/react-ui/src/lib/header/src/header/index.tsx:261-272 | performs Presence.CountdownTick and keeps the single-countdown invariant |
| Header.HeaderComponent.CancelModal | libs/react-ui/src/lib/header/src/header/index.tsx:349-357 | performs Presence.CancelModal |
| Header.HeaderComponent.ConfirmModal | libs/react-ui/src/lib/header/src/header/index.tsx:360-366 | performs Presence.ConfirmModal by calling HandleCsaStatusChange(true) and toggling the modal |
| Header.HeaderComponent.ActivityPostSucceeded | libs/react-ui/src/lib/header/src/header/index.tsx:164-166 | appends the session extension exactly when the current status is online |
| Header.HeaderComponent.ActivityPostFailed | libs/react-ui/src/lib/header/src/header/index.tsx:167-177 | appends the invalidation and the error notice; no field changes |
| Header.HeaderComponent.SessionExtended | libs/react-ui/src/lib/header/src/header/index.tsx:186-192 | appends the cookie write for a non-null token only |
| Header.HeaderComponent.LogoutClicked | libs/react-ui/src/lib/header/src/header/index.tsx:337 | appends the logout post |
| Header.HeaderComponent.LogoutSucceeded | libs/react-ui/src/lib/header/src/header/index.tsx:200-202 | appends the redirect to the login page |
| Header.HeaderComponent.LogoutFailed | libs/react-ui/src/lib/header/src/header/index.tsx:203-209 | appends the error notice |
| Header.HeaderComponent.Render | libs/react-ui/src/lib/header/src/header/index.tsx:128-156 | the effect records the current counter; an unchanged counter changes neither alerts nor subscriptions; a changed one emits the immediate alerts and, when positive, leaves exactly one live subscription, the newest, capturing the current preferences; none is live when the counter is 0 |
| Header.HeaderComponent.Unmount | libs/react-ui/src/lib/header/src/header/index.tsx:152-154 | unmounting cancels the forwarded-chat subscription and emits no alert |

## Left out

- Rendering, CSS, icons, `aria-expanded` toggling in `handleNavToggle`, the drawer's open/close flag and the collapsed-menu flag are presentation only.
- The HTTP and event-stream clients, react-query caching, cookies, the audio player, toasts and `window.location` appear only as effects (`Effect`, `SettingsEffect`, `Alert`). Backend answers are method or event parameters.
- Idle detection, `setInterval` and rxjs `interval` are discrete events. Wall-clock time, and the 500 ms throttle of the idle timer, are not modelled.
- Presence.ActivityLoaded: assumes the activity query returns a first row and that its status is one of `online`, `idle` and `offline`. For an empty list, `res.data.get_customer_support_activity[0].status` throws inside `onSuccess` after the data is cached, so `customerSupportActivity` is set while the status and the switch keep their old values. A status outside the three keywords has no colour in `STATUS_COLORS`, and `onIdle`/`onActive` treat it as not offline. Neither case is modelled, because the status type has only the three values.
- The query callback reads `res.data.get_user[0]`. A response with no user throws in the source; that case is not modelled.
- `data/menu-structure.json` is not part of this model; the default menu is a parameter of `Menu.VisibleMenu`.
- `types/authorities.ts` and `types/chat.ts` are not part of this model. The role strings are assumed to match the menu's literals, such as `ROLE_ADMINISTRATOR`. Chat statuses other than REDIRECTED are one `OtherStatus` case.
- Leaf menu items without a `path` would make the source's `checkRouting` call `undefined.split` while rendering. Rendering is left out, and `Routing.CheckRouting` takes two strings.
- Settings keys are the seven switch names. The source's computed `[key]` would accept any string, but the drawer passes only these seven.
- `handleUserProfileSettingsChange` returns early when `userProfileSettings` is falsy. The record is initialised to an object and only ever replaced by a truthy one, so that branch is not modelled.
- The session-extension error handler only writes to the console; it is not modelled.
- The countdown interval is never cleared when the header unmounts. The model has no header-unmount effect on `liveCountdowns`, which matches that.

Three behaviours of the code that are easy to misread:
- the confirm button calls `handleCsaStatusChange(true)`, which does not set the status to online;
- a repeat notification shows a popup on the popup flag alone, without the e-mail flag;
- the countdown's seconds are never reset to 300.

The notification effect's dependency list holds only the counter. Changed preferences therefore
reach a new subscription only when the counter changes, and a running subscription keeps the
preferences it captured. The model keeps this: `RepeatEffect.Render` does nothing for an
unchanged count.
