/**
 * The header's presence and status-confirmation logic (header/index.tsx) as
 * a transition system over the component's state. Each event yields the next
 * state and the requests it hands to the backend, in order.
 */
module Presence {
  import opened Wrappers
  import Consts

  datatype Status = Online | Idle | Offline

  function StatusKeyword(s: Status): string
  {
    match s
    case Online => "online"
    case Idle => "idle"
    case Offline => "offline"
  }

  /** `STATUS_COLORS[csaStatus]`, the colour of the status dot. */
  function StatusColor(s: Status): string
  {
    Consts.STATUS_COLORS[StatusKeyword(s)]
  }

  /** Every status has a colour of its own. */
  lemma StatusColorsTellStatusesApart(s: Status, t: Status)
    ensures StatusColor(s) == StatusColor(t) <==> s == t
  {
  }

  /** The activity query's data object; the idle callbacks read its `idCode`. */
  datatype ActivityData = ActivityData(idCode: string)

  /** First row of `get_customer_support_activity`; `active` arrives as text. */
  datatype ActivityRow = ActivityRow(status: Status, active: string)

  /** Requests and notices the header hands to its collaborators. */
  datatype Effect =
    | FetchProfileSettings(userId: Option<string>)
    | PostActivity(active: bool, id: string, status: Status)
    | ExtendSession
    | SetJwtCookie(token: string)
    | InvalidateActivityQuery
    | ErrorNotice(message: string)
    | PostLogout
    | RedirectToLogin

  /** Length of the away countdown, in one-second ticks. */
  const COUNTDOWN_SECONDS: nat := 300

  datatype HeaderState = HeaderState(
    activity: Option<ActivityData>,
    csaStatus: Status,
    csaActive: bool,
    showStatusConfirmationModal: bool,
    statusPopupTimerHasStarted: bool,
    secondsUntilStatusPopup: nat,
    /** Countdown intervals created and not yet cleared. */
    liveCountdowns: nat)

  const Initial: HeaderState := HeaderState(None, Online, false, false, false, COUNTDOWN_SECONDS, 0)

  datatype Transition = Transition(next: HeaderState, effects: seq<Effect>)

  /** The started flag is raised exactly while one countdown interval runs. */
  predicate Inv(s: HeaderState)
  {
    s.liveCountdowns == (if s.statusPopupTimerHasStarted then 1 else 0)
  }

  /** The activity query succeeded: status and active flag are taken from its first row. */
  function ActivityLoaded(s: HeaderState, data: ActivityData, row: ActivityRow): (t: Transition)
    ensures t.next.csaStatus == row.status
    ensures t.next.csaActive <==> row.active == "true"
    ensures t.next == s.(activity := Some(data), csaStatus := row.status, csaActive := t.next.csaActive)
    ensures t.effects == [] && (Inv(s) ==> Inv(t.next))
  {
    Transition(s.(activity := Some(data), csaStatus := row.status, csaActive := row.active == "true"), [])
  }

  /** `onIdle`: away from the keyboard long enough. */
  function OnIdle(s: HeaderState): (t: Transition)
    ensures s.activity.None? || s.csaStatus == Offline ==> t == Transition(s, [])
    ensures s.activity.Some? && s.csaStatus != Offline ==>
      t.next == s.(csaStatus := Idle) && t.effects == [PostActivity(s.csaActive, s.activity.value.idCode, Idle)]
    ensures t.next.csaStatus == Offline <==> s.csaStatus == Offline
    ensures Inv(s) ==> Inv(t.next)
  {
    if s.activity.None? then Transition(s, [])
    else if s.csaStatus == Offline then Transition(s, [])
    else Transition(s.(csaStatus := Idle), [PostActivity(s.csaActive, s.activity.value.idCode, Idle)])
  }

  /** `onActive`: back at the keyboard; an offline agent is asked instead of being put online. */
  function OnActive(s: HeaderState): (t: Transition)
    ensures s.activity.None? ==> t == Transition(s, [])
    ensures s.activity.Some? && s.csaStatus == Offline ==>
      t.next == s.(showStatusConfirmationModal := !s.showStatusConfirmationModal) && t.effects == []
    ensures s.activity.Some? && s.csaStatus != Offline ==>
      t.next == s.(csaStatus := Online) && t.effects == [PostActivity(s.csaActive, s.activity.value.idCode, Online)]
    ensures t.next.csaStatus == Online ==> s.csaStatus != Offline
    ensures Inv(s) ==> Inv(t.next)
  {
    if s.activity.None? then Transition(s, [])
    else if s.csaStatus == Offline then
      Transition(s.(showStatusConfirmationModal := !s.showStatusConfirmationModal), [])
    else Transition(s.(csaStatus := Online), [PostActivity(s.csaActive, s.activity.value.idCode, Online)])
  }

  /** `showStatusChangePopup`: start the away countdown unless one is already running. */
  function ShowStatusChangePopup(s: HeaderState): (t: Transition)
    ensures s.statusPopupTimerHasStarted ==> t == Transition(s, [])
    ensures !s.statusPopupTimerHasStarted ==>
      t.next == s.(statusPopupTimerHasStarted := true, liveCountdowns := s.liveCountdowns + 1)
    ensures t.effects == [] && (Inv(s) ==> Inv(t.next))
  {
    if s.statusPopupTimerHasStarted then Transition(s, [])
    else Transition(s.(statusPopupTimerHasStarted := !s.statusPopupTimerHasStarted,
                       liveCountdowns := s.liveCountdowns + 1), [])
  }

  /**
   * `handleCsaStatusChange(checked)`: the present/away switch. It records the
   * switch and reports it, but the status itself is left to the activity query.
   */
  function HandleCsaStatusChange(s: HeaderState, checked: bool): (t: Transition)
    ensures t.next.csaActive == checked
    ensures t.next.csaStatus == s.csaStatus && t.next.activity == s.activity
    ensures t.next.showStatusConfirmationModal == s.showStatusConfirmationModal
    ensures t.next.secondsUntilStatusPopup == s.secondsUntilStatusPopup
    ensures t.effects == [PostActivity(checked, "", if checked then Online else Offline)]
    ensures checked ==> t.next == s.(csaActive := true)
    ensures !checked ==> t.next == ShowStatusChangePopup(s.(csaActive := false)).next
    ensures !checked ==> t.next.statusPopupTimerHasStarted
    ensures Inv(s) ==> Inv(t.next)
  {
    var s1 := s.(csaActive := checked);
    var request := [PostActivity(checked, "", if checked == true then Online else Offline)];
    if !checked then Transition(ShowStatusChangePopup(s1).next, request)
    else Transition(s1, request)
  }

  /**
   * One second of a running countdown: count down, and at 0 clear the interval,
   * toggle the modal and lower the started flag; the seconds stay at 0.
   */
  function CountdownTick(s: HeaderState): (t: Transition)
    ensures s.liveCountdowns == 0 ==> t == Transition(s, [])
    ensures s.liveCountdowns > 0 && s.secondsUntilStatusPopup > 0 ==>
      t.next == s.(secondsUntilStatusPopup := s.secondsUntilStatusPopup - 1)
    ensures s.liveCountdowns > 0 && s.secondsUntilStatusPopup == 0 ==>
      t.next == s.(liveCountdowns := s.liveCountdowns - 1,
                   showStatusConfirmationModal := !s.showStatusConfirmationModal,
                   statusPopupTimerHasStarted := !s.statusPopupTimerHasStarted)
    ensures t.effects == [] && (Inv(s) ==> Inv(t.next))
  {
    if s.liveCountdowns == 0 then Transition(s, [])
    else if s.secondsUntilStatusPopup > 0 then
      Transition(s.(secondsUntilStatusPopup := s.secondsUntilStatusPopup - 1), [])
    else
      Transition(s.(liveCountdowns := s.liveCountdowns - 1,
                    showStatusConfirmationModal := !s.showStatusConfirmationModal,
                    statusPopupTimerHasStarted := !s.statusPopupTimerHasStarted,
                    secondsUntilStatusPopup := 0), [])
  }

  /** The dialog's cancel button, and its close: toggle the modal. */
  function CancelModal(s: HeaderState): (t: Transition)
    ensures t.next.showStatusConfirmationModal != s.showStatusConfirmationModal
    ensures t.next.(showStatusConfirmationModal := s.showStatusConfirmationModal) == s
    ensures t.effects == [] && (Inv(s) ==> Inv(t.next))
  {
    Transition(s.(showStatusConfirmationModal := !s.showStatusConfirmationModal), [])
  }

  /** The dialog's confirm button: switch to present, then toggle the modal; the status is not touched. */
  function ConfirmModal(s: HeaderState): (t: Transition)
    ensures t.next == s.(csaActive := true, showStatusConfirmationModal := !s.showStatusConfirmationModal)
    ensures t.effects == [PostActivity(true, "", Online)]
    ensures Inv(s) ==> Inv(t.next)
  {
    var t1 := HandleCsaStatusChange(s, true);
    Transition(t1.next.(showStatusConfirmationModal := !t1.next.showStatusConfirmationModal), t1.effects)
  }

  /** The activity post succeeded: an online agent's session is extended. */
  function ActivityPostSucceeded(s: HeaderState): (t: Transition)
    ensures t.next == s && |t.effects| <= 1
    ensures ExtendSession in t.effects <==> s.csaStatus == Online
  {
    Transition(s, if s.csaStatus == Online then [ExtendSession] else [])
  }

  /** The activity post failed: no rollback; the activity query is invalidated and the error shown. */
  function ActivityPostFailed(s: HeaderState, message: string): (t: Transition)
    ensures t.next == s
    ensures t.effects == [InvalidateActivityQuery, ErrorNotice(message)]
  {
    Transition(s, [InvalidateActivityQuery, ErrorNotice(message)])
  }

  /** The session extension answered; a non-null token is stored in the JWT cookie. */
  function SessionExtended(s: HeaderState, token: Option<string>): (t: Transition)
    ensures t.next == s && |t.effects| <= 1
    ensures t.effects != [] <==> token.Some?
    ensures forall e :: e in t.effects ==> e.SetJwtCookie? && token == Some(e.token)
  {
    Transition(s, if token.None? then [] else [SetJwtCookie(token.value)])
  }

  function LogoutClicked(s: HeaderState): (t: Transition)
    ensures t.next == s && |t.effects| == 1 && t.effects[0].PostLogout?
  {
    Transition(s, [PostLogout])
  }

  function LogoutSucceeded(s: HeaderState): (t: Transition)
    ensures t.next == s && |t.effects| == 1 && t.effects[0].RedirectToLogin?
  {
    Transition(s, [RedirectToLogin])
  }

  function LogoutFailed(s: HeaderState, message: string): (t: Transition)
    ensures t.next == s && |t.effects| == 1 && t.effects[0] == ErrorNotice(message)
  {
    Transition(s, [ErrorNotice(message)])
  }

  datatype Event =
    | Loaded(data: ActivityData, row: ActivityRow)
    | UserIdle
    | UserActive
    | CsaStatusChange(checked: bool)
    | Tick
    | Cancel
    | Confirm
    | PostOk
    | PostError(message: string)
    | Extended(token: Option<string>)
    | Logout
    | LogoutOk
    | LogoutError(message: string)

  function Step(s: HeaderState, e: Event): Transition
  {
    match e
    case Loaded(data, row) => ActivityLoaded(s, data, row)
    case UserIdle => OnIdle(s)
    case UserActive => OnActive(s)
    case CsaStatusChange(checked) => HandleCsaStatusChange(s, checked)
    case Tick => CountdownTick(s)
    case Cancel => CancelModal(s)
    case Confirm => ConfirmModal(s)
    case PostOk => ActivityPostSucceeded(s)
    case PostError(message) => ActivityPostFailed(s, message)
    case Extended(token) => SessionExtended(s, token)
    case Logout => LogoutClicked(s)
    case LogoutOk => LogoutSucceeded(s)
    case LogoutError(message) => LogoutFailed(s, message)
  }

  /** The state after applying `step` to each event in turn, with every request made on the way. */
  function RunWith(step: (HeaderState, Event) -> Transition, s: HeaderState, events: seq<Event>): Transition
    decreases events
  {
    if events == [] then Transition(s, [])
    else
      var t := step(s, events[0]);
      var r := RunWith(step, t.next, events[1..]);
      Transition(r.next, t.effects + r.effects)
  }

  function Run(s: HeaderState, events: seq<Event>): Transition
  {
    RunWith(Step, s, events)
  }

  /** Running two event sequences one after the other is running their concatenation. */
  lemma {:induction false} RunAppend(step: (HeaderState, Event) -> Transition, s: HeaderState, a: seq<Event>, b: seq<Event>)
    ensures RunWith(step, s, a + b).next == RunWith(step, RunWith(step, s, a).next, b).next
    ensures RunWith(step, s, a + b).effects == RunWith(step, s, a).effects + RunWith(step, RunWith(step, s, a).next, b).effects
    decreases a
  {
    if a == [] {
      assert a + b == b;
    } else {
      assert (a + b)[0] == a[0] && (a + b)[1..] == a[1..] + b;
      RunAppend(step, step(s, a[0]).next, a[1..], b);
    }
  }

  /** No event sequence breaks the single-countdown invariant. */
  lemma {:induction false} RunKeepsInv(s: HeaderState, events: seq<Event>)
    requires Inv(s)
    ensures Inv(Run(s, events).next)
    decreases events
  {
    if events != [] {
      RunKeepsInv(Step(s, events[0]).next, events[1..]);
    }
  }

  /** The state with the confirmation modal flipped. */
  function FlipModal(s: HeaderState): HeaderState
  {
    s.(showStatusConfirmationModal := !s.showStatusConfirmationModal)
  }

  /** No single event sets the modal flag: each one commutes with flipping it. */
  lemma StepOnlyTogglesModal(s: HeaderState, e: Event)
    ensures Step(FlipModal(s), e) == Transition(FlipModal(Step(s, e).next), Step(s, e).effects)
  {
  }

  /**
   * No event sets the modal flag to a fixed value: flipping the modal before
   * any sequence of events is the same as flipping it afterwards.
   */
  lemma {:induction false} RunOnlyTogglesModal(s: HeaderState, events: seq<Event>)
    ensures Run(FlipModal(s), events) == Transition(FlipModal(Run(s, events).next), Run(s, events).effects)
    decreases events
  {
    if events != [] {
      StepOnlyTogglesModal(s, events[0]);
      RunOnlyTogglesModal(Step(s, events[0]).next, events[1..]);
    }
  }

  /** Events coming from the idle timer. */
  predicate ActivityOnly(events: seq<Event>)
  {
    forall i :: 0 <= i < |events| ==> events[i] == UserIdle || events[i] == UserActive
  }

  function ActiveCount(events: seq<Event>): nat
  {
    if events == [] then 0 else (if events[0] == UserActive then 1 else 0) + ActiveCount(events[1..])
  }

  /**
   * Idle-timer events never bring an offline agent online: status, switch and
   * countdown stay as they are, no request is sent, and each activity signal
   * only toggles the confirmation modal.
   */
  lemma {:induction false} OfflineStaysOffline(s: HeaderState, events: seq<Event>)
    requires ActivityOnly(events) && s.csaStatus == Offline && s.activity.Some?
    ensures Run(s, events).effects == []
    ensures Run(s, events).next ==
      s.(showStatusConfirmationModal := s.showStatusConfirmationModal != (ActiveCount(events) % 2 == 1))
    decreases events
  {
    if events != [] {
      var s1 := Step(s, events[0]).next;
      OfflineStaysOffline(s1, events[1..]);
    }
  }

  /** Idle-timer events move between online and idle only; they never reach or leave offline. */
  lemma {:induction false} ActivityKeepsOfflineness(s: HeaderState, events: seq<Event>)
    requires ActivityOnly(events)
    ensures Run(s, events).next.csaStatus == Offline <==> s.csaStatus == Offline
    ensures Run(s, events).next.csaActive == s.csaActive
    ensures Run(s, events).next.liveCountdowns == s.liveCountdowns
    decreases events
  {
    if events != [] {
      ActivityKeepsOfflineness(Step(s, events[0]).next, events[1..]);
    }
  }

  /** Before the activity query has answered, idle-timer events do nothing at all. */
  lemma {:induction false} NoActivityDataNoChange(s: HeaderState, events: seq<Event>)
    requires ActivityOnly(events) && s.activity.None?
    ensures Run(s, events) == Transition(s, [])
    decreases events
  {
    if events != [] {
      NoActivityDataNoChange(s, events[1..]);
    }
  }

  function Ticks(n: nat): (r: seq<Event>)
    ensures |r| == n && forall i :: 0 <= i < n ==> r[i] == Tick
  {
    if n == 0 then [] else [Tick] + Ticks(n - 1)
  }

  /** While seconds remain, each tick only counts down. */
  lemma {:induction false} TicksCountDown(s: HeaderState, n: nat)
    requires s.liveCountdowns > 0 && n <= s.secondsUntilStatusPopup
    ensures Run(s, Ticks(n)) == Transition(s.(secondsUntilStatusPopup := s.secondsUntilStatusPopup - n), [])
    decreases n
  {
    if n > 0 {
      TicksCountDown(s.(secondsUntilStatusPopup := s.secondsUntilStatusPopup - 1), n - 1);
    }
  }

  /**
   * A countdown started with `k` seconds left opens the modal after exactly
   * k + 1 ticks, toggling it once, and ends stopped with the seconds at 0.
   */
  lemma CountdownTogglesModalOnce(s: HeaderState)
    requires Inv(s) && !s.statusPopupTimerHasStarted
    ensures var started := ShowStatusChangePopup(s).next;
      var k := s.secondsUntilStatusPopup;
      Run(started, Ticks(k)).next.showStatusConfirmationModal == s.showStatusConfirmationModal
      && Run(started, Ticks(k + 1))
         == Transition(s.(showStatusConfirmationModal := !s.showStatusConfirmationModal, secondsUntilStatusPopup := 0), [])
  {
    var started := ShowStatusChangePopup(s).next;
    var k := s.secondsUntilStatusPopup;
    TicksCountDown(started, k);
    assert Ticks(k + 1) == Ticks(k) + [Tick] by {
      TicksSnoc(k);
    }
    RunAppend(Step, started, Ticks(k), [Tick]);
  }

  lemma TicksSnoc(n: nat)
    ensures Ticks(n + 1) == Ticks(n) + [Tick]
  {
  }

  /**
   * From the initial state, switching to away and letting 301 seconds pass
   * sends one offline report and opens the modal, with the countdown stopped.
   */
  lemma AwayCountdownFromStart()
    ensures var r := Run(Initial, [CsaStatusChange(false)] + Ticks(COUNTDOWN_SECONDS + 1));
      r.effects == [PostActivity(false, "", Offline)]
      && r.next.showStatusConfirmationModal && !r.next.statusPopupTimerHasStarted
      && r.next.liveCountdowns == 0 && r.next.secondsUntilStatusPopup == 0
  {
    RunAppend(Step, Initial, [CsaStatusChange(false)], Ticks(COUNTDOWN_SECONDS + 1));
    CountdownTogglesModalOnce(Initial.(csaActive := false));
  }

  /**
   * The seconds are not reset: once a countdown has run out, the next one
   * toggles the modal on its first tick.
   */
  lemma RestartedCountdownFiresAtOnce(s: HeaderState)
    requires Inv(s) && !s.statusPopupTimerHasStarted && s.secondsUntilStatusPopup == 0
    ensures Run(s, [CsaStatusChange(false), Tick]).next.showStatusConfirmationModal != s.showStatusConfirmationModal
  {
  }
}
