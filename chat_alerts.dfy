/**
 * The notification effect that both the header (forwarded chats) and the
 * settings drawer (unanswered chats) run whenever their counter changes:
 * an immediate sound and popup decision, then one repeating subscription
 * every SUBSCRIPTION_INTERVAL that the effect's cleanup cancels.
 */
module ChatAlerts {
  import opened Wrappers
  import opened ProfileSettings

  /** Which counter drives the effect, and so which three preference flags it reads. */
  datatype Kind = NewChat | ForwardedChat

  datatype Alert = PlaySound | ShowPopup(kind: Kind)

  function SoundFlag(kind: Kind, p: UserProfileSettings): bool
  {
    if kind == NewChat then p.newChatSoundNotifications else p.forwardedChatSoundNotifications
  }

  function EmailFlag(kind: Kind, p: UserProfileSettings): bool
  {
    if kind == NewChat then p.newChatEmailNotifications else p.forwardedChatEmailNotifications
  }

  function PopupFlag(kind: Kind, p: UserProfileSettings): bool
  {
    if kind == NewChat then p.newChatPopupNotifications else p.forwardedChatPopupNotifications
  }

  /** What an effect run does at once for a counter value. */
  function ImmediateAlerts(kind: Kind, count: nat, p: UserProfileSettings): (r: seq<Alert>)
    ensures PlaySound in r <==> count > 0 && SoundFlag(kind, p)
    ensures ShowPopup(kind) in r <==> count > 0 && EmailFlag(kind, p) && PopupFlag(kind, p)
    ensures forall a :: a in r ==> a == PlaySound || a == ShowPopup(kind)
    ensures multiset(r)[PlaySound] <= 1 && multiset(r)[ShowPopup(kind)] <= 1
    ensures |r| <= 2 && (|r| == 2 ==> r[0] == PlaySound)
  {
    (if count > 0 && SoundFlag(kind, p) then [PlaySound] else [])
    + (if count > 0 && EmailFlag(kind, p) && PopupFlag(kind, p) then [ShowPopup(kind)] else [])
  }

  /** What one firing of the repeating subscription does; the popup no longer asks for the e-mail flag. */
  function RepeatAlerts(kind: Kind, p: UserProfileSettings): (r: seq<Alert>)
    ensures PlaySound in r <==> SoundFlag(kind, p)
    ensures ShowPopup(kind) in r <==> PopupFlag(kind, p)
    ensures forall a :: a in r ==> a == PlaySound || a == ShowPopup(kind)
    ensures multiset(r)[PlaySound] <= 1 && multiset(r)[ShowPopup(kind)] <= 1
    ensures |r| <= 2 && (|r| == 2 ==> r[0] == PlaySound)
  {
    (if SoundFlag(kind, p) then [PlaySound] else []) + (if PopupFlag(kind, p) then [ShowPopup(kind)] else [])
  }

  /** A repeating subscription: the preferences its callback captured, and whether it is still live. */
  datatype Subscription = Subscription(prefs: UserProfileSettings, live: bool)

  function LiveCount(subs: seq<Subscription>): (n: nat)
    ensures n <= |subs|
  {
    if subs == [] then 0 else LiveCount(subs[..|subs| - 1]) + (if subs[|subs| - 1].live then 1 else 0)
  }

  /** Only the subscription made by the current effect run, if any, is live. */
  predicate OnlyCurrentLive(subs: seq<Subscription>, current: Option<nat>)
  {
    (current.Some? ==> current.value < |subs| && subs[current.value].live)
    && (forall i :: 0 <= i < |subs| && subs[i].live ==> current == Some(i))
  }

  /** Under that discipline at most one subscription is live, and one exactly when a run holds it. */
  lemma {:induction false} AtMostOneLive(subs: seq<Subscription>, current: Option<nat>)
    requires OnlyCurrentLive(subs, current)
    ensures LiveCount(subs) == (if current.Some? then 1 else 0)
  {
    if subs != [] {
      var n := |subs| - 1;
      var prefix := subs[..n];
      if current == Some(n) {
        AtMostOneLive(prefix, None);
      } else {
        AtMostOneLive(prefix, current);
      }
    }
  }

  /** Cancelling one subscription. */
  function Unsubscribe(subs: seq<Subscription>, i: nat): (r: seq<Subscription>)
    requires i < |subs|
    ensures |r| == |subs| && !r[i].live
    ensures forall j :: 0 <= j < |subs| && j != i ==> r[j] == subs[j]
  {
    subs[i := subs[i].(live := false)]
  }

  /**
   * The `useEffect(..., [count])` of one component: re-run when the counter
   * changes, cleaned up before each re-run and on unmount.
   */
  class RepeatEffect {
    const kind: Kind
    /** The counter value the effect last ran for; None before the first run. */
    var lastCount: Option<nat>
    /** Every subscription ever made, in order. */
    var subs: seq<Subscription>
    /** The subscription the latest run made, which its cleanup cancels. */
    var current: Option<nat>
    /** Sounds and popups emitted so far. */
    var alerts: seq<Alert>

    predicate Valid()
      reads this
    {
      OnlyCurrentLive(subs, current)
      && (current.Some? ==> lastCount.Some? && lastCount.value > 0)
    }

    constructor (kind: Kind)
      ensures this.kind == kind && Valid()
      ensures lastCount == None && subs == [] && current == None && alerts == []
    {
      this.kind := kind;
      lastCount := None;
      subs := [];
      current := None;
      alerts := [];
    }

    /** The cleanup function returned by the last run. */
    method Cleanup()
      requires Valid()
      modifies this
      ensures Valid() && current == None && LiveCount(subs) == 0
      ensures subs == (if old(current).Some? then Unsubscribe(old(subs), old(current).value) else old(subs))
      ensures lastCount == old(lastCount) && alerts == old(alerts)
    {
      if current.Some? {
        subs := Unsubscribe(subs, current.value);
        current := None;
      }
      AtMostOneLive(subs, current);
    }

    /** The effect body for counter `count`, after the previous run was cleaned up. */
    method Run(count: nat, prefs: UserProfileSettings)
      requires Valid() && current == None
      modifies this
      ensures Valid() && lastCount == Some(count)
      ensures alerts == old(alerts) + ImmediateAlerts(kind, count, prefs)
      ensures |subs| == |old(subs)| + (if count > 0 then 1 else 0) && subs[..|old(subs)|] == old(subs)
      ensures count > 0 ==> current == Some(|subs| - 1) && subs[|subs| - 1] == Subscription(prefs, true)
      ensures count == 0 ==> current == None
    {
      alerts := alerts + ImmediateAlerts(kind, count, prefs);
      if count > 0 {
        subs := subs + [Subscription(prefs, true)];
        current := Some(|subs| - 1);
      }
      lastCount := Some(count);
    }

    /** A render with counter `count` and the component's current preferences. */
    method Render(count: nat, prefs: UserProfileSettings)
      requires Valid()
      modifies this
      ensures Valid() && lastCount == Some(count)
      ensures count == 0 ==> current == None && LiveCount(subs) == 0
      ensures old(lastCount) == Some(count) ==>
        subs == old(subs) && current == old(current) && alerts == old(alerts)
      ensures old(lastCount) != Some(count) ==>
        alerts == old(alerts) + ImmediateAlerts(kind, count, prefs)
        && LiveCount(subs) == (if count > 0 then 1 else 0)
        && (count > 0 ==> current == Some(|subs| - 1) && subs[|subs| - 1] == Subscription(prefs, true))
      ensures old(lastCount) != Some(count) ==>
        |subs| == |old(subs)| + (if count > 0 then 1 else 0)
        && subs[..|old(subs)|] == (if old(current).Some? then Unsubscribe(old(subs), old(current).value) else old(subs))
    {
      if lastCount != Some(count) {
        Cleanup();
        Run(count, prefs);
      }
      AtMostOneLive(subs, current);
    }

    /** The component goes away: its last run is cleaned up. */
    method Unmount()
      requires Valid()
      modifies this
      ensures Valid() && current == None && LiveCount(subs) == 0
      ensures lastCount == old(lastCount) && alerts == old(alerts)
    {
      Cleanup();
    }

    /** Subscription `i` reaches its interval; a cancelled one does nothing. */
    method Fire(i: nat)
      requires Valid() && i < |subs|
      modifies this`alerts
      ensures subs[i].live ==> current == Some(i) && alerts == old(alerts) + RepeatAlerts(kind, subs[i].prefs)
      ensures !subs[i].live ==> alerts == old(alerts)
    {
      if subs[i].live {
        alerts := alerts + RepeatAlerts(kind, subs[i].prefs);
      }
    }
  }
}
