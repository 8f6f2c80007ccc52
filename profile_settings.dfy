/**
 * The per-user preference record and the single-field update that every
 * switch of the settings drawer performs (`{...userProfileSettings, [key]: checked}`).
 */
module ProfileSettings {
  import opened Authority

  datatype UserProfileSettings = UserProfileSettings(
    userId: int,
    forwardedChatPopupNotifications: bool,
    forwardedChatSoundNotifications: bool,
    forwardedChatEmailNotifications: bool,
    newChatPopupNotifications: bool,
    newChatSoundNotifications: bool,
    newChatEmailNotifications: bool,
    useAutocorrect: bool)

  /** The record both components start from before the backend answers. */
  const Defaults: UserProfileSettings := UserProfileSettings(1, false, true, false, false, true, false, true)

  /** The names the drawer's switches pass as `key`. */
  datatype Key =
    | ForwardedChatPopupNotifications
    | ForwardedChatSoundNotifications
    | ForwardedChatEmailNotifications
    | NewChatPopupNotifications
    | NewChatSoundNotifications
    | NewChatEmailNotifications
    | UseAutocorrect

  function Get(s: UserProfileSettings, k: Key): bool
  {
    match k
    case ForwardedChatPopupNotifications => s.forwardedChatPopupNotifications
    case ForwardedChatSoundNotifications => s.forwardedChatSoundNotifications
    case ForwardedChatEmailNotifications => s.forwardedChatEmailNotifications
    case NewChatPopupNotifications => s.newChatPopupNotifications
    case NewChatSoundNotifications => s.newChatSoundNotifications
    case NewChatEmailNotifications => s.newChatEmailNotifications
    case UseAutocorrect => s.useAutocorrect
  }

  /** The spread update: the record with field `k` holding `checked` and nothing else changed. */
  function With(s: UserProfileSettings, k: Key, checked: bool): (r: UserProfileSettings)
    ensures Get(r, k) == checked
    ensures forall k' :: k' != k ==> Get(r, k') == Get(s, k')
    ensures r.userId == s.userId
  {
    match k
    case ForwardedChatPopupNotifications => s.(forwardedChatPopupNotifications := checked)
    case ForwardedChatSoundNotifications => s.(forwardedChatSoundNotifications := checked)
    case ForwardedChatEmailNotifications => s.(forwardedChatEmailNotifications := checked)
    case NewChatPopupNotifications => s.(newChatPopupNotifications := checked)
    case NewChatSoundNotifications => s.(newChatSoundNotifications := checked)
    case NewChatEmailNotifications => s.(newChatEmailNotifications := checked)
    case UseAutocorrect => s.(useAutocorrect := checked)
  }

  /** A record is determined by its user id and its seven switches. */
  lemma SameFieldsSameRecord(a: UserProfileSettings, b: UserProfileSettings)
    requires a.userId == b.userId
    requires forall k :: Get(a, k) == Get(b, k)
    ensures a == b
  {
    assert Get(a, ForwardedChatPopupNotifications) == Get(b, ForwardedChatPopupNotifications);
    assert Get(a, ForwardedChatSoundNotifications) == Get(b, ForwardedChatSoundNotifications);
    assert Get(a, ForwardedChatEmailNotifications) == Get(b, ForwardedChatEmailNotifications);
    assert Get(a, NewChatPopupNotifications) == Get(b, NewChatPopupNotifications);
    assert Get(a, NewChatSoundNotifications) == Get(b, NewChatSoundNotifications);
    assert Get(a, NewChatEmailNotifications) == Get(b, NewChatEmailNotifications);
    assert Get(a, UseAutocorrect) == Get(b, UseAutocorrect);
  }

  /** The update is the only record that differs from `s` in at most field `k` and holds `checked` there. */
  lemma WithIsUnique(s: UserProfileSettings, k: Key, checked: bool, r: UserProfileSettings)
    requires r.userId == s.userId && Get(r, k) == checked
    requires forall k' :: k' != k ==> Get(r, k') == Get(s, k')
    ensures r == With(s, k, checked)
  {
    SameFieldsSameRecord(r, With(s, k, checked));
  }

  /** Writing back the value a field already holds leaves the record unchanged. */
  lemma WithCurrentValue(s: UserProfileSettings, k: Key)
    ensures With(s, k, Get(s, k)) == s
  {
  }

  /** A second write to the same field overrides the first. */
  lemma WithTwice(s: UserProfileSettings, k: Key, a: bool, b: bool)
    ensures With(With(s, k, a), k, b) == With(s, k, b)
  {
  }

  /** `list.includes(x)`. */
  function Includes(list: seq<string>, x: string): (b: bool)
    ensures b <==> x in list
  {
    if list == [] then false else list[0] == x || Includes(list[1..], x)
  }

  /** `gates.some((auth) => list.includes(auth))`. */
  function SomeIncluded(gates: seq<string>, list: seq<string>): (b: bool)
    ensures b <==> exists g :: g in gates && g in list
  {
    if gates == [] then false else Includes(list, gates[0]) || SomeIncluded(gates[1..], list)
  }

  /** The drawer shows its settings sections only to administrators, support agents and service managers. */
  function ShowsSettingsSections(authorities: seq<string>): (b: bool)
    ensures b <==> ADMINISTRATOR in authorities || CUSTOMER_SUPPORT_AGENT in authorities || SERVICE_MANAGER in authorities
  {
    SomeIncluded([ADMINISTRATOR, CUSTOMER_SUPPORT_AGENT, SERVICE_MANAGER], authorities)
  }
}
