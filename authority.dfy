/**
 * The role names a viewer's `authorities` list holds. The menu compares
 * against these literals; the settings drawer uses the AUTHORITY enum,
 * taken here to carry the same strings.
 */
module Authority {
  import opened Wrappers

  const ADMINISTRATOR: string := "ROLE_ADMINISTRATOR"
  const SERVICE_MANAGER: string := "ROLE_SERVICE_MANAGER"
  const CUSTOMER_SUPPORT_AGENT: string := "ROLE_CUSTOMER_SUPPORT_AGENT"
  const CHATBOT_TRAINER: string := "ROLE_CHATBOT_TRAINER"
  const ANALYST: string := "ROLE_ANALYST"
  const UNAUTHENTICATED: string := "ROLE_UNAUTHENTICATED"

  /** `authorities[0]`, which is `undefined` for an empty list. */
  function FirstAuthority(authorities: seq<string>): (role: Option<string>)
    ensures role.Some? <==> |authorities| > 0
    ensures role.Some? ==> role.value == authorities[0]
  {
    if |authorities| == 0 then None else Some(authorities[0])
  }
}
