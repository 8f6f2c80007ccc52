/** The header's constants (header/consts/consts.ts). */
module Consts {
  /** Inactivity, in milliseconds, after which the idle timer reports the user idle. */
  const USER_IDLE_STATUS_TIMEOUT: nat := 300000

  /** Colour of the status dot, keyed by the status keyword. */
  const STATUS_COLORS: map<string, string> :=
    map["idle" := "#FFB511", "online" := "#308653", "offline" := "#D73E3E"]

  /** Period, in milliseconds, of the repeated chat notifications. */
  const SUBSCRIPTION_INTERVAL: nat := 2 * 60 * 1000

  lemma IdleTimeoutIsFiveMinutes()
    ensures USER_IDLE_STATUS_TIMEOUT == 5 * 60 * 1000
  {
  }

  lemma SubscriptionIntervalIsTwoMinutes()
    ensures SUBSCRIPTION_INTERVAL == 120000
  {
  }

  /** Exactly the three status keywords have a colour, and no two share one. */
  lemma StatusColorsCoverStatuses()
    ensures STATUS_COLORS.Keys == {"idle", "online", "offline"}
    ensures STATUS_COLORS["idle"] != STATUS_COLORS["online"]
    ensures STATUS_COLORS["idle"] != STATUS_COLORS["offline"]
    ensures STATUS_COLORS["online"] != STATUS_COLORS["offline"]
  {
  }
}
