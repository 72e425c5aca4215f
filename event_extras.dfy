/**
 * The `get_state_badge_class` template filter: the Bootstrap class of the
 * badge that shows an event's state, with a default for any other state.
 */
module EventExtras {

  /** The filter's table, state to CSS class. */
  const BadgeClasses: map<string, string> := map[
    "AVAILABLE" := "bg-success",
    "CANCELLED" := "bg-danger",
    "REPROGRAM" := "bg-warning",
    "SOLD_OUT" := "bg-secondary",
    "FINISHED" := "bg-dark"
  ]

  /** The fallback class, spelled as the filter spells it. */
  const DefaultBadge := "bg-ligth text-dark"

  /** `badge_classes.get(event.state, "bg-ligth text-dark")`, given `event.state`. */
  function GetStateBadgeClass(state: string): (r: string)
    ensures r != ""
    ensures state in BadgeClasses <==> r != DefaultBadge
  {
    if state in BadgeClasses then BadgeClasses[state] else DefaultBadge
  }

  /** The class of each of the five known states. */
  lemma KnownStateBadges()
    ensures GetStateBadgeClass("AVAILABLE") == "bg-success"
    ensures GetStateBadgeClass("CANCELLED") == "bg-danger"
    ensures GetStateBadgeClass("REPROGRAM") == "bg-warning"
    ensures GetStateBadgeClass("SOLD_OUT") == "bg-secondary"
    ensures GetStateBadgeClass("FINISHED") == "bg-dark"
  {
  }

  /** Any other state, lower-case spellings included, gets the default. */
  lemma UnknownStateGetsDefault(state: string)
    requires state !in {"AVAILABLE", "CANCELLED", "REPROGRAM", "SOLD_OUT", "FINISHED"}
    ensures GetStateBadgeClass(state) == DefaultBadge
  {
  }

  /** Distinct known states get distinct classes. */
  lemma KnownStatesDistinguishable(s1: string, s2: string)
    requires s1 in BadgeClasses && s2 in BadgeClasses && s1 != s2
    ensures GetStateBadgeClass(s1) != GetStateBadgeClass(s2)
  {
  }
}
