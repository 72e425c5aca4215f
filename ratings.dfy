/** `Rating.can_user_delete_or_edit`: the author or the event's organizer may change a rating. */
module Ratings {
  import opened Common
  import opened Events
  import Comments

  /** A rating with its event loaded; `score` is the 1..5 `rating` column. */
  datatype Rating = Rating(event: EventRow, user: UserId, title: string, text: string, score: int)

  predicate CanUserDeleteOrEdit(r: Rating, u: UserId)
  {
    r.user == u || r.event.organizer == u
  }

  /** Ratings follow the same rule as comments: for the same author and event, the same users are allowed. */
  lemma SameRuleAsComments(r: Rating, c: Comments.Comment, u: UserId)
    requires c.user == r.user && c.event == r.event
    ensures CanUserDeleteOrEdit(r, u) <==> Comments.CanUserDelete(c, u)
  {
  }
}
