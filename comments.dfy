/** `Comment.can_user_delete`: the author or the event's organizer may delete a comment. */
module Comments {
  import opened Common
  import opened Events

  /** A comment with its event loaded (`self.event`). */
  datatype Comment = Comment(title: string, event: EventRow, user: UserId, text: string)

  predicate CanUserDelete(c: Comment, u: UserId)
  {
    c.user == u || c.event.organizer == u
  }

  /** Exactly two users may delete a comment: its author and the organizer of its event. */
  lemma DeletersAreAuthorAndOrganizer(c: Comment, u: UserId)
    ensures CanUserDelete(c, c.user) && CanUserDelete(c, c.event.organizer)
    ensures u != c.user && u != c.event.organizer ==> !CanUserDelete(c, u)
  {
  }
}
