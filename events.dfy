/**
 * `Event`: form validation, creation that inserts only valid events, and the
 * partial update that merges each supplied value with `x or self.x`.
 */
module Events {
  import opened Common

  /** A stored event row: the six columns `new` and `update` write. */
  datatype EventRow = EventRow(title: string, description: string, scheduledAt: DateTime,
                               organizer: UserId, category: CategoryId, venue: VenueId)

  const TitleRequired := "Por favor ingrese un titulo"
  const DescriptionRequired := "Por favor ingrese una descripcion"

  /**
   * `Event.validate`: an error for a title equal to `""` and one for a
   * description equal to `""`. `None` and whitespace-only values are not
   * errors, and the schedule is not looked at.
   */
  function Validate(title: Option<string>, description: Option<string>, scheduledAt: Option<DateTime>)
    : (errors: map<string, string>)
    ensures errors.Keys <= {"title", "description"}
    ensures "title" in errors <==> title == Some("")
    ensures "title" in errors ==> errors["title"] == TitleRequired
    ensures "description" in errors <==> description == Some("")
    ensures "description" in errors ==> errors["description"] == DescriptionRequired
  {
    var e: map<string, string> := if title == Some("") then map["title" := TitleRequired] else map[];
    if description == Some("") then e["description" := DescriptionRequired] else e
  }

  /** No errors exactly when neither the title nor the description is the empty string. */
  lemma ValidIff(title: Option<string>, description: Option<string>, scheduledAt: Option<DateTime>)
    ensures Validate(title, description, scheduledAt) == map[] <==>
      title != Some("") && description != Some("")
  {
    if title == Some("") {
      assert "title" in Validate(title, description, scheduledAt);
    } else if description == Some("") {
      assert "description" in Validate(title, description, scheduledAt);
    }
  }

  /** The schedule never influences validation. */
  lemma ValidateIgnoresSchedule(title: Option<string>, description: Option<string>, s1: Option<DateTime>, s2: Option<DateTime>)
    ensures Validate(title, description, s1) == Validate(title, description, s2)
  {
  }

  /** A stored event has what validation asks for: a non-empty title and description. */
  predicate WellFormed(e: EventRow)
  {
    e.title != "" && e.description != ""
  }

  /** The arguments of `Event.update`; each one may be `None`. */
  datatype Changes = Changes(title: Option<string>, description: Option<string>, scheduledAt: Option<DateTime>,
                             organizer: Option<UserId>, category: Option<CategoryId>, venue: Option<VenueId>)

  /** The row after `Event.update`: each field is `value or self.field`. */
  function Updated(e: EventRow, c: Changes): EventRow
  {
    EventRow(StrOr(c.title, e.title), StrOr(c.description, e.description),
             ObjOr(c.scheduledAt, e.scheduledAt), ObjOr(c.organizer, e.organizer),
             ObjOr(c.category, e.category), ObjOr(c.venue, e.venue))
  }

  /** Field by field, a truthy argument replaces the value and a falsy one keeps it. */
  lemma UpdatedReplacesExactlyTruthyFields(e: EventRow, c: Changes)
    ensures Updated(e, c).title == (if StrTruthy(c.title) then c.title.value else e.title)
    ensures Updated(e, c).description == (if StrTruthy(c.description) then c.description.value else e.description)
    ensures Updated(e, c).scheduledAt == (if ObjTruthy(c.scheduledAt) then c.scheduledAt.value else e.scheduledAt)
    ensures Updated(e, c).organizer == (if ObjTruthy(c.organizer) then c.organizer.value else e.organizer)
    ensures Updated(e, c).category == (if ObjTruthy(c.category) then c.category.value else e.category)
    ensures Updated(e, c).venue == (if ObjTruthy(c.venue) then c.venue.value else e.venue)
  {
  }

  /** Applying the same update twice is the same as applying it once. */
  lemma UpdatedIdempotent(e: EventRow, c: Changes)
    ensures Updated(Updated(e, c), c) == Updated(e, c)
  {
  }

  /** An update whose arguments are all falsy (`None`, or `""` for the two strings) changes nothing. */
  lemma UpdatedAllFalsyIsIdentity(e: EventRow, c: Changes)
    requires !StrTruthy(c.title) && !StrTruthy(c.description)
    requires !ObjTruthy(c.scheduledAt) && !ObjTruthy(c.organizer) && !ObjTruthy(c.category) && !ObjTruthy(c.venue)
    ensures Updated(e, c) == e
  {
  }

  /** `""` is indistinguishable from `None`: neither can clear a field. */
  lemma EmptyStringMeansUnchanged(e: EventRow, c: Changes)
    ensures Updated(e, c.(title := Some(""))) == Updated(e, c.(title := None))
    ensures Updated(e, c.(description := Some(""))) == Updated(e, c.(description := None))
  {
  }

  /** Although `update` does not validate, it keeps a well-formed event well-formed. */
  lemma UpdatedKeepsWellFormed(e: EventRow, c: Changes)
    requires WellFormed(e)
    ensures WellFormed(Updated(e, c))
    ensures Validate(Some(Updated(e, c).title), Some(Updated(e, c).description), Some(Updated(e, c).scheduledAt)) == map[]
  {
    var r := Updated(e, c);
    ValidIff(Some(r.title), Some(r.description), Some(r.scheduledAt));
  }

  /**
   * The `Event` table: rows by primary key, and the next key the database
   * hands out (keys start at 1 and are never reused).
   */
  class EventStore {
    var events: map<EventId, EventRow>
    var nextId: EventId

    ghost predicate Valid()
      reads this
    {
      nextId >= 1 && forall id :: id in events ==> 1 <= id < nextId
    }

    constructor ()
      ensures Valid() && events == map[] && nextId == 1
    {
      events := map[];
      nextId := 1;
    }

    /** Every stored event has a non-empty title and description. */
    ghost predicate AllWellFormed()
      reads this
    {
      forall id :: id in events ==> WellFormed(events[id])
    }

    /** The number of stored events (`Event.objects.count()`). */
    function Count(): nat
      reads this
    {
      |events|
    }

    /**
     * `Event.new`: validate, and on errors return `(False, errors)` without
     * touching the table; otherwise insert exactly one row carrying the six
     * arguments and return `(True, None)`.
     */
    method New(title: string, description: string, scheduledAt: DateTime,
               organizer: UserId, category: CategoryId, venue: VenueId)
      returns (ok: bool, errors: Option<map<string, string>>)
      requires Valid()
      modifies this
      ensures Valid()
      ensures old(AllWellFormed()) ==> AllWellFormed()
      ensures ok <==> title != "" && description != ""
      ensures !ok ==> errors == Some(Validate(Some(title), Some(description), Some(scheduledAt)))
                      && errors.value != map[]
      ensures !ok ==> events == old(events) && nextId == old(nextId)
      ensures ok ==> errors.None?
      ensures ok ==> old(nextId) !in old(events)
                     && events == old(events)[old(nextId) := EventRow(title, description, scheduledAt, organizer, category, venue)]
                     && nextId == old(nextId) + 1
                     && Count() == old(Count()) + 1
    {
      var errs := Validate(Some(title), Some(description), Some(scheduledAt));
      ValidIff(Some(title), Some(description), Some(scheduledAt));
      if |errs.Keys| > 0 {
        return false, Some(errs);
      }
      events := events[nextId := EventRow(title, description, scheduledAt, organizer, category, venue)];
      nextId := nextId + 1;
      return true, None;
    }

    /**
     * `event.update(...)` followed by `save()`: the row of `id` becomes the
     * merge of its old value with the arguments; every other row is kept.
     */
    method Update(id: EventId, c: Changes)
      requires Valid() && id in events
      modifies this
      ensures Valid() && nextId == old(nextId)
      ensures old(AllWellFormed()) ==> AllWellFormed()
      ensures events == old(events)[id := Updated(old(events)[id], c)]
      ensures events.Keys == old(events).Keys
      ensures forall other :: other in old(events) && other != id ==> events[other] == old(events)[other]
    {
      if WellFormed(events[id]) { UpdatedKeepsWellFormed(events[id], c); }
      events := events[id := Updated(events[id], c)];
    }
  }
}
