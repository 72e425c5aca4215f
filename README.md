# eventhub model layer in Dafny

This project models the logic in the model layer of the eventhub ticketing app (`app/models.py`). It also models the one template filter that maps an event's state to a badge class (`app/templatetags/event_extras.py`). It covers:

- **Registration check** (`User.validate_new_user`): one error per field, for e-mail, username and password. The two database lookups become sets of the e-mail addresses and usernames already taken.
- **Venue check** (`Venue.clean`): ordered checks, where the first failure raises a `ValidationError` keyed by the field. The model keeps the source's key `'adress'`. "Blank" means empty after Python's `str.strip()`, which is modelled with the exact character set of `str.isspace()`.
- **Events** (`Event.validate`, `Event.new`, `Event.update`):
  - Validation returns an error map.
  - Creation inserts a row only when validation passes.
  - The partial update merges `value or self.value` into each of six fields and saves.
  - The event table is the class `EventStore`: a map from primary key to row, plus the next key.
- **Tickets** (`Ticket.save`, `generate_ticket_code`, the owner-only permission checks):
  - The ticket is the class `Ticket`. `Save` assigns a code only while the code is empty, then writes the row.
  - The UUID behind the code is a parameter of `Save`. The code is `uuid.hex[:12].upper()`, and the proofs show it is the top 48 bits of the UUID as 12 upper-case hex digits.
- **Comments and ratings**: the author or the event's organizer may delete or edit them.
- **The badge filter**: five known states map to Bootstrap classes. Every other state gets the default `"bg-ligth text-dark"`, spelled as in the source.

How Python values are represented:
- `None` is `Option.None`.
- A string is truthy when it is present and non-empty.
- Model instances and `datetime`s are truthy unless they are `None`.
- Model instances are compared by primary key.

The model follows what the code does:
- The repository's tests call a ticket admission engine: event-state gating, GENERAL/VIP capacity, a 4-ticket-per-user cap and `Ticket.can_purchase`. The `Event` class of `app/models.py` has no `state` or capacity fields, `Ticket` has no `can_purchase`, and the ticket view saves without any check. None of that engine is modelled.
- `Event.validate` checks only the title and the description, and only against `""`. It does not check a `state`.

## Model

| member | source | states |
|---|---|---|
| PyStrings.IsBlank | app/models.py:58 | no contract; `not s.strip()` itself, characterised by `PyStrings.BlankIffAllSpace` |
| PyStrings.TrimStart | app/models.py:58 | the leading-whitespace half of `strip`: the result is a suffix of the input, everything dropped is whitespace, and the result does not start with whitespace |
| PyStrings.TrimEnd | app/models.py:58 | the trailing-whitespace half of `strip`: the result is a prefix of the input, everything dropped is whitespace, and the result does not end with whitespace |
| PyStrings.BlankIffAllSpace | app/models.py:58-68 | `not s.strip()` holds exactly when every character of `s` is whitespace, the empty string included |
| Users.ValidateNewUser | app/models.py:12-30 | only the keys email, username and password; `email` is set iff the e-mail is `None` or taken, with the "requerido" message for `None` and the "ya existe" message otherwise; the same for `username`; `password` is set iff either password is `None` (message "requeridas") or the two differ (message "no coinciden") |
| Users.AcceptedIff | app/models.py:12-30 | the error map is empty iff the e-mail and username are present and free and the passwords are present and equal |
| Users.ErrorsAreIndependent | app/models.py:15-28 | whether the password error is set depends on neither lookup; whether the e-mail error is set does not depend on the username lookup, nor the username error on the e-mail lookup |
| Venues.CleanVenue | app/models.py:56-75 | returns normally iff name, city, address and contact are not blank and capacity is present and positive; otherwise it raises for the first failing check in source order, with key `name`, `city`, `adress`, `contact` or `capacity` and the source's message |
| Venues.CleanIffNoWhitespaceOnlyField | app/models.py:56-75 | the same acceptance condition stated without `strip`: no text field consists only of whitespace, and the capacity is positive |
| Venues.BlankNameReportedFirst | app/models.py:58-59 | a blank name decides the outcome whatever the other fields hold |
| Events.Validate | app/models.py:95-104 | the keys are among title and description; `title` is set iff the title is exactly `""`, with message "Por favor ingrese un titulo"; the same for `description` |
| Events.ValidIff | app/models.py:95-104 | no errors iff neither the title nor the description is `""`, so `None` and whitespace-only values pass |
| Events.ValidateIgnoresSchedule | app/models.py:95 | the schedule argument never changes the errors |
| Events.EventStore.New | app/models.py:106-122 | with errors: returns `(False, errors)` with non-empty errors equal to `Event.validate`'s, and leaves the table unchanged; without errors: returns `(True, None)` and inserts exactly one row, under a fresh key, with the six arguments; the count grows by one; it keeps all stored events well-formed |
| Events.EventStore.Update | app/models.py:124-131 | the row of the event becomes the merge of its old value with the arguments; every other row and every key are kept; it keeps all stored events well-formed |
| Events.Updated | app/models.py:124-130 | no contract; the `value or self.value` merge itself, characterised by `Events.UpdatedReplacesExactlyTruthyFields`, `Events.UpdatedIdempotent`, `Events.UpdatedAllFalsyIsIdentity` and `Events.UpdatedKeepsWellFormed` |
| Events.UpdatedReplacesExactlyTruthyFields | app/models.py:124-130 | each of the six fields takes the supplied value when that value is truthy and keeps the old one otherwise |
| Events.UpdatedIdempotent | app/models.py:124-130 | updating twice with the same arguments equals updating once |
| Events.UpdatedAllFalsyIsIdentity | app/models.py:124-130 | an update whose arguments are all falsy (`None`, or `""` for the title and description) leaves the event unchanged |
| Events.EmptyStringMeansUnchanged | app/models.py:125-126 | passing `""` for the title or the description has the same effect as passing `None`, so the merge cannot clear a field |
| Events.UpdatedKeepsWellFormed | app/models.py:124-131 | the merge never validates, yet an event with non-empty title and description keeps both non-empty, so it still passes `Event.validate` |
| TicketCodes.HexDigits | app/models.py:184 | the zero-padded hex rendering has exactly the requested width and only lower-case hex digits |
| TicketCodes.Hex | app/models.py:184 | no contract; `uuid.hex` itself, the 32-digit `HexDigits` rendering, characterised by `TicketCodes.HexDigits` and `TicketCodes.HexDigitsPrefix` |
| TicketCodes.Upper | app/models.py:184 | `upper()` keeps the length and turns each lower-case hex digit into an upper-case hex digit of the same value |
| TicketCodes.GenerateTicketCode | app/models.py:183-184 | `uuid.hex[:12].upper()` is exactly 12 characters, each an upper-case hex digit |
| TicketCodes.HexDigitsPrefix | app/models.py:184 | the first 12 of the 32 hex digits are the 12 digits of the UUID divided by 16^20 |
| TicketCodes.CodeIsTopBits | app/models.py:183-184 | read back as a hex number, a ticket code is the top 48 bits of its UUID |
| TicketCodes.CodesCollideIff | app/models.py:183-184 | two UUIDs give the same code iff their top 48 bits agree |
| Tickets.AssignedCode | app/models.py:177-181 | the code after `save` is never empty; an existing code is kept; an empty code is replaced by a generated 12-character upper-case hex code whose value is the UUID's top 48 bits |
| Tickets.AssignedCodeIsStable | app/models.py:177-181 | a second save never changes the code, whatever UUID it draws |
| Tickets.Ticket.constructor | app/models.py:170-175 | a new instance has the empty default code and no stored row |
| Tickets.Ticket.Save | app/models.py:177-181 | the code is generated only when it was empty and kept otherwise; the stored row then carries the instance's code, quantity, type, owner and event |
| Tickets.Ticket.CanBeModifiedBy | app/models.py:186-188 | no contract; the owner-only rule itself, characterised by `Tickets.OwnerOnly` |
| Tickets.Ticket.CanBeDeletedBy | app/models.py:190-192 | no contract; the owner-only rule itself, characterised by `Tickets.OwnerOnly` |
| Tickets.OwnerOnly | app/models.py:186-192 | edit and delete rights coincide, the owner has both, and a user who does not own the ticket (the event's organizer included) has neither |
| Comments.CanUserDelete | app/models.py:144-145 | no contract; the author-or-organizer rule itself, characterised by `Comments.DeletersAreAuthorAndOrganizer` |
| Comments.DeletersAreAuthorAndOrganizer | app/models.py:144-145 | the author and the event's organizer may delete a comment, and nobody else may |
| Ratings.CanUserDeleteOrEdit | app/models.py:160-161 | no contract; the author-or-organizer rule itself, characterised by `Ratings.SameRuleAsComments` |
| Ratings.SameRuleAsComments | app/models.py:160-161 | a rating may be deleted or edited by exactly the users who could delete a comment by the same author on the same event, namely the author and the organizer |
| EventExtras.GetStateBadgeClass | app/templatetags/event_extras.py:6-14 | the filter is total and never returns `""`; the result differs from the default iff the state is one of the table's five keys |
| EventExtras.KnownStateBadges | app/templatetags/event_extras.py:7-13 | AVAILABLE, CANCELLED, REPROGRAM, SOLD_OUT and FINISHED give bg-success, bg-danger, bg-warning, bg-secondary and bg-dark |
| EventExtras.UnknownStateGetsDefault | app/templatetags/event_extras.py:14 | any other state gives `"bg-ligth text-dark"` |
| EventExtras.KnownStatesDistinguishable | app/templatetags/event_extras.py:7-13 | distinct known states get distinct classes |

## Left out

- Ticket admission (event-state gating, GENERAL/VIP capacity, the 4-tickets-per-user cap, `Ticket.can_purchase`): no code in `app/models.py` or `app/views.py` implements it, and the `Event` model has no `state` or capacity fields.
- `app/views.py`: request handling, redirects, rendering and `get_object_or_404` are web plumbing. Its calls to `Event.new` and `event.update` pass four arguments where the model methods take six.
- Django ORM mechanics: query sets, cascading deletes and the `auto_now` / `auto_now_add` timestamps (`created_at`, `updated_at`, `buy_date`). Lookups are sets, and tables are maps.
- Randomness: `uuid.uuid4()` becomes the UUID parameter of `Ticket.Save`. Uniqueness of ticket codes across the table is not modelled. `TicketCodes.CodesCollideIff` states exactly when two codes collide.
- Database errors: the `unique=True` constraint on `ticket_code`, and the integrity error of writing `None` into a non-null column, are not modelled.
- Events.EventStore.New: takes present values only, because `None` for one of the six fields passes validation and then fails at the database insert.
- Events.EventStore.Update: treats the instance and its saved row as one value, because `update` always ends with `save()`. It requires the event to be in the table, as the caller always loads the instance first.
- EventExtras.GetStateBadgeClass: takes the value of `event.state`. The `Event` model in `app/models.py` has no `state` attribute, so passing one of its instances would raise `AttributeError`. That error path is not modelled.
- Venues.CleanVenue: its string fields are never `None`, and its capacity is an integer or `None`. A `None` string raises `AttributeError` in Python, and a non-numeric capacity (a string, say) raises `TypeError`. A float or `Decimal` capacity compares like an integer (`0.5` passes `clean`) and is outside the model.
- TicketCodes.Upper: upper-cases ASCII letters only. Python's full Unicode case mapping is not modelled, because `upper()` is only ever applied to hex digits here.
- Other members: `__str__`, `Category.user_is_organizer`, `Venue.user_is_organizer`, and the 1..5 validators on `Rating.rating`. The validators run only in `full_clean`, which nothing in `app/models.py` or `app/views.py` calls.
- Concurrency: there is none in this code.
