/**
 * `Venue.clean`: ordered checks over a venue's fields, where the first
 * failing one raises a `ValidationError` keyed by the offending field.
 */
module Venues {
  import opened Common
  import opened PyStrings

  /** The venue fields `clean` reads. `capacity` is an integer column that may be `None`. */
  datatype Venue = Venue(name: string, city: string, address: string, capacity: Option<int>, contact: string)

  /** The outcome of `clean`: it returns, or raises `ValidationError({field: message})`. */
  datatype Cleaned = Clean | ValidationError(field: string, message: string)

  const NameBlank := "El nombre no puede estar vacio"
  const CityBlank := "La ciudad no puede estar vacia"
  const AddressBlank := "La direccion no puede estar vacia"
  const ContactBlank := "El contacto no puede estar vacio"
  const CapacityMissing := "La capacidad no puede estar vacia"
  const CapacityNotPositive := "La capacidad debe ser un numero positivo"

  /**
   * The checks, in order: name, city, address (reported under the key
   * `"adress"`), contact, capacity present, capacity positive.
   */
  function CleanVenue(v: Venue): (r: Cleaned)
    ensures r.Clean? <==> && !IsBlank(v.name) && !IsBlank(v.city) && !IsBlank(v.address)
                          && !IsBlank(v.contact) && v.capacity.Some? && v.capacity.value > 0
    ensures IsBlank(v.name) ==> r == ValidationError("name", NameBlank)
    ensures !IsBlank(v.name) && IsBlank(v.city) ==> r == ValidationError("city", CityBlank)
    ensures !IsBlank(v.name) && !IsBlank(v.city) && IsBlank(v.address) ==>
      r == ValidationError("adress", AddressBlank)
    ensures !IsBlank(v.name) && !IsBlank(v.city) && !IsBlank(v.address) && IsBlank(v.contact) ==>
      r == ValidationError("contact", ContactBlank)
    ensures r.ValidationError? && r.field == "capacity" <==>
      && !IsBlank(v.name) && !IsBlank(v.city) && !IsBlank(v.address) && !IsBlank(v.contact)
      && (v.capacity.None? || v.capacity.value <= 0)
    ensures r.ValidationError? && r.field == "capacity" ==>
      r.message == (if v.capacity.None? then CapacityMissing else CapacityNotPositive)
  {
    if IsBlank(v.name) then ValidationError("name", NameBlank)
    else if IsBlank(v.city) then ValidationError("city", CityBlank)
    else if IsBlank(v.address) then ValidationError("adress", AddressBlank)
    else if IsBlank(v.contact) then ValidationError("contact", ContactBlank)
    else if v.capacity.None? then ValidationError("capacity", CapacityMissing)
    else if v.capacity.value <= 0 then ValidationError("capacity", CapacityNotPositive)
    else Clean
  }

  /** Stated without `strip`: a venue passes exactly when no text field is whitespace only and the capacity is positive. */
  lemma CleanIffNoWhitespaceOnlyField(v: Venue)
    ensures CleanVenue(v).Clean? <==>
      && !AllSpace(v.name) && !AllSpace(v.city) && !AllSpace(v.address)
      && !AllSpace(v.contact) && v.capacity.Some? && v.capacity.value > 0
  {
    BlankIffAllSpace(v.name);
    BlankIffAllSpace(v.city);
    BlankIffAllSpace(v.address);
    BlankIffAllSpace(v.contact);
  }

  /** Only one error is ever reported: a blank name hides every later problem. */
  lemma BlankNameReportedFirst(v: Venue, city: string, address: string, capacity: Option<int>, contact: string)
    requires AllSpace(v.name)
    ensures CleanVenue(v) == CleanVenue(Venue(v.name, city, address, capacity, contact))
  {
    BlankIffAllSpace(v.name);
  }
}
