/** The records the client exchanges with the service, reduced to the fields the modelled code
    reads. Timestamps are opaque instants (`int`); their formatting is a parameter where used. */
module Models {
  import opened Wrappers
  import opened Json

  /** The summary of a studio embedded in a scheduled class. */
  datatype ClassStudio = ClassStudio(id: string, name: string)

  /** A scheduled class (`StudioClass`). */
  datatype ScheduledClass = ScheduledClass(
    id: string,
    name: string,
    startsAt: int,
    endsAt: int,
    maxCapacity: int,
    bookingCapacity: int,
    canceled: bool,
    studio: ClassStudio)

  /** A studio from the studio directory (`Studio`). */
  datatype Studio = Studio(uuid: string, name: string)

  /** One of the user's bookings (the `BookingRequest` record the bookings list returns). */
  datatype Booking = Booking(
    id: string,
    classId: string,
    className: string,
    studioName: string,
    startsAt: string,
    canceled: bool,
    lateCanceled: bool,
    checkedIn: bool)

  /** The bookings-list envelope: `items`, and a single `booking` the list call ignores. */
  datatype BookingEnvelope = BookingEnvelope(items: seq<Booking>, booking: Option<Booking>)

  /** The payload that creates a booking. */
  datatype CreateBookingRequest = CreateBookingRequest(classId: string, confirmed: bool, waitlist: bool)

  /** The JSON shape of a booking-creation payload, `{confirmed, classId, waitlist}`; decoding
      it gives the same request back, field for field. */
  function EncodeBookingRequest(b: CreateBookingRequest): (r: Json)
    ensures DecodeBookingRequest(r) == Some(b)
  {
    var members := [("confirmed", JBool(b.confirmed)), ("classId", JString(b.classId)), ("waitlist", JBool(b.waitlist))];
    assert "confirmed" != "classId" && "confirmed" != "waitlist" && "classId" != "waitlist" by {
      assert "confirmed"[1] != "classId"[1];
    }
    assert Member(members[1..][1..], "waitlist") == Some(JBool(b.waitlist));
    assert Member(members, "waitlist") == Some(JBool(b.waitlist));
    assert Member(members, "classId") == Some(JString(b.classId));
    assert Member(members, "confirmed") == Some(JBool(b.confirmed));
    JObject(members)
  }

  /** Reads a booking-creation payload back; anything without the three fields is rejected. */
  function DecodeBookingRequest(j: Json): Option<CreateBookingRequest>
  {
    if !j.JObject? then None
    else
      match (Member(j.members, "classId"), Member(j.members, "confirmed"), Member(j.members, "waitlist"))
      case (Some(JString(id)), Some(JBool(c)), Some(JBool(w))) => Some(CreateBookingRequest(id, c, w))
      case _ => None
  }
}
