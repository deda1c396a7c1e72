/** The list-manipulating steps of the `bookings list`, `configure studios` and `schedules`
    commands: keeping the active bookings, turning chosen display names back into studio IDs,
    and deciding what booking request, if any, to send for a chosen class. */
module Selection {
  import opened Wrappers
  import opened Models

  // ----- Active bookings -----

  /** The bookings offered for cancellation: those not canceled, in their original order. Each
      booking that is not canceled keeps its multiplicity and a canceled one is gone. */
  function ActiveBookings(bookings: seq<Booking>): (r: seq<Booking>)
    ensures forall b :: multiset(r)[b] == if b.canceled then 0 else multiset(bookings)[b]
    ensures forall i :: 0 <= i < |r| ==> !r[i].canceled
  {
    if |bookings| == 0 then []
    else
      var rest := ActiveBookings(bookings[..|bookings| - 1]);
      var last := bookings[|bookings| - 1];
      assert bookings == bookings[..|bookings| - 1] + [last];
      if last.canceled then rest else rest + [last]
  }

  /** Filtering commutes with concatenation, so the kept bookings stay in their relative order. */
  lemma {:induction false} ActiveBookingsAppend(a: seq<Booking>, b: seq<Booking>)
    ensures ActiveBookings(a + b) == ActiveBookings(a) + ActiveBookings(b)
    decreases |b|
  {
    if |b| == 0 {
      assert a + b == a;
    } else {
      var init, last := b[..|b| - 1], b[|b| - 1];
      assert (a + b)[..|a + b| - 1] == a + init;
      ActiveBookingsAppend(a, init);
    }
  }

  /** Filtering again changes nothing. */
  lemma {:induction false} ActiveBookingsIdempotent(bookings: seq<Booking>)
    ensures ActiveBookings(ActiveBookings(bookings)) == ActiveBookings(bookings)
    decreases |bookings|
  {
    if |bookings| > 0 {
      var init, last := bookings[..|bookings| - 1], bookings[|bookings| - 1];
      ActiveBookingsIdempotent(init);
      if !last.canceled {
        ActiveBookingsAppend(ActiveBookings(init), [last]);
        assert ActiveBookings([last]) == [last] by {
          assert [last][..0] == [];
        }
      }
    }
  }

  // ----- Preferred-studio selection -----

  /** The display-name-to-ID map of the studio picker: a later studio with the same display
      name replaces an earlier one. `display` stands for the name formatting. */
  function StudioMap(studios: seq<Studio>, display: Studio -> string): (m: map<string, string>)
    ensures forall d :: d in m <==> exists i :: 0 <= i < |studios| && display(studios[i]) == d
    ensures forall d :: d in m ==>
      exists i :: 0 <= i < |studios| && display(studios[i]) == d && m[d] == studios[i].uuid
  {
    if |studios| == 0 then map[]
    else
      var init := studios[..|studios| - 1];
      var last := studios[|studios| - 1];
      var m := StudioMap(init, display);
      assert forall i :: 0 <= i < |init| ==> init[i] == studios[i];
      m[display(last) := last.uuid]
  }

  /** When two studios share a display name, the later one is the one selected. */
  lemma {:induction false} StudioMapLastWins(studios: seq<Studio>, display: Studio -> string, i: nat)
    requires i < |studios|
    requires forall j :: i < j < |studios| ==> display(studios[j]) != display(studios[i])
    ensures StudioMap(studios, display)[display(studios[i])] == studios[i].uuid
    decreases |studios|
  {
    if i < |studios| - 1 {
      var init := studios[..|studios| - 1];
      assert init[i] == studios[i];
      assert forall j :: i < j < |init| ==> init[j] == studios[j];
      StudioMapLastWins(init, display, i);
    }
  }

  /** The IDs saved for the chosen display names: unknown names are skipped, and the others
      are mapped in the order chosen. */
  function SelectedStudioIds(selected: seq<string>, studioMap: map<string, string>): (r: seq<string>)
    ensures |r| <= |selected|
    ensures forall id :: id in r ==> id in studioMap.Values
    ensures (forall i :: 0 <= i < |selected| ==> selected[i] in studioMap) ==>
      |r| == |selected| && forall i :: 0 <= i < |selected| ==> r[i] == studioMap[selected[i]]
    ensures (forall i :: 0 <= i < |selected| ==> selected[i] !in studioMap) ==> r == []
  {
    if |selected| == 0 then []
    else
      var rest := SelectedStudioIds(selected[1..], studioMap);
      if selected[0] in studioMap then [studioMap[selected[0]]] + rest else rest
  }

  /** Selecting from a concatenation selects from each part in turn, so the saved IDs keep the
      order the names were chosen in. */
  lemma {:induction false} SelectedStudioIdsAppend(a: seq<string>, b: seq<string>, studioMap: map<string, string>)
    ensures SelectedStudioIds(a + b, studioMap) == SelectedStudioIds(a, studioMap) + SelectedStudioIds(b, studioMap)
    decreases |a|
  {
    if |a| == 0 {
      assert a + b == b;
    } else {
      assert (a + b)[0] == a[0];
      assert (a + b)[1..] == a[1..] + b;
      SelectedStudioIdsAppend(a[1..], b, studioMap);
    }
  }

  /** One chosen name: its ID when the name is known, nothing when it is not. */
  lemma SelectedStudioIdsSingle(name: string, studioMap: map<string, string>)
    ensures name in studioMap ==> SelectedStudioIds([name], studioMap) == [studioMap[name]]
    ensures name !in studioMap ==> SelectedStudioIds([name], studioMap) == []
  {
    assert [name][1..] == [];
  }

  /** Every saved ID is the ID of a studio that was offered. */
  lemma SelectedIdsAreOffered(studios: seq<Studio>, display: Studio -> string, selected: seq<string>)
    ensures forall id :: id in SelectedStudioIds(selected, StudioMap(studios, display)) ==>
      exists i :: 0 <= i < |studios| && studios[i].uuid == id
  {
    var m := StudioMap(studios, display);
    forall id | id in SelectedStudioIds(selected, m)
      ensures exists i :: 0 <= i < |studios| && studios[i].uuid == id
    {
      var d :| d in m && m[d] == id;
    }
  }

  // ----- The booking decision -----

  /** The class is full, so a booking can only join the waitlist. */
  predicate NeedsWaitlist(cls: ScheduledClass)
  {
    cls.bookingCapacity <= 0
  }

  /** The request the `schedules` command builds for a chosen class: never confirmed, and a
      waitlist request exactly when no spot is left. */
  function BookingRequestFor(cls: ScheduledClass): (r: CreateBookingRequest)
    ensures r.classId == cls.id
    ensures !r.confirmed
    ensures r.waitlist <==> cls.bookingCapacity <= 0
  {
    CreateBookingRequest(cls.id, false, NeedsWaitlist(cls))
  }

  /** After the two confirmations: a request is sent only if the user wants to book, and, for
      a full class, also agrees to join the waitlist. */
  function BookingDecision(cls: ScheduledClass, shouldBook: bool, useWaitlist: bool): (r: Option<CreateBookingRequest>)
    ensures r.Some? <==> shouldBook && (cls.bookingCapacity > 0 || useWaitlist)
    ensures r.Some? ==> r.value.classId == cls.id
    ensures r.Some? ==> !r.value.confirmed
    ensures r.Some? ==> (r.value.waitlist <==> cls.bookingCapacity <= 0)
  {
    if !shouldBook then None
    else if NeedsWaitlist(cls) && !useWaitlist then None
    else Some(BookingRequestFor(cls))
  }
}
