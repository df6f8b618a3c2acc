/** The availability editor of a provider (src/components/ProviderAvailabilityManager.tsx):
    the slot list kept free of expired slots, the add form with its two checks, and
    delete with confirmation. Instants are integers (milliseconds); a date string that
    does not parse is `None`, which JavaScript compares as `NaN`. */
module Availability {
  import opened Wrappers
  import opened Seqs
  import opened ApiErrors

  /** A `ProviderAvailability` row as received; `endTime` is `new Date(end_time)`. */
  datatype Slot = Slot(id: int, providerId: int, startTime: Option<int>, endTime: Option<int>, isBooked: bool)

  /** The body of `createProviderAvailability`. */
  datatype NewAvailability = NewAvailability(providerId: int, startTime: int, endTime: int, isBooked: bool)

  /** `new Date(slot.end_time) > new Date()`: false for an unparsable end time. */
  predicate Live(slot: Slot, now: int) {
    slot.endTime.Some? && slot.endTime.value > now
  }

  /** `slots.filter(slot => new Date(slot.end_time) > new Date())`. */
  function Unexpired(slots: seq<Slot>, now: int): (r: seq<Slot>)
    ensures |r| <= |slots|
    ensures forall i :: 0 <= i < |r| ==> Live(r[i], now)
  {
    Filter(slots, (slot: Slot) => Live(slot, now))
  }

  /** A slot survives exactly when it was present and has not ended. */
  lemma UnexpiredMembership(slots: seq<Slot>, now: int, slot: Slot)
    ensures slot in Unexpired(slots, now) <==> slot in slots && Live(slot, now)
  {
    FilterMembership(slots, (s: Slot) => Live(s, now), slot);
  }

  /** The survivors keep their original order. */
  lemma UnexpiredKeepsOrder(slots: seq<Slot>, now: int)
    ensures IsSubsequence(Unexpired(slots, now), slots)
  {
    FilterIsSubsequence(slots, (s: Slot) => Live(s, now));
  }

  /** A second sweep at a later (or the same) instant is the same as sweeping once at the
      later instant; in particular the sweep is idempotent at a fixed instant. */
  lemma SweepTwice(slots: seq<Slot>, t1: int, t2: int)
    requires t1 <= t2
    ensures Unexpired(Unexpired(slots, t1), t2) == Unexpired(slots, t2)
  {
    FilterFilter(slots, (s: Slot) => Live(s, t1), (s: Slot) => Live(s, t2));
  }

  /** A sweep removes nothing when every slot is still live. */
  lemma SweepKeepsLive(slots: seq<Slot>, now: int)
    requires forall i :: 0 <= i < |slots| ==> Live(slots[i], now)
    ensures Unexpired(slots, now) == slots
  {
    FilterAll(slots, (s: Slot) => Live(s, now));
  }

  const LoadFailed: string := "Failed to load availabilities"
  const InvalidFormat: string := "Invalid date or time format"
  const EndNotAfterStart: string := "End time must be later than start time"
  const AddFailed: string := "Failed to add availability slot. Please try again."
  const DeleteFailed: string := "Failed to delete availability slot. Please try again."

  /** The submitted slot for the form fields, or the message of the check that fails:
      both instants must parse (checked first), and the end must be later than the start. */
  function Validate(providerId: int, start: Option<int>, end: Option<int>): (r: Result<NewAvailability>)
    ensures (start.None? || end.None?) <==> r == Err(InvalidFormat)
    ensures r.Ok? <==> start.Some? && end.Some? && start.value < end.value
    ensures r.Ok? ==> r.value == NewAvailability(providerId, start.value, end.value, false)
    ensures start.Some? && end.Some? && end.value <= start.value ==> r == Err(EndNotAfterStart)
  {
    if start.None? || end.None? then Err(InvalidFormat)
    else if end.value <= start.value then Err(EndNotAfterStart)
    else Ok(NewAvailability(providerId, start.value, end.value, false))
  }

  /** The component state of one provider's editor. */
  class AvailabilityManager {
    const providerId: int
    var date: string
    var startTime: string
    var endTime: string
    var availabilities: seq<Slot>
    var isLoading: bool
    var isDeleting: Option<int>
    var error: Option<string>

    constructor (providerId: int)
      ensures this.providerId == providerId
      ensures date == "" && startTime == "" && endTime == "" && availabilities == []
      ensures !isLoading && isDeleting.None? && error.None?
    {
      this.providerId := providerId;
      date, startTime, endTime := "", "", "";
      availabilities := [];
      isLoading, isDeleting, error := false, None, None;
    }

    /** One tick of the 60-second interval at instant `now`. */
    method Sweep(now: int)
      modifies this`availabilities
      ensures availabilities == Unexpired(old(availabilities), now)
    {
      availabilities := Filter(availabilities, (slot: Slot) => Live(slot, now));
    }

    /** `loadAvailabilities()`, where `fetched` is what `getProviderAvailabilities` settled
        with: keeps only the live slots, or records the failure and keeps the old list. */
    method LoadAvailabilities(fetched: Call<seq<Slot>>, now: int)
      modifies this`availabilities, this`error, this`isLoading
      ensures fetched.Resolved? ==> availabilities == Unexpired(fetched.value, now) && error == old(error)
      ensures fetched.Rejected? ==>
                availabilities == old(availabilities) && error == Some(MessageFieldOr(fetched.error, LoadFailed))
      ensures !isLoading
    {
      isLoading := true;
      if fetched.Resolved? {
        availabilities := Filter(fetched.value, (slot: Slot) => Live(slot, now));
      } else {
        error := Some(MessageFieldOr(fetched.error, LoadFailed));
      }
      isLoading := false;
    }

    /** `handleSubmit`. `parse` stands for `new Date(text).getTime()`; `created` is how
        `createProviderAvailability` settles and `reloaded` how the reload fetch settles.
        Returns the body sent to `createProviderAvailability`, `None` when none is sent. */
    method HandleSubmit(parse: string -> Option<int>, created: Call<()>, reloaded: Call<seq<Slot>>, now: int)
      returns (sent: Option<NewAvailability>)
      modifies this`date, this`startTime, this`endTime, this`availabilities, this`error, this`isLoading
      ensures var v := Validate(providerId, parse(old(date) + "T" + old(startTime)), parse(old(date) + "T" + old(endTime)));
              && (v.Err? ==> sent.None? && error == Some(v.message) && availabilities == old(availabilities)
                             && date == old(date) && startTime == old(startTime) && endTime == old(endTime))
              && (v.Ok? ==> sent == Some(v.value))
              && (v.Ok? && created.Rejected? ==>
                    && error == Some(MessageFieldOr(created.error, AddFailed))
                    && availabilities == old(availabilities)
                    && date == old(date) && startTime == old(startTime) && endTime == old(endTime))
              && (v.Ok? && created.Resolved? ==>
                    && date == "" && startTime == "" && endTime == ""
                    && (reloaded.Resolved? ==> availabilities == Unexpired(reloaded.value, now) && error.None?)
                    && (reloaded.Rejected? ==>
                          availabilities == old(availabilities) && error == Some(MessageFieldOr(reloaded.error, LoadFailed))))
      ensures sent.Some? ==> sent.value.providerId == providerId && !sent.value.isBooked
                             && sent.value.startTime < sent.value.endTime
      ensures !isLoading
    {
      isLoading := true;
      error := None;
      sent := None;
      var v := Validate(providerId, parse(date + "T" + startTime), parse(date + "T" + endTime));
      if v.Err? {
        error := Some(v.message);
      } else {
        sent := Some(v.value);
        if created.Rejected? {
          error := Some(MessageFieldOr(created.error, AddFailed));
        } else {
          date, startTime, endTime := "", "", "";
          LoadAvailabilities(reloaded, now);
        }
      }
      isLoading := false;
    }

    /** The Delete button of `slot` is disabled while that slot is being deleted, and for a
        booked slot. */
    function DeleteDisabled(slot: Slot): (r: bool)
      reads this
      ensures r ==> slot.isBooked || isDeleting == Some(slot.id)
      ensures isDeleting.None? ==> (r <==> slot.isBooked)
    {
      isDeleting == Some(slot.id) || slot.isBooked
    }

    /** A booked slot can never be deleted from the editor, whatever is being deleted. */
    lemma BookedSlotDisabled(slot: Slot)
      requires slot.isBooked
      ensures DeleteDisabled(slot)
    {
    }

    /** `handleDelete(id)`, where `confirmed` is the answer to the confirmation dialog.
        Returns the id sent to `deleteProviderAvailability`, `None` when none is sent. */
    method HandleDelete(id: int, confirmed: bool, deleted: Call<()>, reloaded: Call<seq<Slot>>, now: int)
      returns (sent: Option<int>)
      modifies this`isDeleting, this`error, this`availabilities, this`isLoading
      ensures !confirmed ==> (sent.None? && isDeleting == old(isDeleting) && error == old(error)
                              && availabilities == old(availabilities) && isLoading == old(isLoading))
      ensures confirmed ==> sent == Some(id) && isDeleting.None?
      ensures confirmed ==> forall slot: Slot :: DeleteDisabled(slot) <==> slot.isBooked
      ensures confirmed && deleted.Rejected? ==>
                error == Some(MessageFieldOr(deleted.error, DeleteFailed)) && availabilities == old(availabilities)
      ensures confirmed && deleted.Resolved? && reloaded.Resolved? ==>
                availabilities == Unexpired(reloaded.value, now) && error.None?
      ensures confirmed && deleted.Resolved? && reloaded.Rejected? ==>
                availabilities == old(availabilities) && error == Some(MessageFieldOr(reloaded.error, LoadFailed))
    {
      if !confirmed {
        return None;
      }
      isDeleting := Some(id);
      error := None;
      sent := Some(id);
      if deleted.Rejected? {
        error := Some(MessageFieldOr(deleted.error, DeleteFailed));
      } else {
        LoadAvailabilities(reloaded, now);
      }
      isDeleting := None;
    }

    /** The slots listed on screen at instant `now` (the render re-applies the expiry test). */
    function Visible(now: int): (r: seq<Slot>)
      reads this
      ensures r == Unexpired(availabilities, now)
      ensures forall slot :: slot in r <==> slot in availabilities && Live(slot, now)
      ensures IsSubsequence(r, availabilities)
    {
      var r := Unexpired(availabilities, now);
      assert forall slot :: slot in r <==> slot in availabilities && Live(slot, now) by {
        forall slot ensures slot in r <==> slot in availabilities && Live(slot, now) {
          UnexpiredMembership(availabilities, now, slot);
        }
      }
      UnexpiredKeepsOrder(availabilities, now);
      r
    }
  }
}
