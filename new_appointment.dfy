/** The appointment booking form (src/app/appointments/new/page.tsx): field edits, the
    optional list of a provider's free slots, and the ordered checks of submit leading
    to exactly one `createAppointment` call. */
module NewAppointment {
  import opened Wrappers
  import opened Text
  import opened Loading
  import opened ApiErrors

  /** The inputs of the form, named by their element ids. */
  datatype FieldId = ProviderLicense | ProviderEmail | Date | Time | Type | Notes

  datatype FormData = FormData(providerLicense: string, providerEmail: string, date: string, time: string,
                               kind: string, notes: string)

  const InitialForm: FormData := FormData("", "", "", "", "in-person", "")

  /** A free slot as received; `startTime` is the server's ISO string. */
  datatype AvailableSlot = AvailableSlot(id: int, providerId: int, startTime: string, endTime: string)

  /** The body of `createAppointment`; a `NaN` provider id serialises as `null` (`None`). */
  datatype AppointmentData = AppointmentData(appointmentId: string, providerId: Option<int>, dateTime: string,
                                             consultationType: string, notes: Option<string>)

  /** One `createAppointment(appointmentData, userId)` call. */
  datatype CreateRequest = CreateRequest(data: AppointmentData, userId: int)

  /** `{ ...prev, [id]: value }` for one of the form's inputs. */
  function WithField(f: FormData, id: FieldId, value: string): (r: FormData)
    ensures id == ProviderLicense ==> r == f.(providerLicense := value)
    ensures id == ProviderEmail ==> r == f.(providerEmail := value)
    ensures id == Date ==> r == f.(date := value)
    ensures id == Time ==> r == f.(time := value)
    ensures id == Type ==> r == f.(kind := value)
    ensures id == Notes ==> r == f.(notes := value)
  {
    match id
    case ProviderLicense => f.(providerLicense := value)
    case ProviderEmail => f.(providerEmail := value)
    case Date => f.(date := value)
    case Time => f.(time := value)
    case Type => f.(kind := value)
    case Notes => f.(notes := value)
  }

  /** The value of the input named `id`. */
  function FieldValue(f: FormData, id: FieldId): string {
    match id
    case ProviderLicense => f.providerLicense
    case ProviderEmail => f.providerEmail
    case Date => f.date
    case Time => f.time
    case Type => f.kind
    case Notes => f.notes
  }

  /** An edit sets the named field and leaves every other field as it was. */
  lemma WithFieldOnlyThatField(f: FormData, id: FieldId, value: string, other: FieldId)
    ensures FieldValue(WithField(f, id, value), id) == value
    ensures other != id ==> FieldValue(WithField(f, id, value), other) == FieldValue(f, other)
  {
  }

  /** `availableSlots.find(s => s.id === id)`: the first slot with that id. */
  function FindSlot(slots: seq<AvailableSlot>, id: int): (r: Option<AvailableSlot>)
    ensures r.Some? ==> r.value in slots && r.value.id == id
    ensures r.None? ==> forall i :: 0 <= i < |slots| ==> slots[i].id != id
  {
    if slots == [] then None
    else if slots[0].id == id then Some(slots[0])
    else FindSlot(slots[1..], id)
  }

  const NotLoggedIn: string := "You must be logged in to create an appointment"
  const NoLicense: string := "Please enter provider license number"
  const InvalidSlot: string := "Selected slot is invalid"
  const NoDateTime: string := "Please fill in date and time or select from available slots"
  const FetchSlotsFailed: string := "Failed to fetch available slots"
  const InvalidLicense: string := "Please enter a valid provider license number"

  /** Where the submit checks lead: a message and no call, an abort (the manual date and
      time make an invalid `Date`, so `toISOString` throws before the `try`), or a request. */
  datatype Plan = Refuse(message: string) | Abort | Send(providerId: Option<int>, dateTime: string)

  /** The checks of `handleSubmit`, in the source's order, for user `user`, the form, the
      listed slots and the selected slot. `toIso` stands for
      `new Date(text).toISOString()`, `None` where it throws. */
  function PlanSubmit(user: Option<int>, form: FormData, slots: seq<AvailableSlot>, selected: Option<int>,
                      toIso: string -> Option<string>): (p: Plan)
    ensures user.None? ==> p == Refuse(NotLoggedIn)
    ensures user.Some? && form.providerLicense == "" ==> p == Refuse(NoLicense)
    ensures user.Some? && form.providerLicense != "" && selected.Some? ==>
              (FindSlot(slots, selected.value).None? ==> p == Refuse(InvalidSlot))
              && (FindSlot(slots, selected.value).Some? ==>
                    p == Send(Some(FindSlot(slots, selected.value).value.providerId), FindSlot(slots, selected.value).value.startTime))
    ensures user.Some? && form.providerLicense != "" && selected.None? ==>
              ((form.date == "" || form.time == "") ==> p == Refuse(NoDateTime))
              && (form.date != "" && form.time != "" && toIso(form.date + "T" + form.time).None? ==> p == Abort)
              && (form.date != "" && form.time != "" && toIso(form.date + "T" + form.time).Some? ==>
                    p == Send(ParseInt(form.providerLicense), toIso(form.date + "T" + form.time).value))
  {
    if user.None? then Refuse(NotLoggedIn)
    else if form.providerLicense == "" then Refuse(NoLicense)
    else if selected.Some? then
      match FindSlot(slots, selected.value)
      case None => Refuse(InvalidSlot)
      case Some(slot) => Send(Some(slot.providerId), slot.startTime)
    else if form.date == "" || form.time == "" then Refuse(NoDateTime)
    else match toIso(form.date + "T" + form.time)
      case None => Abort
      case Some(iso) => Send(ParseInt(form.providerLicense), iso)
  }

  /** On the slot path the typed license and the manual date and time play no part: any
      two forms with a license give the same plan. */
  lemma SlotOverridesForm(user: int, f1: FormData, f2: FormData, slots: seq<AvailableSlot>, selected: int,
                          toIso: string -> Option<string>)
    requires f1.providerLicense != "" && f2.providerLicense != ""
    ensures PlanSubmit(Some(user), f1, slots, Some(selected), toIso) == PlanSubmit(Some(user), f2, slots, Some(selected), toIso)
  {
  }

  /** The payload built from a plan that sends, at `Date.now()` = `now`. */
  function Payload(form: FormData, providerId: Option<int>, dateTime: string, now: nat): (d: AppointmentData)
    ensures d.consultationType == form.kind
    ensures d.notes.None? <==> form.notes == ""
    ensures d.notes.Some? ==> d.notes.value == form.notes
    ensures StartsWith(d.appointmentId, "APT-") && d.providerId == providerId && d.dateTime == dateTime
  {
    AppointmentData("APT-" + NatToString(now), providerId, dateTime, form.kind, if form.notes == "" then None else Some(form.notes))
  }

  /** The page state. */
  class NewAppointmentPage {
    var formData: FormData
    var availableSlots: seq<AvailableSlot>
    var selectedSlot: Option<int>
    var showAvailableSlots: bool
    var error: Option<string>
    var loadingStates: LoadingState
    /** The route passed to `router.push`, once. */
    var navigatedTo: Option<string>

    constructor ()
      ensures formData == InitialForm && availableSlots == [] && selectedSlot.None? && !showAvailableSlots
      ensures error.None? && loadingStates == map[] && navigatedTo.None?
    {
      formData := InitialForm;
      availableSlots := [];
      selectedSlot := None;
      showAvailableSlots := false;
      error := None;
      loadingStates := map[];
      navigatedTo := None;
    }

    /** `handleChange` for the input `id`. */
    method HandleChange(id: FieldId, value: string)
      modifies this`formData
      ensures formData == WithField(old(formData), id, value)
    {
      formData := WithField(formData, id, value);
    }

    /** `fetchAvailableSlots(providerId)`, where `fetched` is how the fetch settles. */
    method FetchAvailableSlots(fetched: Call<seq<AvailableSlot>>)
      modifies this`availableSlots, this`showAvailableSlots, this`error, this`loadingStates
      ensures fetched.Resolved? ==> availableSlots == fetched.value && showAvailableSlots && error.None?
      ensures fetched.Rejected? ==> (availableSlots == old(availableSlots) && showAvailableSlots == old(showAvailableSlots)
                                     && error == Some(OrElse(GetErrorMessage(fetched.error), FetchSlotsFailed)))
      ensures loadingStates == WithStopped(WithStarted(old(loadingStates), "fetchSlots"), "fetchSlots")
    {
      loadingStates := WithStarted(loadingStates, "fetchSlots");
      if fetched.Resolved? {
        availableSlots := fetched.value;
        showAvailableSlots := true;
        error := None;
      } else {
        error := Some(OrElse(GetErrorMessage(fetched.error), FetchSlotsFailed));
      }
      loadingStates := WithStopped(loadingStates, "fetchSlots");
    }

    /** The "Show Available Slots" button: fetches for `parseInt(providerLicense)` when it
        is a number. Returns the provider id fetched for, if any. */
    method ShowAvailableSlots(fetched: Call<seq<AvailableSlot>>) returns (fetchedFor: Option<int>)
      modifies this`availableSlots, this`showAvailableSlots, this`error, this`loadingStates
      ensures fetchedFor == ParseInt(old(formData.providerLicense))
      ensures fetchedFor.None? ==> (error == Some(InvalidLicense) && availableSlots == old(availableSlots)
                                    && showAvailableSlots == old(showAvailableSlots) && loadingStates == old(loadingStates))
      ensures fetchedFor.Some? && fetched.Resolved? ==> availableSlots == fetched.value && showAvailableSlots && error.None?
      ensures fetchedFor.Some? && fetched.Rejected? ==>
                (availableSlots == old(availableSlots) && showAvailableSlots == old(showAvailableSlots)
                 && error == Some(OrElse(GetErrorMessage(fetched.error), FetchSlotsFailed)))
      ensures fetchedFor.Some? ==> loadingStates == WithStopped(WithStarted(old(loadingStates), "fetchSlots"), "fetchSlots")
    {
      fetchedFor := ParseInt(formData.providerLicense);
      if fetchedFor.None? {
        error := Some(InvalidLicense);
      } else {
        FetchAvailableSlots(fetched);
      }
    }

    method SelectSlot(id: int)
      modifies this`selectedSlot
      ensures selectedSlot == Some(id)
    {
      selectedSlot := Some(id);
    }

    /** "Hide Available Slots": hides the list and clears the selection. */
    method HideAvailableSlots()
      modifies this`showAvailableSlots, this`selectedSlot
      ensures !showAvailableSlots && selectedSlot.None?
    {
      showAvailableSlots := false;
      selectedSlot := None;
    }

    /** `handleSubmit` by user `user` at `Date.now()` = `now`; `created` is how
        `createAppointment` settles. Returns the one request sent, if any. */
    method HandleSubmit(user: Option<int>, toIso: string -> Option<string>, now: nat, created: Call<()>)
      returns (sent: Option<CreateRequest>)
      modifies this`error, this`loadingStates, this`navigatedTo
      ensures var p := PlanSubmit(user, formData, availableSlots, selectedSlot, toIso);
              && (p.Refuse? ==> sent.None? && error == Some(p.message)
                                && loadingStates == old(loadingStates) && navigatedTo == old(navigatedTo))
              && (p.Abort? ==> sent.None? && error == old(error)
                               && loadingStates == old(loadingStates) && navigatedTo == old(navigatedTo))
              && (p.Send? ==> sent == Some(CreateRequest(Payload(formData, p.providerId, p.dateTime, now), user.value))
                              && loadingStates == WithStopped(WithStarted(old(loadingStates), "createAppointment"),
                                                              "createAppointment"))
              && (p.Send? && created.Resolved? ==> navigatedTo == Some("/appointments") && error.None?)
              && (p.Send? && created.Rejected? ==>
                    navigatedTo == old(navigatedTo) && error == Some(GetErrorMessage(created.error)))
    {
      sent := None;
      if user.None? {
        error := Some(NotLoggedIn);
        return;
      }
      if formData.providerLicense == "" {
        error := Some(NoLicense);
        return;
      }
      var providerId := ParseInt(formData.providerLicense);
      var appointmentDateTime: string;
      if selectedSlot.Some? {
        var slot := FindSlot(availableSlots, selectedSlot.value);
        if slot.None? {
          error := Some(InvalidSlot);
          return;
        }
        providerId := Some(slot.value.providerId);
        appointmentDateTime := slot.value.startTime;
      } else {
        if formData.date == "" || formData.time == "" {
          error := Some(NoDateTime);
          return;
        }
        var iso := toIso(formData.date + "T" + formData.time);
        if iso.None? {
          return;
        }
        appointmentDateTime := iso.value;
      }
      loadingStates := WithStarted(loadingStates, "createAppointment");
      error := None;
      var data := AppointmentData("APT-" + NatToString(now), providerId, appointmentDateTime, formData.kind,
                                  if formData.notes == "" then None else Some(formData.notes));
      sent := Some(CreateRequest(data, user.value));
      if created.Resolved? {
        navigatedTo := Some("/appointments");
      } else {
        error := Some(GetErrorMessage(created.error));
      }
      loadingStates := WithStopped(loadingStates, "createAppointment");
    }
  }
}
