/** The `/appointments` routes (backend/routers/appointments.py): the order of the
    existence checks on create, 404 lookups, the per-user listing and the one-shot cancel. */
module AppointmentsRouter {
  import opened Wrappers
  import opened Http
  import opened Crud

  /** POST /appointments/?user_id: the user is checked before the provider. The insert is
      guarded by `except ValueError`; `storeError` is the message of such an error raised
      by the store, which becomes a 400 and leaves the table as it was. */
  method CreateAppointment(db: Database, appointment: AppointmentCreate, userId: int, storeError: Option<string>)
    returns (r: Reply<int>)
    modifies db`appointments
    ensures !HasId(db.users, userId) ==>
              r == HttpException(404, "User not found") && db.appointments == old(db.appointments)
    ensures HasId(db.users, userId) && !HasId(db.providers, appointment.providerId) ==>
              r == HttpException(404, "Provider not found") && db.appointments == old(db.appointments)
    ensures HasId(db.users, userId) && HasId(db.providers, appointment.providerId) && storeError.Some? ==>
              r == HttpException(400, storeError.value) && db.appointments == old(db.appointments)
    ensures r.Success? <==> HasId(db.users, userId) && HasId(db.providers, appointment.providerId) && storeError.None?
    ensures r.Success? ==> (db.appointments == old(db.appointments)
              + [Appointment(appointment.appointmentId, userId, appointment.providerId, appointment.dateTime,
                             appointment.consultationType, appointment.notes, false, None)]
              && r.body == |db.appointments|)
  {
    if db.GetUser(userId).None? {
      return HttpException(404, "User not found");
    }
    if db.GetProvider(appointment.providerId).None? {
      return HttpException(404, "Provider not found");
    }
    if storeError.Some? {
      return HttpException(400, storeError.value);
    }
    var id := db.CreateAppointment(appointment, userId);
    r := Success(id);
  }

  /** GET /appointments/{appointment_id}. */
  function ReadAppointment(db: Database, appointmentId: int): (r: Reply<Appointment>)
    reads db
    ensures r.Success? <==> HasId(db.appointments, appointmentId)
    ensures r.Success? ==> r.body == db.appointments[appointmentId - 1]
    ensures r.HttpException? ==> r == HttpException(404, "Appointment not found")
  {
    match db.GetAppointment(appointmentId)
    case None => HttpException(404, "Appointment not found")
    case Some(a) => Success(a)
  }

  /** GET /appointments/?skip&limit. */
  function ReadAppointments(db: Database, skip: nat, limit: nat): (r: seq<Appointment>)
    reads db
    ensures |r| == if skip >= |db.appointments| then 0 else Min(limit, |db.appointments| - skip)
    ensures forall i :: 0 <= i < |r| ==> r[i] == db.appointments[skip + i]
  {
    Page(db.appointments, skip, limit)
  }

  /** GET /appointments/user/{user_id}: 404 for an unknown user, otherwise the keys of
      exactly that user's appointments, in table order. */
  function ReadUserAppointments(db: Database, userId: int): (r: Reply<seq<int>>)
    reads db
    ensures r.HttpException? <==> !HasId(db.users, userId)
    ensures r.HttpException? ==> r == HttpException(404, "User not found")
    ensures r.Success? ==> forall id :: id in r.body <==> HasId(db.appointments, id) && db.appointments[id - 1].userId == userId
    ensures r.Success? ==> forall i, j :: 0 <= i < j < |r.body| ==> r.body[i] < r.body[j]
  {
    if db.GetUser(userId).None? then HttpException(404, "User not found")
    else Success(db.GetUserAppointments(userId))
  }

  /** PUT /appointments/{appointment_id}/cancel with body `{"reason": reason}`. */
  method CancelAppointment(db: Database, appointmentId: int, reason: string) returns (r: Reply<string>)
    modifies db`appointments
    ensures r.Success? <==> HasId(old(db.appointments), appointmentId) && !old(db.appointments)[appointmentId - 1].cancelled
    ensures r.Success? ==> (r.body == "Appointment cancelled successfully"
              && db.appointments == old(db.appointments)[appointmentId - 1 :=
                   old(db.appointments)[appointmentId - 1].(cancelled := true, cancellationReason := Some(reason))])
    ensures r.HttpException? ==>
              r == HttpException(404, "Appointment not found or already cancelled")
              && db.appointments == old(db.appointments)
  {
    var ok := db.CancelAppointment(appointmentId, reason);
    if !ok {
      return HttpException(404, "Appointment not found or already cancelled");
    }
    r := Success("Appointment cancelled successfully");
  }

  /** Cancelling twice: the second request fails with 404 and the first reason stays. */
  method CancelTwice(db: Database, appointmentId: int, reason1: string, reason2: string)
    returns (first: Reply<string>, second: Reply<string>)
    modifies db`appointments
    ensures second == HttpException(404, "Appointment not found or already cancelled")
    ensures first.Success? ==> (HasId(db.appointments, appointmentId)
              && db.appointments[appointmentId - 1].cancellationReason == Some(reason1))
  {
    first := CancelAppointment(db, appointmentId, reason1);
    second := CancelAppointment(db, appointmentId, reason2);
  }
}
