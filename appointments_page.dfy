/** The appointment list page: a fixed list of sample appointments, a case-insensitive
    search over provider and type, and the per-card actions, which depend on the status. */
module AppointmentsPage {
  import opened Text
  import opened Seqs

  datatype Status = Upcoming | Completed | Cancelled

  /** One card of the list; `kind` is the appointment's `type`. */
  datatype Appointment = Appointment(id: string, provider: string, date: string, time: string,
                                     kind: string, status: Status)

  /** The list the page renders. */
  const SampleAppointments: seq<Appointment> := [
    Appointment("APT-001", "Dr. Sarah Johnson", "2023-06-10", "10:30 AM", "Annual Checkup", Upcoming),
    Appointment("APT-002", "Dr. Michael Chen", "2023-06-12", "2:00 PM", "Dermatology", Upcoming),
    Appointment("APT-003", "Dr. Emily Rodriguez", "2023-05-15", "9:00 AM", "Follow-up", Completed),
    Appointment("APT-004", "Dr. James Wilson", "2023-05-01", "11:00 AM", "Consultation", Cancelled)
  ]

  /** The predicate of `filteredAppointments`: provider or type contains the term, both
      lowercased. */
  predicate MatchesSearch(a: Appointment, searchTerm: string) {
    Contains(Lower(a.provider), Lower(searchTerm)) || Contains(Lower(a.kind), Lower(searchTerm))
  }

  /** `appointments.filter(...)`. */
  function FilteredAppointments(appointments: seq<Appointment>, searchTerm: string): (r: seq<Appointment>)
    ensures IsSubsequence(r, appointments)
    ensures forall i :: 0 <= i < |r| ==> MatchesSearch(r[i], searchTerm)
  {
    FilterIsSubsequence(appointments, a => MatchesSearch(a, searchTerm));
    Filter(appointments, a => MatchesSearch(a, searchTerm))
  }

  /** An appointment is listed exactly when it matches, and the listed ones are a
      subsequence of the full list. */
  lemma FilteredAppointmentsSpec(appointments: seq<Appointment>, searchTerm: string, a: Appointment)
    ensures a in FilteredAppointments(appointments, searchTerm) <==> a in appointments && MatchesSearch(a, searchTerm)
    ensures IsSubsequence(FilteredAppointments(appointments, searchTerm), appointments)
  {
    FilterMembership(appointments, a => MatchesSearch(a, searchTerm), a);
    FilterIsSubsequence(appointments, a => MatchesSearch(a, searchTerm));
  }

  /** With an empty search box every appointment is listed. */
  lemma EmptySearchKeepsAll(appointments: seq<Appointment>)
    ensures FilteredAppointments(appointments, "") == appointments
  {
    forall i | 0 <= i < |appointments| ensures MatchesSearch(appointments[i], "") {
      ContainsEmpty(Lower(appointments[i].provider));
    }
    FilterAll(appointments, a => MatchesSearch(a, ""));
  }

  /** The search ignores the case of the term. */
  lemma SearchIgnoresCase(appointments: seq<Appointment>, searchTerm: string)
    ensures FilteredAppointments(appointments, Lower(searchTerm)) == FilteredAppointments(appointments, searchTerm)
  {
    LowerIdempotent(searchTerm);
    FilterSamePredicate(appointments, a => MatchesSearch(a, Lower(searchTerm)), a => MatchesSearch(a, searchTerm));
  }

  /** Lowercasing twice is lowercasing once. */
  lemma LowerIdempotent(s: string)
    ensures Lower(Lower(s)) == Lower(s)
  {
    assert forall i :: 0 <= i < |s| ==> LowerChar(LowerChar(s[i])) == LowerChar(s[i]);
  }

  /** The buttons of a card: Reschedule and Cancel appear only for an upcoming
      appointment; View Details always does. */
  function Actions(a: Appointment): (r: seq<string>)
    ensures "Cancel" in r <==> a.status == Upcoming
    ensures "Reschedule" in r <==> a.status == Upcoming
    ensures "View Details" in r
  {
    if a.status == Upcoming then ["Reschedule", "Cancel", "View Details"] else ["View Details"]
  }

  /** The "No appointments found" message is shown exactly when nothing matches: when no
      appointment matches the term. */
  lemma NothingFoundIff(appointments: seq<Appointment>, searchTerm: string)
    ensures FilteredAppointments(appointments, searchTerm) == [] <==>
              forall i :: 0 <= i < |appointments| ==> !MatchesSearch(appointments[i], searchTerm)
  {
    var r := FilteredAppointments(appointments, searchTerm);
    if r != [] {
      FilterMembership(appointments, a => MatchesSearch(a, searchTerm), r[0]);
    }
    forall i | 0 <= i < |appointments| && MatchesSearch(appointments[i], searchTerm) ensures r != [] {
      FilterMembership(appointments, a => MatchesSearch(a, searchTerm), appointments[i]);
    }
  }
}
