/** The prescriptions screen: the expiring-soon marker, the search filter, the status
    badge, and the row a new prescription is inserted with. */
module Prescriptions {
  import opened Optional
  import opened Seqs
  import opened Text
  import opened Calendar
  import Reports

  /** `isExpiringSoon`: the days left, rounded up, are between 1 and 7. The marker shows
      exactly when the expiry is still ahead and no more than seven whole days away:
      seven days ahead is marked, now and the past are not. */
  function IsExpiringSoon(expiry: int, now: int): (soon: bool)
    ensures soon <==> 0 < expiry - now <= 7 * MsPerDay
  {
    CeilDaysAtMost(expiry - now, 7);
    CeilDaysPositive(expiry - now);
    var diffDays := CeilDays(expiry - now);
    diffDays <= 7 && diffDays > 0
  }

  /** A product whose expiry date the prescriptions screen would mark as expiring soon is
      listed by the reports' stock alerts, with a positive day count. */
  lemma ExpiringSoonInsideAlertWindow(p: Reports.StockRow, now: int)
    requires p.expiryDate.Some? && IsExpiringSoon(p.expiryDate.value, now)
    ensures Reports.NeedsAlert(Reports.ToAlert(p, now))
    ensures 0 < Reports.ToAlert(p, now).daysUntilExpiry.value <= 7
  {
    CeilDaysAtMost(p.expiryDate.value - now, 7);
    CeilDaysPositive(p.expiryDate.value - now);
  }

  /** A prescription row with its customer's name, when the join found one. */
  datatype Prescription = Prescription(id: string, prescriptionNumber: string, doctorName: string,
                                       customerName: Option<string>, status: string, expiryDate: int)

  predicate MatchesPrescription(p: Prescription, term: string) {
    MatchesIgnoringCase(p.prescriptionNumber, term) || MatchesIgnoringCase(p.doctorName, term)
    || MatchesIgnoringCase(p.customerName.GetOr(""), term)
  }

  function PrescriptionShown(term: string): Prescription -> bool {
    (p: Prescription) => MatchesPrescription(p, term)
  }

  /** `filteredPrescriptions`: number, doctor or customer name contains the term, ignoring case. */
  function FilteredPrescriptions(rows: seq<Prescription>, term: string): (r: seq<Prescription>)
    ensures forall p :: p in r <==> p in rows && MatchesPrescription(p, term)
  {
    Filter(rows, PrescriptionShown(term))
  }

  lemma FilteredPrescriptionsKeepOrder(rows: seq<Prescription>, term: string)
    ensures IsSubsequence(FilteredPrescriptions(rows, term), rows)
  {
    FilterIsSubsequence(rows, PrescriptionShown(term));
  }

  /** A prescription without a customer matches only through its number or doctor,
      unless the term is empty. */
  lemma MissingCustomerMatchesOnlyEmpty(p: Prescription, term: string)
    requires p.customerName.None? && term != ""
    ensures MatchesPrescription(p, term) <==>
      MatchesIgnoringCase(p.prescriptionNumber, term) || MatchesIgnoringCase(p.doctorName, term)
  {
    assert Lower(term) != "";
  }

  const KnownStatuses: set<string> := {"active", "expired", "fulfilled"}

  /** `getStatusText`. */
  function GetStatusText(status: string): (r: string)
    ensures r == status <==> status !in KnownStatuses
    ensures status == "active" ==> r == "Activa"
    ensures status == "expired" ==> r == "Expirada"
    ensures status == "fulfilled" ==> r == "Completada"
  {
    match status
    case "active" => "Activa"
    case "expired" => "Expirada"
    case "fulfilled" => "Completada"
    case _ => status
  }

  /** `getStatusColor`. */
  function GetStatusColor(status: string): (r: string)
    ensures r == "bg-gray-100 text-gray-800" <==> status !in KnownStatuses
  {
    match status
    case "active" => "bg-green-100 text-green-800"
    case "expired" => "bg-red-100 text-red-800"
    case "fulfilled" => "bg-blue-100 text-blue-800"
    case _ => "bg-gray-100 text-gray-800"
  }

  /** The badge's text and colour tell the same status: the grey colour goes with the raw status. */
  lemma BadgeTextAgreesWithColor(status: string)
    ensures GetStatusColor(status) == "bg-gray-100 text-gray-800" <==> GetStatusText(status) == status
  {
  }

  /** The new-prescription form. */
  datatype PrescriptionForm = PrescriptionForm(customerId: string, doctorName: string, prescriptionNumber: string,
                                               issueDate: string, expiryDate: string, notes: string)

  /** `resetForm`: every field empty. */
  const EmptyPrescriptionForm: PrescriptionForm := PrescriptionForm("", "", "", "", "", "")

  /** The inserted row: the form's fields and status 'active'. */
  datatype NewPrescription = NewPrescription(form: PrescriptionForm, status: string)

  /** `{ ...formData, status: 'active' }`. */
  function NewPrescriptionRow(form: PrescriptionForm): (r: NewPrescription)
    ensures r.status == "active" && r.form == form
  {
    NewPrescription(form, "active")
  }

  /** A new prescription always shows as 'Activa' with a green badge. */
  lemma NewPrescriptionShowsActive(form: PrescriptionForm)
    ensures GetStatusText(NewPrescriptionRow(form).status) == "Activa"
    ensures GetStatusColor(NewPrescriptionRow(form).status) == "bg-green-100 text-green-800"
  {
  }
}
