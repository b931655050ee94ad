/** The customers screen: the search filter, the membership icon, the status badge of
    a customer's prescriptions, and the form after a customer is created. */
module Customers {
  import opened Seqs
  import opened Text
  import Prescriptions

  datatype Customer = Customer(id: int, fullName: string, email: string, phone: string,
                               address: string, membershipLevel: string)

  /** Name or e-mail contains the term ignoring case, or the phone contains it as typed. */
  predicate MatchesCustomer(c: Customer, term: string) {
    MatchesIgnoringCase(c.fullName, term) || MatchesIgnoringCase(c.email, term) || Includes(c.phone, term)
  }

  function CustomerShown(term: string): Customer -> bool {
    (c: Customer) => MatchesCustomer(c, term)
  }

  /** `filteredCustomers`. */
  function FilteredCustomers(customers: seq<Customer>, term: string): (r: seq<Customer>)
    ensures forall c :: c in r <==> c in customers && MatchesCustomer(c, term)
  {
    Filter(customers, CustomerShown(term))
  }

  lemma FilteredCustomersKeepOrder(customers: seq<Customer>, term: string)
    ensures IsSubsequence(FilteredCustomers(customers, term), customers)
  {
    FilterIsSubsequence(customers, CustomerShown(term));
  }

  /** An empty search shows every customer. */
  lemma EmptySearchShowsAllCustomers(customers: seq<Customer>)
    ensures FilteredCustomers(customers, "") == customers
  {
    forall c | c in customers ensures CustomerShown("")(c) {
      IncludesEmpty(c.phone);
    }
    FilterKeepsAll(customers, CustomerShown(""));
  }

  /** The phone is searched without lowercasing: an upper-case letter in the term never
      matches a phone, which in lower case it could. */
  lemma PhoneSearchIsCaseSensitive(phone: string, term: string)
    requires exists i :: 0 <= i < |term| && 'A' <= term[i] <= 'Z'
    requires forall i :: 0 <= i < |phone| ==> !('A' <= phone[i] <= 'Z')
    ensures !Includes(phone, term)
  {
    var i :| 0 <= i < |term| && 'A' <= term[i] <= 'Z';
    forall k ensures !OccursAt(phone, term, k) {
      if 0 <= k && k + |term| <= |phone| {
        assert phone[k..k + |term|][i] == phone[k + i];
      }
    }
    IncludesIffOccurs(phone, term);
  }

  /** `getMembershipIcon`: the colour of the crown. */
  function MembershipIconClass(level: string): (r: string)
    ensures level == "gold" ==> r == "text-yellow-500"
    ensures level == "silver" ==> r == "text-gray-400"
    ensures r == "text-amber-600" <==> level != "gold" && level != "silver"
  {
    match level
    case "gold" => "text-yellow-500"
    case "silver" => "text-gray-400"
    case _ => "text-amber-600"
  }

  /** The badge of a prescription in the customer's detail: 'active' and 'expired' get
      their own text, every other status reads 'Completada'. */
  function BadgeText(status: string): (r: string)
    ensures r == "Completada" <==> status != "active" && status != "expired"
    ensures status == "active" ==> r == "Activa"
    ensures status == "expired" ==> r == "Expirada"
  {
    if status == "active" then "Activa" else if status == "expired" then "Expirada" else "Completada"
  }

  function BadgeColor(status: string): (r: string)
    ensures r == "bg-gray-100 text-gray-800" <==> BadgeText(status) == "Completada"
  {
    if status == "active" then "bg-green-100 text-green-800"
    else if status == "expired" then "bg-red-100 text-red-800"
    else "bg-gray-100 text-gray-800"
  }

  /** The customer detail and the prescriptions screen read the three declared statuses
      alike, but an unknown status shows raw on one and 'Completada' on the other, and
      'fulfilled' is blue on one and grey on the other. */
  lemma BadgeVersusPrescriptionScreen(status: string)
    ensures status in Prescriptions.KnownStatuses ==> BadgeText(status) == Prescriptions.GetStatusText(status)
    ensures status !in Prescriptions.KnownStatuses && status != "Completada" ==>
      BadgeText(status) != Prescriptions.GetStatusText(status)
    ensures BadgeColor("fulfilled") != Prescriptions.GetStatusColor("fulfilled")
  {
  }

  datatype CustomerForm = CustomerForm(fullName: string, email: string, phone: string,
                                       address: string, membershipLevel: string)

  /** The form after a successful create: empty fields and the bronze level. */
  const EmptyCustomerForm: CustomerForm := CustomerForm("", "", "", "", "bronze")

  /** A reset form asks for the default amber crown. */
  lemma ResetFormIsBronze()
    ensures MembershipIconClass(EmptyCustomerForm.membershipLevel) == "text-amber-600"
  {
  }
}
