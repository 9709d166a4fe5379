/**
 * The inquiry controller as an object over the store it talks to. Its fields are the
 * store's tables. The submit and assign handlers change them step by step, as the Java
 * handlers do through the database; the listing handler only reads them. Each handler is
 * proved to agree with a specification function of module Intake or module Sales.
 */
module Controller {
  import opened Wrappers
  import opened FormParams
  import opened Records
  import opened Sales
  import opened Intake

  class InquiryController {
    var customers: seq<CustomerRow>
    var inquiries: seq<InquiryRow>
    var salesmen: seq<Salesman>
    var assignments: seq<Assignment>
    var outbox: seq<Mail>
    var emailLog: seq<EmailLogEntry>

    /** The store as a value. */
    function State(): Store
      reads this
    {
      Store(customers, inquiries, salesmen, assignments, outbox, emailLog)
    }

    /** A controller over an existing store. */
    constructor (initial: Store)
      ensures State() == initial
    {
      customers := initial.customers;
      inquiries := initial.inquiries;
      salesmen := initial.salesmen;
      assignments := initial.assignments;
      outbox := initial.outbox;
      emailLog := initial.emailLog;
    }

    /**
     * `submitInquiry`: read the form, return early on a missing name or e-mail, parse the
     * dimensions, then save the customer, save the inquiry, send and log the e-mail and
     * render, stopping with a 500 at the first collaborator that throws.
     */
    method SubmitInquiry(form: Form, parseInt: IntOracle, parseDouble: DoubleOracle, env: Collaborators)
      returns (r: Response)
      modifies this
      ensures (r, State()) == Submit(form, parseInt, parseDouble, env, old(State()))
    {
      var name := FormParam(form, "name");
      var email := FormParam(form, "email");
      var phone := ParseIntParam(parseInt, FormParam(form, "phone"));
      if phone.None? { return Uncaught(NumberFormatException); }
      var address := FormParam(form, "address");
      var city := FormParam(form, "city");
      var zipcode := ParseIntParam(parseInt, FormParam(form, "zipcode"));
      if zipcode.None? { return Uncaught(NumberFormatException); }
      var comments := FormParam(form, "comments");

      if MissingOrBlank(name) || MissingOrBlank(email) {
        return BadRequest(400, RequiredMessage);
      }

      var carportLength := ParseDimension(parseDouble, form, 0);
      if carportLength.Err? { return Uncaught(IllegalArgumentException(carportLength.error)); }
      var carportWidth := ParseDimension(parseDouble, form, 1);
      if carportWidth.Err? { return Uncaught(IllegalArgumentException(carportWidth.error)); }
      var shedLength := ParseDimension(parseDouble, form, 2);
      if shedLength.Err? { return Uncaught(IllegalArgumentException(shedLength.error)); }
      var shedWidth := ParseDimension(parseDouble, form, 3);
      if shedWidth.Err? { return Uncaught(IllegalArgumentException(shedWidth.error)); }

      var customer := Customer(name.value, email.value, phone.value, address, city, zipcode.value);
      var sub := Submission(customer, comments, carportLength.value, carportWidth.value,
                            shedLength.value, shedWidth.value);

      // the try block
      if env.customerSave.None? { return ServerError(500, NotSavedMessage); }
      var customerId := env.customerSave.value;
      customers := customers + [CustomerRow(customerId, customer)];

      var inquiry := NewInquiry(sub, customerId, env.now);
      if env.inquirySave.None? { return ServerError(500, NotSavedMessage); }
      inquiries := inquiries + [InquiryRow(env.inquirySave.value, inquiry)];

      if !env.sendSucceeds { return ServerError(500, NotSavedMessage); }
      outbox := outbox + [Mail(customer, inquiry)];

      if !env.logSucceeds { return ServerError(500, NotSavedMessage); }
      emailLog := emailLog + [EmailLogEntry(inquiry, customer)];

      var page := RenderConfirmation(name.value, sub);
      if page.None? { return ServerError(500, NotSavedMessage); }
      r := Rendered(page.value);
    }

    /**
     * `showUnassignedInquiries`: fetch every inquiry, keep those with no salesman, and
     * render them with the list of salesmen. Nothing is changed.
     */
    method ShowUnassignedInquiries() returns (r: Response)
      ensures r.Rendered? && r.view.UnassignedListing?
      ensures r.view.inquiries == Unassigned(inquiries, assignments)
      ensures r.view.salesmen == salesmen
      ensures forall x :: x in r.view.inquiries <==> x in inquiries && !HasSalesmanAssigned(assignments, x.id)
      ensures IsSubsequence(r.view.inquiries, inquiries)
      ensures forall x :: multiset(r.view.inquiries)[x] ==
                          if HasSalesmanAssigned(assignments, x.id) then 0 else multiset(inquiries)[x]
    {
      var fetched := inquiries;
      var listed := Unassigned(fetched, assignments);
      forall x ensures x in listed <==> x in inquiries && !HasSalesmanAssigned(assignments, x.id) {
        UnassignedMembers(fetched, assignments, x);
      }
      forall x ensures multiset(listed)[x] ==
        if HasSalesmanAssigned(assignments, x.id) then 0 else multiset(inquiries)[x] {
        UnassignedCounts(fetched, assignments, x);
      }
      UnassignedIsSubsequence(fetched, assignments);
      r := Rendered(UnassignedListing(listed, salesmen));
    }

    /**
     * `assignSalesmanToInquiry`: parse both ids, delegate to the inquiry service, redirect
     * to the listing.
     */
    method AssignSalesmanToInquiry(form: Form, parseInt: IntOracle, serviceSucceeds: bool)
      returns (r: Response)
      modifies this
      ensures (r, State()) == AssignRequest(form, parseInt, serviceSucceeds, old(State()))
    {
      var inquiryId := ParseIntParam(parseInt, FormParam(form, "inquiryId"));
      if inquiryId.None? { return Uncaught(NumberFormatException); }
      var salesmanId := ParseIntParam(parseInt, FormParam(form, "salesmanId"));
      if salesmanId.None? { return Uncaught(NumberFormatException); }
      if !serviceSucceeds { return Uncaught(ServiceFailure); }
      assignments := assignments + [Assignment(inquiryId.value, salesmanId.value)];
      r := Redirect("/unassigned-inquiries");
    }
  }
}
