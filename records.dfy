/**
 * The records the inquiry workflow reads and writes, the store that stands in for the
 * database and the mail server, and the HTTP outcomes of a request.
 */
module Records {
  import opened Wrappers
  import opened FormParams

  /** `new Customer(name, email, phone, address, city, zipcode)`; name and e-mail are non-null by then. */
  datatype Customer = Customer(
    name: string, email: string, phone: Int32,
    address: Option<string>, city: Option<string>, zipcode: Int32)

  /** The inquiry the controller builds with setters; every dimension may be absent. */
  datatype Inquiry = Inquiry(
    customerId: Int32,
    carportLength: Option<real>, carportWidth: Option<real>,
    shedLength: Option<real>, shedWidth: Option<real>,
    comments: Option<string>, status: string, orderDate: int)

  /** A saved row: the record with the id the database generated for it. */
  datatype CustomerRow = CustomerRow(id: Int32, customer: Customer)
  datatype InquiryRow = InquiryRow(id: Int32, inquiry: Inquiry)

  datatype Salesman = Salesman(id: Int32, name: string)

  /** One fact of the assignment relation: this salesman is bound to this inquiry. */
  datatype Assignment = Assignment(inquiryId: Int32, salesmanId: Int32)

  /** The confirmation e-mail sent to a customer about an inquiry. */
  datatype Mail = Mail(to: Customer, about: Inquiry)

  /** The record `saveEmailsToDatabase` writes after sending. */
  datatype EmailLogEntry = EmailLogEntry(inquiry: Inquiry, customer: Customer)

  /**
   * Everything a request can observe or change: the database tables, and the mails sent
   * (`outbox`). Every collection is in insertion order.
   */
  datatype Store = Store(
    customers: seq<CustomerRow>, inquiries: seq<InquiryRow>, salesmen: seq<Salesman>,
    assignments: seq<Assignment>, outbox: seq<Mail>, emailLog: seq<EmailLogEntry>)

  /** The status string every new inquiry gets. */
  const UnderReview: string := "Under behandling"

  /** The sentinel the confirmation page shows for an absent value. */
  const NoneSentinel: string := "Ingen"

  /** A value on a page: a number, or text such as the sentinel. */
  datatype Cell = Number(n: real) | Text(s: string)

  datatype View =
    | Confirmation(
        customerName: string, carportLength: real, carportWidth: real,
        shedLength: Cell, shedWidth: Cell, comments: string, status: string)
    | UnassignedListing(inquiries: seq<InquiryRow>, salesmen: seq<Salesman>)

  /** An exception that leaves a handler uncaught (Javalin then answers on its own). */
  datatype Thrown =
    | NumberFormatException
    | IllegalArgumentException(message: string)
    | ServiceFailure

  /** How a request ends. */
  datatype Response =
    | BadRequest(status: int, message: string)
    | Uncaught(exception: Thrown)
    | ServerError(status: int, message: string)
    | Rendered(view: View)
    | Redirect(location: string)

  /**
   * What the collaborators outside the controller do on one request: the id the database
   * generates on each save, or `None` when the save throws; whether sending and logging the
   * e-mail succeed; and the clock's reading for the order date.
   */
  datatype Collaborators = Collaborators(
    customerSave: Option<Int32>, inquirySave: Option<Int32>,
    sendSucceeds: bool, logSucceeds: bool, now: int)
}
