/**
 * `submitInquiry` as a function of the form, the parse oracles, the collaborators and the
 * store before the request. The controller method in module Controller performs the same
 * steps one at a time on its fields and is proved to agree with `Submit`; the lemmas below
 * state what a submission does.
 */
module Intake {
  import opened Wrappers
  import opened FormParams
  import opened Records
  import opened Sales

  /** The 400 message for a missing or blank name or e-mail. */
  const RequiredMessage: string := "Navn og email skal udfyldes"

  /** The 500 message for any exception caught inside the try block. */
  const NotSavedMessage: string := "Forespørgslen blev ikke gemt i databasen"

  /** The four dimension fields in the order they are parsed, each with the label its error names. */
  const DimensionFields: seq<(string, string)> := [
    ("carportLength", "Carport længde"),
    ("carportWidth", "Carport bredde"),
    ("shedLength", "Skurlængde"),
    ("shedWidth", "Skurbredde")
  ]

  /** Parsing dimension `k` of the form, as `parseFormParamAsDouble` does it. */
  function ParseDimension(parseDouble: DoubleOracle, form: Form, k: nat): Result<Option<real>, string>
    requires k < |DimensionFields|
  {
    ParseFormParamAsDouble(parseDouble, FormParam(form, DimensionFields[k].0), DimensionFields[k].1)
  }

  /** Everything read from the form before the try block. */
  datatype Submission = Submission(
    customer: Customer, comments: Option<string>,
    carportLength: Option<real>, carportWidth: Option<real>,
    shedLength: Option<real>, shedWidth: Option<real>)

  /**
   * Reading the form: name, e-mail, phone (parsed), address, city, zip code (parsed),
   * comments; then the blank check; then the four dimensions in order. Every failure here
   * happens before the try block, so only the early return yields a response of its own
   * (400); the parse failures escape as exceptions.
   */
  function ParseSubmission(form: Form, parseInt: IntOracle, parseDouble: DoubleOracle): Result<Submission, Response>
  {
    var name := FormParam(form, "name");
    var email := FormParam(form, "email");
    match ParseIntParam(parseInt, FormParam(form, "phone"))
    case None => Err(Uncaught(NumberFormatException))
    case Some(phone) =>
      var address := FormParam(form, "address");
      var city := FormParam(form, "city");
      match ParseIntParam(parseInt, FormParam(form, "zipcode"))
      case None => Err(Uncaught(NumberFormatException))
      case Some(zipcode) =>
        var comments := FormParam(form, "comments");
        if MissingOrBlank(name) || MissingOrBlank(email) then Err(BadRequest(400, RequiredMessage))
        else
          match ParseDimension(parseDouble, form, 0)
          case Err(m) => Err(Uncaught(IllegalArgumentException(m)))
          case Ok(carportLength) =>
            match ParseDimension(parseDouble, form, 1)
            case Err(m) => Err(Uncaught(IllegalArgumentException(m)))
            case Ok(carportWidth) =>
              match ParseDimension(parseDouble, form, 2)
              case Err(m) => Err(Uncaught(IllegalArgumentException(m)))
              case Ok(shedLength) =>
                match ParseDimension(parseDouble, form, 3)
                case Err(m) => Err(Uncaught(IllegalArgumentException(m)))
                case Ok(shedWidth) =>
                  Ok(Submission(Customer(name.value, email.value, phone, address, city, zipcode),
                                comments, carportLength, carportWidth, shedLength, shedWidth))
  }

  /** A shed dimension on the confirmation page: the value, or the sentinel when absent. */
  function ShownOrNone(x: Option<real>): (c: Cell)
    ensures c == Text(NoneSentinel) <==> x.None?
    ensures x.Some? ==> c == Number(x.value)
  {
    match x
    case None => Text(NoneSentinel)
    case Some(v) => Number(v)
  }

  /**
   * The confirmation page. `Map.of` refuses null values, so an absent carport length or
   * width makes the render call throw (inside the try); the shed dimensions and the
   * comments are replaced by the sentinel first and cannot be null.
   */
  function RenderConfirmation(name: string, sub: Submission): (v: Option<View>)
    ensures v.Some? <==> sub.carportLength.Some? && sub.carportWidth.Some?
    ensures v.Some? ==>
      && v.value.Confirmation?
      && v.value.customerName == name
      && v.value.carportLength == sub.carportLength.value
      && v.value.carportWidth == sub.carportWidth.value
      && (v.value.shedLength == Text(NoneSentinel) <==> sub.shedLength.None?)
      && (v.value.shedWidth == Text(NoneSentinel) <==> sub.shedWidth.None?)
      && (sub.shedLength.Some? ==> v.value.shedLength == Number(sub.shedLength.value))
      && (sub.shedWidth.Some? ==> v.value.shedWidth == Number(sub.shedWidth.value))
      && v.value.comments == (if sub.comments.Some? then sub.comments.value else NoneSentinel)
      && v.value.status == UnderReview
  {
    if sub.carportLength.None? || sub.carportWidth.None? then None
    else
      Some(Confirmation(name, sub.carportLength.value, sub.carportWidth.value,
                        ShownOrNone(sub.shedLength), ShownOrNone(sub.shedWidth),
                        if sub.comments.Some? then sub.comments.value else NoneSentinel,
                        UnderReview))
  }

  /** The inquiry the setters build for customer `customerId`. */
  function NewInquiry(sub: Submission, customerId: Int32, now: int): Inquiry
  {
    Inquiry(customerId, sub.carportLength, sub.carportWidth, sub.shedLength, sub.shedWidth,
            sub.comments, UnderReview, now)
  }

  /**
   * The try block: save the customer, build and save the inquiry, send the e-mail, log it,
   * render. The first step that throws ends the request with a 500; what was done before
   * it stays done.
   */
  function Persist(sub: Submission, env: Collaborators, s: Store): (Response, Store)
  {
    match env.customerSave
    case None => (ServerError(500, NotSavedMessage), s)
    case Some(customerId) =>
      var s1 := s.(customers := s.customers + [CustomerRow(customerId, sub.customer)]);
      var inquiry := NewInquiry(sub, customerId, env.now);
      match env.inquirySave
      case None => (ServerError(500, NotSavedMessage), s1)
      case Some(inquiryId) =>
        var s2 := s1.(inquiries := s1.inquiries + [InquiryRow(inquiryId, inquiry)]);
        if !env.sendSucceeds then (ServerError(500, NotSavedMessage), s2)
        else
          var s3 := s2.(outbox := s2.outbox + [Mail(sub.customer, inquiry)]);
          if !env.logSucceeds then (ServerError(500, NotSavedMessage), s3)
          else
            var s4 := s3.(emailLog := s3.emailLog + [EmailLogEntry(inquiry, sub.customer)]);
            match RenderConfirmation(sub.customer.name, sub)
            case None => (ServerError(500, NotSavedMessage), s4)
            case Some(view) => (Rendered(view), s4)
  }

  /** `submitInquiry`: the response and the store after the request. */
  function Submit(form: Form, parseInt: IntOracle, parseDouble: DoubleOracle, env: Collaborators, s: Store): (Response, Store)
  {
    match ParseSubmission(form, parseInt, parseDouble)
    case Err(response) => (response, s)
    case Ok(sub) => Persist(sub, env, s)
  }

  /**
   * Phone and zip code are parsed first: if either is missing (`Integer.parseInt(null)`
   * throws) or malformed, nothing else matters and nothing changes.
   */
  lemma IntegerFieldsParsedFirst(form: Form, parseInt: IntOracle, parseDouble: DoubleOracle, env: Collaborators, s: Store)
    requires "phone" !in form || parseInt(form["phone"]).None?
          || "zipcode" !in form || parseInt(form["zipcode"]).None?
    ensures Submit(form, parseInt, parseDouble, env, s) == (Uncaught(NumberFormatException), s)
  {
  }

  /**
   * A missing or blank name or e-mail (once phone and zip code have parsed) gives the 400
   * and leaves the store as it was; the outcome does not depend on the dimension parser or
   * on any collaborator, so no dimension is parsed and nothing is saved, sent or logged.
   */
  lemma BlankNameOrEmailRejected(
    form: Form, parseInt: IntOracle, parseDouble: DoubleOracle, otherParseDouble: DoubleOracle,
    env: Collaborators, otherEnv: Collaborators, s: Store)
    requires ParseIntParam(parseInt, FormParam(form, "phone")).Some?
    requires ParseIntParam(parseInt, FormParam(form, "zipcode")).Some?
    requires MissingOrBlank(FormParam(form, "name")) || MissingOrBlank(FormParam(form, "email"))
    ensures Submit(form, parseInt, parseDouble, env, s) == (BadRequest(400, RequiredMessage), s)
    ensures Submit(form, parseInt, parseDouble, env, s) == Submit(form, parseInt, otherParseDouble, otherEnv, s)
  {
  }

  /** The checks that come before the dimensions all pass. */
  predicate PassesFieldChecks(form: Form, parseInt: IntOracle)
  {
    && ParseIntParam(parseInt, FormParam(form, "phone")).Some?
    && ParseIntParam(parseInt, FormParam(form, "zipcode")).Some?
    && !MissingOrBlank(FormParam(form, "name"))
    && !MissingOrBlank(FormParam(form, "email"))
  }

  /**
   * The first malformed dimension, in the order carport length, carport width, shed
   * length, shed width, decides the error, which carries that field's label; the store is
   * untouched, so no customer was saved.
   */
  lemma FirstMalformedDimensionDecides(
    form: Form, parseInt: IntOracle, parseDouble: DoubleOracle, env: Collaborators, s: Store, k: nat)
    requires PassesFieldChecks(form, parseInt)
    requires k < |DimensionFields|
    requires forall j :: 0 <= j < k ==> ParseDimension(parseDouble, form, j).Ok?
    requires ParseDimension(parseDouble, form, k).Err?
    ensures Submit(form, parseInt, parseDouble, env, s)
         == (Uncaught(IllegalArgumentException(NotANumber(DimensionFields[k].1))), s)
  {
    assert k == 0 || ParseDimension(parseDouble, form, 0).Ok?;
    assert k <= 1 || ParseDimension(parseDouble, form, 1).Ok?;
    assert k <= 2 || ParseDimension(parseDouble, form, 2).Ok?;
  }

  /**
   * What parsing accepts: exactly the forms whose early checks pass and whose four
   * dimensions each parse or are absent; the submission then holds exactly the form's
   * values, with no positivity check and no default for an absent dimension.
   */
  lemma ParsedSubmissionFields(form: Form, parseInt: IntOracle, parseDouble: DoubleOracle)
    ensures ParseSubmission(form, parseInt, parseDouble).Ok? <==>
      PassesFieldChecks(form, parseInt)
      && forall j :: 0 <= j < |DimensionFields| ==> ParseDimension(parseDouble, form, j).Ok?
    ensures ParseSubmission(form, parseInt, parseDouble).Ok? ==>
      var sub := ParseSubmission(form, parseInt, parseDouble).value;
      && sub.customer == Customer(
           form["name"], form["email"], parseInt(form["phone"]).value,
           FormParam(form, "address"), FormParam(form, "city"), parseInt(form["zipcode"]).value)
      && sub.comments == FormParam(form, "comments")
      && sub.carportLength == ParseDimension(parseDouble, form, 0).value
      && sub.carportWidth == ParseDimension(parseDouble, form, 1).value
      && sub.shedLength == ParseDimension(parseDouble, form, 2).value
      && sub.shedWidth == ParseDimension(parseDouble, form, 3).value
  {
    if PassesFieldChecks(form, parseInt)
       && forall j :: 0 <= j < |DimensionFields| ==> ParseDimension(parseDouble, form, j).Ok? {
      assert ParseDimension(parseDouble, form, 0).Ok?;
      assert ParseDimension(parseDouble, form, 1).Ok?;
      assert ParseDimension(parseDouble, form, 2).Ok?;
      assert ParseDimension(parseDouble, form, 3).Ok?;
    }
    if ParseSubmission(form, parseInt, parseDouble).Ok? {
      forall j | 0 <= j < |DimensionFields| ensures ParseDimension(parseDouble, form, j).Ok? {
        assert j == 0 || j == 1 || j == 2 || j == 3;
      }
    }
  }

  /** Every dimension, the carport's included, may be absent; the submission still goes through parsing. */
  lemma AllDimensionsMayBeAbsent(form: Form, parseInt: IntOracle, parseDouble: DoubleOracle)
    requires PassesFieldChecks(form, parseInt)
    requires forall j :: 0 <= j < |DimensionFields| ==>
      DimensionFields[j].0 !in form || form[DimensionFields[j].0] == ""
    ensures ParseSubmission(form, parseInt, parseDouble).Ok?
    ensures var sub := ParseSubmission(form, parseInt, parseDouble).value;
      sub.carportLength.None? && sub.carportWidth.None? && sub.shedLength.None? && sub.shedWidth.None?
  {
    forall j | 0 <= j < |DimensionFields| ensures ParseDimension(parseDouble, form, j) == Ok(None) {
      assert DimensionFields[j].0 !in form || form[DimensionFields[j].0] == "";
    }
    ParsedSubmissionFields(form, parseInt, parseDouble);
  }

  /** Whether the try block runs to its end and renders the page. */
  predicate AllStepsSucceed(sub: Submission, env: Collaborators)
  {
    env.customerSave.Some? && env.inquirySave.Some? && env.sendSucceeds && env.logSucceeds
    && sub.carportLength.Some? && sub.carportWidth.Some?
  }

  /**
   * The effects of an accepted form, in order: the customer is saved; only if that worked
   * is the inquiry (with the customer's new id) saved; only then the e-mail sent; only then
   * logged. The store afterwards holds exactly the steps completed before the first failure,
   * and any failure in the try block gives the 500 and no page. This includes an absent
   * carport dimension: everything is saved, sent and logged, and the request still answers
   * that nothing was saved.
   */
  lemma EffectsInOrder(sub: Submission, env: Collaborators, s: Store)
    ensures var (r, t) := Persist(sub, env, s);
      var customerDone := env.customerSave.Some?;
      var inquiryDone := customerDone && env.inquirySave.Some?;
      var sent := inquiryDone && env.sendSucceeds;
      var logged := sent && env.logSucceeds;
      && (r.Rendered? <==> AllStepsSucceed(sub, env))
      && (!r.Rendered? ==> r == ServerError(500, NotSavedMessage))
      && t.customers == s.customers + (if customerDone then [CustomerRow(env.customerSave.value, sub.customer)] else [])
      && t.inquiries == s.inquiries + (if inquiryDone then [InquiryRow(env.inquirySave.value, NewInquiry(sub, env.customerSave.value, env.now))] else [])
      && t.outbox == s.outbox + (if sent then [Mail(sub.customer, NewInquiry(sub, env.customerSave.value, env.now))] else [])
      && t.emailLog == s.emailLog + (if logged then [EmailLogEntry(NewInquiry(sub, env.customerSave.value, env.now), sub.customer)] else [])
      && t.salesmen == s.salesmen && t.assignments == s.assignments
  {
  }

  /**
   * A successful submission: the page shows the submitted values, the sentinel for absent
   * shed dimensions and comments, and the initial status; the saved inquiry belongs to the
   * customer saved just before it and holds exactly the parsed values, the initial status
   * and the clock's time.
   */
  lemma SuccessfulSubmission(form: Form, parseInt: IntOracle, parseDouble: DoubleOracle, env: Collaborators, s: Store)
    requires ParseSubmission(form, parseInt, parseDouble).Ok?
    requires AllStepsSucceed(ParseSubmission(form, parseInt, parseDouble).value, env)
    ensures var sub := ParseSubmission(form, parseInt, parseDouble).value;
      var (r, t) := Submit(form, parseInt, parseDouble, env, s);
      var row := t.inquiries[|s.inquiries|];
      && |t.customers| == |s.customers| + 1 && |t.inquiries| == |s.inquiries| + 1
      && row.id == env.inquirySave.value
      && row.inquiry.customerId == t.customers[|s.customers|].id == env.customerSave.value
      && t.customers[|s.customers|].customer == sub.customer
      && row.inquiry.carportLength == sub.carportLength && row.inquiry.carportWidth == sub.carportWidth
      && row.inquiry.shedLength == sub.shedLength && row.inquiry.shedWidth == sub.shedWidth
      && row.inquiry.comments == FormParam(form, "comments")
      && row.inquiry.status == UnderReview && row.inquiry.orderDate == env.now
      && t.outbox == s.outbox + [Mail(sub.customer, row.inquiry)]
      && t.emailLog == s.emailLog + [EmailLogEntry(row.inquiry, sub.customer)]
      && r.Rendered? && r.view.Confirmation?
      && r.view.customerName == form["name"]
      && r.view.status == UnderReview
      && (r.view.shedLength == Text(NoneSentinel) <==> sub.shedLength.None?)
      && (r.view.shedWidth == Text(NoneSentinel) <==> sub.shedWidth.None?)
      && r.view.comments == (if "comments" in form then form["comments"] else NoneSentinel)
  {
    var sub := ParseSubmission(form, parseInt, parseDouble).value;
    ParsedSubmissionFields(form, parseInt, parseDouble);
    EffectsInOrder(sub, env, s);
  }

  /**
   * Over every request, whatever fails: nothing is removed or rewritten, at most one row is
   * added anywhere, a log entry implies a sent mail, a sent mail a saved inquiry, a saved
   * inquiry a saved customer whose id it carries, and salesmen and assignments never change.
   */
  lemma SubmitOnlyAppendsInOrder(form: Form, parseInt: IntOracle, parseDouble: DoubleOracle, env: Collaborators, s: Store)
    ensures var t := Submit(form, parseInt, parseDouble, env, s).1;
      && s.customers <= t.customers && |t.customers| <= |s.customers| + 1
      && s.inquiries <= t.inquiries && |t.inquiries| <= |s.inquiries| + 1
      && s.outbox <= t.outbox && |t.outbox| <= |s.outbox| + 1
      && s.emailLog <= t.emailLog && |t.emailLog| <= |s.emailLog| + 1
      && (|t.emailLog| > |s.emailLog| ==> |t.outbox| > |s.outbox|)
      && (|t.outbox| > |s.outbox| ==> |t.inquiries| > |s.inquiries|)
      && (|t.inquiries| > |s.inquiries| ==>
            |t.customers| > |s.customers| && t.inquiries[|s.inquiries|].inquiry.customerId == t.customers[|s.customers|].id)
      && t.salesmen == s.salesmen && t.assignments == s.assignments
  {
    match ParseSubmission(form, parseInt, parseDouble)
    case Err(_) =>
    case Ok(sub) => EffectsInOrder(sub, env, s);
  }

  /** A saved inquiry shows up at the end of the unassigned listing unless its new id already has a salesman. */
  lemma SubmittedInquiryIsListedUnassigned(form: Form, parseInt: IntOracle, parseDouble: DoubleOracle, env: Collaborators, s: Store)
    ensures var t := Submit(form, parseInt, parseDouble, env, s).1;
      Unassigned(t.inquiries, t.assignments) ==
        Unassigned(s.inquiries, s.assignments)
        + (if |t.inquiries| > |s.inquiries| && !HasSalesmanAssigned(s.assignments, t.inquiries[|s.inquiries|].id)
           then [t.inquiries[|s.inquiries|]] else [])
  {
    var t := Submit(form, parseInt, parseDouble, env, s).1;
    SubmitOnlyAppendsInOrder(form, parseInt, parseDouble, env, s);
    if |t.inquiries| > |s.inquiries| {
      var row := t.inquiries[|s.inquiries|];
      assert t.inquiries == s.inquiries + [row];
      UnassignedAppend(s.inquiries, [row], s.assignments);
      assert Unassigned([row], s.assignments)
          == (if HasSalesmanAssigned(s.assignments, row.id) then [] else [row]) + Unassigned([], s.assignments);
    } else {
      assert t.inquiries == s.inquiries;
    }
  }

  /**
   * A complete submission: name "Jane Doe", phone and zip code that parse, a 600 by 300
   * carport, empty shed fields and a comment. It is accepted, the shed fields show the
   * sentinel, the inquiry is under review, and exactly one e-mail is logged.
   */
  lemma JaneDoeSubmission(parseInt: IntOracle, parseDouble: DoubleOracle, s: Store)
    requires parseInt("12345678") == Some(12345678) && parseInt("8000") == Some(8000)
    requires parseDouble("600") == Some(600.0) && parseDouble("300") == Some(300.0)
    ensures var form := map[
        "name" := "Jane Doe", "email" := "jane@example.com", "phone" := "12345678",
        "address" := "Main St 1", "city" := "Aarhus", "zipcode" := "8000",
        "carportLength" := "600", "carportWidth" := "300", "shedLength" := "", "shedWidth" := "",
        "comments" := "please call"];
      var env := Collaborators(Some(1), Some(7), true, true, 0);
      var (r, t) := Submit(form, parseInt, parseDouble, env, s);
      && r == Rendered(Confirmation("Jane Doe", 600.0, 300.0, Text(NoneSentinel), Text(NoneSentinel), "please call", UnderReview))
      && |t.emailLog| == |s.emailLog| + 1
      && t.inquiries == s.inquiries + [InquiryRow(7, Inquiry(1, Some(600.0), Some(300.0), None, None, Some("please call"), UnderReview, 0))]
  {
    var form := map[
        "name" := "Jane Doe", "email" := "jane@example.com", "phone" := "12345678",
        "address" := "Main St 1", "city" := "Aarhus", "zipcode" := "8000",
        "carportLength" := "600", "carportWidth" := "300", "shedLength" := "", "shedWidth" := "",
        "comments" := "please call"];
    assert !IsJavaWhitespace('J') && !IsJavaWhitespace('j');
    assert !IsBlank(form["name"]) by { assert form["name"][0] == 'J'; }
    assert !IsBlank(form["email"]) by { assert form["email"][0] == 'j'; }
    assert ParseIntParam(parseInt, FormParam(form, "phone")) == Some(12345678);
    assert ParseIntParam(parseInt, FormParam(form, "zipcode")) == Some(8000);
    assert PassesFieldChecks(form, parseInt);
    assert ParseDimension(parseDouble, form, 0) == Ok(Some(600.0));
    assert ParseDimension(parseDouble, form, 1) == Ok(Some(300.0));
    assert ParseDimension(parseDouble, form, 2) == Ok(None);
    assert ParseDimension(parseDouble, form, 3) == Ok(None);
    var sub := Submission(Customer("Jane Doe", "jane@example.com", 12345678, Some("Main St 1"), Some("Aarhus"), 8000),
                          Some("please call"), Some(600.0), Some(300.0), None, None);
    assert ParseSubmission(form, parseInt, parseDouble) == Ok(sub);
    EffectsInOrder(sub, Collaborators(Some(1), Some(7), true, true, 0), s);
  }
}
