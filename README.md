# Carport inquiry intake — a Dafny model

This project models the inquiry handling of the carport shop's `InquiryController`:

- a customer submits the quote form, and the controller checks it, saves a customer and an inquiry, sends and logs a confirmation e-mail, and shows a confirmation page;
- a salesperson lists the inquiries no salesman is bound to, and assigns one.

The database and the mail server are represented by one store. In the Dafny this is the datatype `Records.Store`: customers, inquiries, salesmen, the assignment relation, the mails sent, and the e-mail log. The class `Controller.InquiryController` holds those tables as fields. The submit and assign handlers change the fields step by step; the listing handler only reads them. Each handler is proved equal to a specification function:

- `Intake.Submit` for the submission;
- `Sales.Unassigned` for the listing;
- `Sales.AssignRequest` for the assign request.

The lemmas in `Intake` and `Sales` state what those functions promise.

Things the model takes as parameters:

- `Integer.parseInt` and `Double.parseDouble` are oracles: total functions from the text of a field to a value, or to failure.
- A parsed double is carried as a `real`. The controller never computes with it.
- What the collaborators do on a request is a `Records.Collaborators` value: the id the database generates on each save (or that the save throws), whether sending and logging the e-mail succeed, and the clock's reading.
- An exception that escapes a handler is the response `Uncaught`.

Files: `wrappers.dfy` (Option, Result), `form_params.dfy` (form fields, blank test, parsing), `records.dfy` (records, store, responses), `sales.dfy` (listing filter, assign request), `intake.dfy` (submission), `controller.dfy` (the controller class).

The model follows the code as written; in particular:

- Phone and zip code are parsed with `Integer.parseInt` before the blank name/e-mail check, and outside the try block (`InquiryController.java:98,101`). A malformed or missing phone or zip code therefore escapes as a `NumberFormatException`, whatever the name and e-mail are.
- A malformed dimension throws an `IllegalArgumentException` outside the try block. It is not a 400 response.
- The carport dimensions are not required, and no value has to be positive: every dimension may be absent.
- A customer saved before a later failure stays saved. Nothing is rolled back.
- The e-mail is logged only after sending succeeded. If sending throws, nothing is logged.
- The controller makes no already-assigned check before delegating an assignment.
- The confirmation page is built with `Map.of`, which rejects null values. When the carport length or width is absent, the render throws inside the try block. By then the customer and inquiry are saved and the e-mail is sent and logged, yet the request answers 500 "Forespørgslen blev ikke gemt i databasen". `Intake.EffectsInOrder` states this case.

## Model

| member | source | states |
|---|---|---|
| `FormParams.NotANumber` | src/main/java/app/controllers/InquiryController.java:179 | the error message begins with the caller's field label and is longer than it |
| `FormParams.ParseFormParamAsDouble` | src/main/java/app/controllers/InquiryController.java:175-181 | absent exactly when the field is missing or the empty string; otherwise the parser's own value, or the label's "skal være et tal." error when the parser rejects it; never a substituted number |
| `FormParams.BlankFieldGoesToParser` | src/main/java/app/controllers/InquiryController.java:177 | every non-empty field of white space only is not treated as absent (the code checks emptiness, not blankness); it gives the parser's value, or the label's error when the parser rejects it |
| `Intake.IntegerFieldsParsedFirst` | src/main/java/app/controllers/InquiryController.java:96-108 | if phone or zip code is missing (`Integer.parseInt(null)` throws) or fails to parse, the outcome is an uncaught NumberFormatException and the store is unchanged, whatever name and e-mail are, so neither the 400 nor the 500 can happen |
| `Intake.BlankNameOrEmailRejected` | src/main/java/app/controllers/InquiryController.java:104-108 | once phone and zip code parse, a missing or blank name or e-mail gives 400 "Navn og email skal udfyldes" with the store unchanged; the outcome does not depend on the dimension parser or on any collaborator |
| `Intake.FirstMalformedDimensionDecides` | src/main/java/app/controllers/InquiryController.java:110-114 | the first malformed dimension in the order carport length, carport width, shed length, shed width decides the error, which carries that field's label; no customer is saved |
| `Intake.ParsedSubmissionFields` | src/main/java/app/controllers/InquiryController.java:96-117 | parsing accepts exactly the forms whose early checks pass and whose four dimensions each parse or are absent; the customer and dimensions are then exactly the form's values |
| `Intake.AllDimensionsMayBeAbsent` | src/main/java/app/controllers/InquiryController.java:110-114 | a form with all four dimensions missing or empty passes parsing, with every dimension absent |
| `Intake.ShownOrNone` | src/main/java/app/controllers/InquiryController.java:147-148 | an absent shed dimension is shown as "Ingen", a present one as its value |
| `Intake.RenderConfirmation` | src/main/java/app/controllers/InquiryController.java:143-151 | the page exists exactly when both carport dimensions are present; it shows the name, the carport dimensions, the shed dimensions or "Ingen", the comments or "Ingen", and status "Under behandling" |
| `Intake.EffectsInOrder` | src/main/java/app/controllers/InquiryController.java:119-155 | customer saved, then inquiry (only if the customer save worked), then e-mail sent, then logged; the store holds exactly the steps before the first failure; the page is rendered exactly when all steps succeed and both carport dimensions are present, and otherwise the response is the 500 message |
| `Intake.SuccessfulSubmission` | src/main/java/app/controllers/InquiryController.java:117-151 | on success the saved inquiry carries the new customer's id, the parsed dimensions, the comments, status "Under behandling" and the clock's time; one mail and one log entry are added; the page shows the name, the status and the sentinels |
| `Intake.SubmitOnlyAppendsInOrder` | src/main/java/app/controllers/InquiryController.java:94-156 | for every request, nothing is removed and at most one record is added per table; a log entry implies a sent mail, which implies a saved inquiry, which implies a saved customer whose id it carries; salesmen and assignments are unchanged |
| `Intake.SubmittedInquiryIsListedUnassigned` | src/main/java/app/controllers/InquiryController.java:80-134 | after a submission the unassigned list is the old list with the new inquiry appended, unless its id already has a salesman |
| `Intake.JaneDoeSubmission` | src/main/java/app/controllers/InquiryController.java:94-151 | a complete form with empty shed fields renders "Ingen" for both, status "Under behandling", and adds exactly one log entry and the expected inquiry |
| `Sales.UnassignedIsSubsequence` | src/main/java/app/controllers/InquiryController.java:83-85 | the unassigned list is a subsequence of the fetched inquiries, so their order is kept |
| `Sales.UnassignedCounts` | src/main/java/app/controllers/InquiryController.java:83-85 | each row occurs in the list as often as it was fetched if no salesman is assigned to it, and otherwise never |
| `Sales.UnassignedMembers` | src/main/java/app/controllers/InquiryController.java:84 | a row is listed if and only if it was fetched and has no salesman |
| `Sales.UnassignedAppend` | src/main/java/app/controllers/InquiryController.java:83-85 | filtering the concatenation of two lists is filtering each list and concatenating the results |
| `Sales.UnassignedIdempotent` | src/main/java/app/controllers/InquiryController.java:80-85 | filtering the list again changes nothing |
| `Sales.AssigningNarrowsListing` | src/main/java/app/controllers/InquiryController.java:84 | a new assignment fact removes exactly that inquiry's rows from the list; no listed row has that inquiry's id |
| `Sales.AssignRequestOutcome` | src/main/java/app/controllers/InquiryController.java:64-75 | the request redirects to the list exactly when both ids parse and the service succeeds, adding one fact with the parsed ids; otherwise the failure escapes uncaught, a parse failure as a NumberFormatException, and the store is unchanged |
| `Sales.AssignedInquiryLeavesListing` | src/main/java/app/controllers/InquiryController.java:68-74 | after a successful assign request the inquiry is absent from the unassigned list, and inquiries, customers and the e-mail log are unchanged |
| `Controller.InquiryController.constructor` | src/main/java/app/controllers/InquiryController.java:25-30 | the controller works on the given store |
| `Controller.InquiryController.SubmitInquiry` | src/main/java/app/controllers/InquiryController.java:94-156 | the response and the new store are those of `Intake.Submit` on the old store |
| `Controller.InquiryController.ShowUnassignedInquiries` | src/main/java/app/controllers/InquiryController.java:79-91 | renders the salesmen and exactly `Sales.Unassigned` of the stored inquiries: a subsequence of them holding each unassigned row as often as it is stored and no assigned row; changes nothing |
| `Controller.InquiryController.AssignSalesmanToInquiry` | src/main/java/app/controllers/InquiryController.java:64-75 | the response and the new store are those of `Sales.AssignRequest` on the old store |

## Left out

- Routing, template rendering and redirects (`registerRoutes`, `ctx.render`, `ctx.redirect`): these are framework I/O. A rendered page is a `View` value, a redirect is its target path, and an uncaught exception is reported as such. Javalin's own answer to an uncaught exception is not modelled.
- `showAllInquiries` and the `DropdownOptions.generateOptions` calls: these only render pages. `DropdownOptions` is not part of this model.
- `showSalesmenDropdown()` at the start of `assignSalesmanToInquiry` is a database read (`salesmanService.getAllSalesmen`). Its result is thrown away, and the read is taken not to fail; a failure there would escape before either id is parsed.
- `InquiryService`, `SalesmanService`, `EmailService`, `DatabaseController` and the `saveToDatabase` methods are not part of this model. Each stands for an abstract store operation: a save appends a row with a generated id, `hasSalesmanAssigned` looks up the assignment relation, and assigning appends a fact to it. Whether each save, send, log or assignment throws is an input.
- Sales.AssignRequestOutcome: the delegated assignment is modelled only as appending one fact. Its real database effect, for example a status change, is inside `InquiryService` and not modelled.
- Controller.InquiryController.ShowUnassignedInquiries: the reads of inquiries and salesmen, and each `hasSalesmanAssigned` query, are taken not to fail. A failure there would escape the handler.
- The `Inquiry` and `Customer` classes are not part of this model. Their setters and constructors are taken to accept null values without throwing.
- `e.printStackTrace()`: operator-facing output, left out.
- The floating-point semantics of `Double.parseDouble` and the grammar of `Integer.parseInt`: both are oracles, and the model does no arithmetic on the values. `Double.parseDouble` accepts "NaN" and "Infinity", which the code stores and renders; a `real` cannot represent them, so the oracle must map those texts to some number or to failure, and the model does not capture those values.
- Concurrency between requests, and an atomic assignment check: neither is in the controller.
- The commented-out `editInquiry`, and `Main.java` (server start-up and configuration): no behaviour to model.
