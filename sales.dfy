/**
 * The sales side of the controller: the list of inquiries no salesman is bound to, and the
 * assign request, which parses two ids and hands them to the inquiry service.
 */
module Sales {
  import opened Wrappers
  import opened FormParams
  import opened Records

  /** `inquiryService.hasSalesmanAssigned(id, db)`, read off the assignment relation. */
  predicate HasSalesmanAssigned(assignments: seq<Assignment>, id: Int32)
  {
    exists k :: 0 <= k < |assignments| && assignments[k].inquiryId == id
  }

  /** The stream filter of `showUnassignedInquiries`: keep, in order, the rows with no salesman. */
  function Unassigned(rows: seq<InquiryRow>, assignments: seq<Assignment>): seq<InquiryRow>
  {
    if rows == [] then []
    else
      var head := if HasSalesmanAssigned(assignments, rows[0].id) then [] else [rows[0]];
      head + Unassigned(rows[1..], assignments)
  }

  /** `r` can be obtained from `s` by deleting elements, keeping the order of the rest. */
  ghost predicate IsSubsequence<T>(r: seq<T>, s: seq<T>)
    decreases |s|
  {
    if r == [] then true
    else if s == [] then false
    else (r[0] == s[0] && IsSubsequence(r[1..], s[1..])) || IsSubsequence(r, s[1..])
  }

  /** The listing keeps the original order: it is a subsequence of the fetched rows. */
  lemma {:induction false} UnassignedIsSubsequence(rows: seq<InquiryRow>, assignments: seq<Assignment>)
    ensures IsSubsequence(Unassigned(rows, assignments), rows)
    decreases |rows|
  {
    if rows != [] {
      UnassignedIsSubsequence(rows[1..], assignments);
      var tail := Unassigned(rows[1..], assignments);
      if HasSalesmanAssigned(assignments, rows[0].id) {
        assert Unassigned(rows, assignments) == tail;
      } else {
        assert Unassigned(rows, assignments) == [rows[0]] + tail;
        assert ([rows[0]] + tail)[1..] == tail;
      }
    }
  }

  /**
   * The listing holds exactly the unassigned rows, each as often as it was fetched:
   * an assigned row never appears, an unassigned one is never dropped.
   */
  lemma {:induction false} UnassignedCounts(rows: seq<InquiryRow>, assignments: seq<Assignment>, x: InquiryRow)
    ensures multiset(Unassigned(rows, assignments))[x] ==
      if HasSalesmanAssigned(assignments, x.id) then 0 else multiset(rows)[x]
    decreases |rows|
  {
    if rows != [] {
      UnassignedCounts(rows[1..], assignments, x);
      assert rows == [rows[0]] + rows[1..];
    }
  }

  /** Membership in the listing, both directions. */
  lemma UnassignedMembers(rows: seq<InquiryRow>, assignments: seq<Assignment>, x: InquiryRow)
    ensures x in Unassigned(rows, assignments) <==> x in rows && !HasSalesmanAssigned(assignments, x.id)
  {
    UnassignedCounts(rows, assignments, x);
  }

  /** Filtering distributes over concatenation of the fetched rows. */
  lemma {:induction false} UnassignedAppend(a: seq<InquiryRow>, b: seq<InquiryRow>, assignments: seq<Assignment>)
    ensures Unassigned(a + b, assignments) == Unassigned(a, assignments) + Unassigned(b, assignments)
    decreases |a|
  {
    if a == [] {
      assert a + b == b;
    } else {
      assert (a + b)[1..] == a[1..] + b;
      UnassignedAppend(a[1..], b, assignments);
    }
  }

  /** Filtering the listing again gives the listing: the filter is idempotent. */
  lemma {:induction false} UnassignedIdempotent(rows: seq<InquiryRow>, assignments: seq<Assignment>)
    ensures Unassigned(Unassigned(rows, assignments), assignments) == Unassigned(rows, assignments)
    decreases |rows|
  {
    if rows != [] {
      var tail := Unassigned(rows[1..], assignments);
      UnassignedIdempotent(rows[1..], assignments);
      if HasSalesmanAssigned(assignments, rows[0].id) {
        assert Unassigned(rows, assignments) == tail;
      } else {
        assert Unassigned(rows, assignments) == [rows[0]] + tail;
        UnassignedAppend([rows[0]], tail, assignments);
        assert Unassigned([rows[0]], assignments) == [rows[0]] + Unassigned([], assignments);
      }
    }
  }

  /**
   * Adding an assignment fact removes from the listing exactly the rows of that inquiry:
   * the new listing is the old one filtered once more by the new fact alone.
   */
  lemma {:induction false} AssigningNarrowsListing(rows: seq<InquiryRow>, assignments: seq<Assignment>, fact: Assignment)
    ensures Unassigned(rows, assignments + [fact]) == Unassigned(Unassigned(rows, assignments), [fact])
    ensures forall x :: x in Unassigned(rows, assignments + [fact]) ==> x.id != fact.inquiryId
    decreases |rows|
  {
    var more := assignments + [fact];
    if rows != [] {
      AssigningNarrowsListing(rows[1..], assignments, fact);
      var id := rows[0].id;
      var tail := Unassigned(rows[1..], assignments);
      assert HasSalesmanAssigned(more, id) <==> HasSalesmanAssigned(assignments, id) || HasSalesmanAssigned([fact], id) by {
        if HasSalesmanAssigned(more, id) {
          var k :| 0 <= k < |more| && more[k].inquiryId == id;
          if k == |assignments| { assert [fact][0].inquiryId == id; } else { assert assignments[k] == more[k]; }
        }
        if HasSalesmanAssigned(assignments, id) {
          var k :| 0 <= k < |assignments| && assignments[k].inquiryId == id;
          assert more[k] == assignments[k];
        }
        if HasSalesmanAssigned([fact], id) {
          assert more[|assignments|] == fact;
        }
      }
      if HasSalesmanAssigned(assignments, id) {
        assert Unassigned(rows, assignments) == tail;
      } else {
        assert Unassigned(rows, assignments) == [rows[0]] + tail;
        UnassignedAppend([rows[0]], tail, [fact]);
        assert Unassigned([rows[0]], [fact]) == (if HasSalesmanAssigned([fact], id) then [] else [rows[0]]) + Unassigned([], [fact]);
      }
    }
    forall x | x in Unassigned(rows, more) ensures x.id != fact.inquiryId {
      UnassignedMembers(rows, more, x);
      assert more[|assignments|].inquiryId == fact.inquiryId;
    }
  }

  /**
   * `assignSalesmanToInquiry`: parse `inquiryId` and then `salesmanId` with `Integer.parseInt`
   * (no try: a malformed or missing id escapes as a `NumberFormatException`), hand both to
   * the inquiry service, and redirect to the listing. The service is not part of this model:
   * its effect is one new fact in the assignment relation, and `serviceSucceeds` says
   * whether it throws instead. No check for an existing assignment is made here.
   */
  function AssignRequest(form: Form, parseInt: IntOracle, serviceSucceeds: bool, s: Store): (Response, Store)
  {
    match ParseIntParam(parseInt, FormParam(form, "inquiryId"))
    case None => (Uncaught(NumberFormatException), s)
    case Some(inquiryId) =>
      match ParseIntParam(parseInt, FormParam(form, "salesmanId"))
      case None => (Uncaught(NumberFormatException), s)
      case Some(salesmanId) =>
        if !serviceSucceeds then (Uncaught(ServiceFailure), s)
        else (Redirect("/unassigned-inquiries"),
              s.(assignments := s.assignments + [Assignment(inquiryId, salesmanId)]))
  }

  /**
   * What an assign request does, case by case: either both ids parse and the service
   * succeeds, the request redirects to the listing and the one new fact binds the parsed
   * ids; or the store is untouched and the failure escapes uncaught.
   */
  lemma AssignRequestOutcome(form: Form, parseInt: IntOracle, serviceSucceeds: bool, s: Store)
    ensures var (r, t) := AssignRequest(form, parseInt, serviceSucceeds, s);
      var i := ParseIntParam(parseInt, FormParam(form, "inquiryId"));
      var j := ParseIntParam(parseInt, FormParam(form, "salesmanId"));
      (r == Redirect("/unassigned-inquiries") <==> i.Some? && j.Some? && serviceSucceeds)
      && (r.Redirect? ==> t == s.(assignments := s.assignments + [Assignment(i.value, j.value)]))
      && (!r.Redirect? ==> t == s && r.Uncaught?)
      && ((i.None? || j.None?) ==> r == Uncaught(NumberFormatException))
  {
  }

  /** After a successful assign request the inquiry is gone from the listing, and nothing else moves. */
  lemma AssignedInquiryLeavesListing(form: Form, parseInt: IntOracle, s: Store)
    requires AssignRequest(form, parseInt, true, s).0.Redirect?
    ensures var t := AssignRequest(form, parseInt, true, s).1;
      var id := ParseIntParam(parseInt, FormParam(form, "inquiryId")).value;
      (forall x :: x in Unassigned(t.inquiries, t.assignments) ==> x.id != id)
      && Unassigned(t.inquiries, t.assignments) == Unassigned(Unassigned(s.inquiries, s.assignments), [t.assignments[|s.assignments|]])
      && t.inquiries == s.inquiries && t.customers == s.customers && t.emailLog == s.emailLog
  {
    var t := AssignRequest(form, parseInt, true, s).1;
    var fact := t.assignments[|s.assignments|];
    assert t.assignments == s.assignments + [fact];
    AssigningNarrowsListing(s.inquiries, s.assignments, fact);
  }
}
