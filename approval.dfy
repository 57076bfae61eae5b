/** Resolution of the approval link: the URL the payer's browser is sent to
    so that the payer can approve a created payment. */
module Approval {
  import opened Wrappers
  import opened Records

  /** The link relation that tags the payer hand-off URL. */
  const ApprovalRel := "approval_url"

  /** The text of the error returned when no link carries that relation. */
  const NoApprovalUrlText := "No approval_url foundi!"

  /** Position of the first link, in list order, whose relation is exactly
      `ApprovalRel`, or `|links|` when there is none. */
  function FirstApproval(links: seq<PaymentLink>): (i: nat)
    ensures i <= |links|
    ensures i < |links| ==> links[i].Rel == ApprovalRel
    ensures forall j :: 0 <= j < i ==> links[j].Rel != ApprovalRel
  {
    if |links| == 0 then 0
    else if links[0].Rel == ApprovalRel then 0
    else 1 + FirstApproval(links[1..])
  }

  /** What resolving the approval URL of a payment with these links yields. */
  function ApprovalOf(links: seq<PaymentLink>): (r: Result<string>)
    ensures r.Ok? <==> exists i :: 0 <= i < |links| && links[i].Rel == ApprovalRel
    ensures r.Err? ==> r.error == Failure(NoApprovalUrlText)
  {
    var i := FirstApproval(links);
    if i < |links| then Ok(links[i].Href) else Err(Failure(NoApprovalUrlText))
  }

  /** Scans the payment's links in order and returns the href of the first
      one tagged "approval_url"; fails when there is none. The receiver is a
      pointer: `None` is the nil payment that creation returns for a `null`
      body, on which reading the links is a runtime panic. */
  method ApprovalUrl(payment: Option<PaymentResponse>) returns (r: Result<string>)
    ensures payment.None? ==> r == Err(NilDereference)
    ensures payment.Some? ==>
              (r.Ok? <==> exists i :: 0 <= i < |payment.value.Links| && payment.value.Links[i].Rel == ApprovalRel)
    ensures payment.Some? && r.Ok? ==>
              exists i :: 0 <= i < |payment.value.Links| && payment.value.Links[i].Rel == ApprovalRel &&
                payment.value.Links[i].Href == r.value &&
                forall j :: 0 <= j < i ==> payment.value.Links[j].Rel != ApprovalRel
    ensures payment.Some? && r.Err? ==> r.error == Failure(NoApprovalUrlText)
    ensures payment.Some? ==> r == ApprovalOf(payment.value.Links)
  {
    if payment.None? {
      return Err(NilDereference);
    }
    var links := payment.value.Links;
    var i := 0;
    while i < |links|
      invariant 0 <= i <= |links|
      invariant forall j :: 0 <= j < i ==> links[j].Rel != ApprovalRel
    {
      if links[i].Rel == ApprovalRel {
        return Ok(links[i].Href);
      }
      i := i + 1;
    }
    return Err(Failure(NoApprovalUrlText));
  }

  /** Links before the approval link play no part, whatever their relation
      ("self", "execute", ...): putting links without the approval relation
      in front does not change the result. */
  lemma {:induction false} SkipsOtherLinks(front: seq<PaymentLink>, links: seq<PaymentLink>)
    requires forall j :: 0 <= j < |front| ==> front[j].Rel != ApprovalRel
    ensures ApprovalOf(front + links) == ApprovalOf(links)
    ensures FirstApproval(front + links) == |front| + FirstApproval(links)
  {
    if front == [] {
      assert front + links == links;
    } else {
      assert (front + links)[1..] == front[1..] + links;
      SkipsOtherLinks(front[1..], links);
    }
  }

  /** Links after the first approval link play no part either: the first
      match wins, even when a later link also carries the relation. */
  lemma {:induction false} FirstMatchWins(links: seq<PaymentLink>, back: seq<PaymentLink>)
    requires ApprovalOf(links).Ok?
    ensures ApprovalOf(links + back) == ApprovalOf(links)
    ensures FirstApproval(links + back) == FirstApproval(links)
  {
    if links[0].Rel != ApprovalRel {
      assert (links + back)[1..] == links[1..] + back;
      assert ApprovalOf(links[1..]).Ok? by {
        var i :| 0 <= i < |links| && links[i].Rel == ApprovalRel;
        assert links[1..][i - 1].Rel == ApprovalRel;
      }
      FirstMatchWins(links[1..], back);
    }
  }
}
