/**
  The offers page of src/pages/ViewOffers.tsx: the list of offers a farmer sees
  for one listing, and the pure transforms its accept and reject buttons apply
  before handing the new list to the state setter.
 */
module ViewOffers {
  import opened Wrappers

  datatype Status = Pending | Accepted | Rejected

  /** The page's own offer shape (:5-17); the contact fields are set only on acceptance. */
  datatype ClientOffer = ClientOffer(
    id: string, companyId: string, companyName: string, companyLocation: string,
    quantity: real, pricePerKg: real, totalAmount: real, status: Status, submittedAt: string,
    contactPhone: Option<string>, contactEmail: Option<string>)

  /** The contact details the page attaches to an accepted offer (:80, :88-89). */
  const SharedPhone := "+91 98765 12345"
  const SharedEmail := "company@example.com"

  /** An offer with the company's contact details attached. */
  function WithContact(o: ClientOffer): ClientOffer {
    o.(contactPhone := Some(SharedPhone), contactEmail := Some(SharedEmail))
  }

  /** The callback of the `map` at :78-83. */
  function AcceptStep(o: ClientOffer, chosen: string): ClientOffer {
    if o.id == chosen then WithContact(o).(status := Accepted)
    else if o.status == Pending then o.(status := Rejected)
    else o
  }

  /**
    `handleAcceptOffer` (:77-96): the new list, and the offer shown in the deal confirmation.
    Every offer carrying the chosen id is accepted with the contact details, every other pending
    offer is rejected, and the rest are left as they were; length and order are kept.
   */
  function HandleAcceptOffer(offers: seq<ClientOffer>, offer: ClientOffer): (r: (seq<ClientOffer>, ClientOffer))
    ensures |r.0| == |offers|
    ensures forall i :: 0 <= i < |offers| && offers[i].id == offer.id ==>
              r.0[i] == WithContact(offers[i]).(status := Accepted)
    ensures forall i :: 0 <= i < |offers| && offers[i].id != offer.id && offers[i].status == Pending ==>
              r.0[i] == offers[i].(status := Rejected)
    ensures forall i :: 0 <= i < |offers| && offers[i].id != offer.id && offers[i].status != Pending ==>
              r.0[i] == offers[i]
    ensures r.1 == WithContact(offer)
  {
    (seq(|offers|, i requires 0 <= i < |offers| => AcceptStep(offers[i], offer.id)), WithContact(offer))
  }

  /** `handleRejectOffer` (:98-100): only the offers carrying the id change, and only their status. */
  function HandleRejectOffer(offers: seq<ClientOffer>, offerId: string): (r: seq<ClientOffer>)
    ensures |r| == |offers|
    ensures forall i :: 0 <= i < |offers| ==>
              r[i] == if offers[i].id == offerId then offers[i].(status := Rejected) else offers[i]
  {
    seq(|offers|, i requires 0 <= i < |offers| => if offers[i].id == offerId then offers[i].(status := Rejected) else offers[i])
  }

  /** `offers.filter(o => o.status === s)`: the offers with status `s`, each as often as it occurs. */
  function WithStatus(offers: seq<ClientOffer>, s: Status): (r: seq<ClientOffer>)
    ensures forall o :: o in r <==> o in offers && o.status == s
    decreases |offers|
  {
    if offers == [] then []
    else
      var rest := WithStatus(offers[1..], s);
      assert offers == [offers[0]] + offers[1..];
      if offers[0].status == s then [offers[0]] + rest else rest
  }

  /** Filtering keeps each offer of status `s` as often as it occurs and drops every other. */
  lemma {:induction false} WithStatusCounts(offers: seq<ClientOffer>, s: Status)
    ensures forall o :: multiset(WithStatus(offers, s))[o] == if o.status == s then multiset(offers)[o] else 0
    decreases |offers|
  {
    if offers != [] {
      WithStatusCounts(offers[1..], s);
      assert offers == [offers[0]] + offers[1..];
    }
  }

  /** No offer of status `s`, nothing in the filtered list. */
  lemma {:induction false} WithStatusNone(offers: seq<ClientOffer>, s: Status)
    requires forall i :: 0 <= i < |offers| ==> offers[i].status != s
    ensures WithStatus(offers, s) == []
    decreases |offers|
  {
    if offers != [] {
      WithStatusNone(offers[1..], s);
    }
  }

  /** The pending list (:114). */
  function PendingOffers(offers: seq<ClientOffer>): seq<ClientOffer> {
    WithStatus(offers, Pending)
  }

  /** The accepted list (:115). */
  function AcceptedOffers(offers: seq<ClientOffer>): seq<ClientOffer> {
    WithStatus(offers, Accepted)
  }

  /** Filtering keeps the original order: filtering a concatenation filters each part. */
  lemma {:induction false} WithStatusAppend(a: seq<ClientOffer>, b: seq<ClientOffer>, s: Status)
    ensures WithStatus(a + b, s) == WithStatus(a, s) + WithStatus(b, s)
    decreases |a|
  {
    if a != [] {
      var head := if a[0].status == s then [a[0]] else [];
      assert (a + b)[0] == a[0];
      assert (a + b)[1..] == a[1..] + b;
      assert WithStatus(a + b, s) == head + WithStatus(a[1..] + b, s);
      assert WithStatus(a, s) == head + WithStatus(a[1..], s);
      WithStatusAppend(a[1..], b, s);
      assert head + (WithStatus(a[1..], s) + WithStatus(b, s)) == (head + WithStatus(a[1..], s)) + WithStatus(b, s);
    } else {
      assert a + b == b;
    }
  }

  /** After an acceptance nothing is left pending, so the pending list is empty. */
  lemma NothingPendingAfterAccept(offers: seq<ClientOffer>, offer: ClientOffer)
    ensures forall i :: 0 <= i < |HandleAcceptOffer(offers, offer).0| ==> HandleAcceptOffer(offers, offer).0[i].status != Pending
    ensures PendingOffers(HandleAcceptOffer(offers, offer).0) == []
  {
    WithStatusNone(HandleAcceptOffer(offers, offer).0, Pending);
  }

  /** The offers not carrying `offerId`, in their order, each as often as it occurs. */
  function WithoutId(offers: seq<ClientOffer>, offerId: string): (r: seq<ClientOffer>)
    ensures forall o :: o in r <==> o in offers && o.id != offerId
    decreases |offers|
  {
    if offers == [] then []
    else
      var rest := WithoutId(offers[1..], offerId);
      assert offers == [offers[0]] + offers[1..];
      if offers[0].id != offerId then [offers[0]] + rest else rest
  }

  /** Rejecting never creates a pending offer: the pending list only loses the offers carrying the id. */
  lemma RejectOnlyShrinksPending(offers: seq<ClientOffer>, offerId: string)
    ensures PendingOffers(HandleRejectOffer(offers, offerId)) == WithoutId(PendingOffers(offers), offerId)
    ensures forall o :: o in PendingOffers(HandleRejectOffer(offers, offerId)) <==> o in PendingOffers(offers) && o.id != offerId
  {
    RejectKeepsPendingOrder(offers, offerId);
  }

  /** The pending list after a rejection, in order and with repetitions, by induction on the list. */
  lemma {:induction false} RejectKeepsPendingOrder(offers: seq<ClientOffer>, offerId: string)
    ensures PendingOffers(HandleRejectOffer(offers, offerId)) == WithoutId(PendingOffers(offers), offerId)
    decreases |offers|
  {
    if offers != [] {
      var o := offers[0];
      var rest := PendingOffers(offers[1..]);
      var r := HandleRejectOffer(offers, offerId);
      assert r[1..] == HandleRejectOffer(offers[1..], offerId);
      RejectKeepsPendingOrder(offers[1..], offerId);
      var tail := WithoutId(rest, offerId);
      assert PendingOffers(r[1..]) == tail;
      if o.status == Pending {
        assert PendingOffers(offers) == [o] + rest;
        assert ([o] + rest)[1..] == rest;
        if o.id == offerId {
          assert r[0].status == Rejected;
          assert WithoutId([o] + rest, offerId) == tail;
        } else {
          assert r[0] == o;
          assert WithoutId([o] + rest, offerId) == [o] + tail;
        }
      } else {
        assert r[0].status != Pending;
        assert PendingOffers(offers) == rest;
      }
    }
  }

  /** Rejecting the same offer twice is the same as rejecting it once. */
  lemma RejectIdempotent(offers: seq<ClientOffer>, offerId: string)
    ensures HandleRejectOffer(HandleRejectOffer(offers, offerId), offerId) == HandleRejectOffer(offers, offerId)
  {
  }
}
