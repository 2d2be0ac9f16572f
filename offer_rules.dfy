/**
  The value-level rules behind the listing and offer routes of
  src/supabase/functions/server/index.tsx: resolving an index array into
  records, the effect of an acceptance on a listing, the sibling-rejection
  loop, and the restore step of the admin cancel route.
 */
module OfferRules {
  import opened Wrappers
  import opened Records

  // ---------------------------------------------------------------- index arrays

  /** `Promise.all(ids.map(id => kv.get(...)))` followed by `.filter(Boolean)`: ids without a record are dropped. */
  function Resolve<T>(ids: seq<string>, fetch: string -> Option<T>): (r: seq<T>)
    ensures |r| <= |ids|
    ensures forall x :: x in r ==> exists id :: id in ids && fetch(id) == Some(x)
    decreases |ids|
  {
    if ids == [] then []
    else
      var head := match fetch(ids[0]) case Some(x) => [x] case None => [];
      var tail := Resolve(ids[1..], fetch);
      assert forall x :: x in tail ==> exists id :: id in ids && fetch(id) == Some(x) by {
        forall x | x in tail ensures exists id :: id in ids && fetch(id) == Some(x) {
          var id :| id in ids[1..] && fetch(id) == Some(x);
          assert id in ids;
        }
      }
      head + tail
  }

  function ListingFetcher(d: Store): string -> Option<Listing> {
    id => GetListing(d, id)
  }

  function OfferFetcher(d: Store): string -> Option<Offer> {
    id => GetOffer(d, id)
  }

  /** When every id has a record, nothing is dropped and the order of the index is kept. */
  lemma {:induction false} ResolveAllPresent<T>(ids: seq<string>, fetch: string -> Option<T>)
    requires forall id :: id in ids ==> fetch(id).Some?
    ensures |Resolve(ids, fetch)| == |ids|
    ensures forall i :: 0 <= i < |ids| ==> Resolve(ids, fetch)[i] == fetch(ids[i]).value
    decreases |ids|
  {
    if ids != [] {
      assert ids[0] in ids;
      assert forall id :: id in ids[1..] ==> id in ids;
      ResolveAllPresent(ids[1..], fetch);
      var r := Resolve(ids, fetch);
      assert r == [fetch(ids[0]).value] + Resolve(ids[1..], fetch);
      forall i | 0 <= i < |ids| ensures r[i] == fetch(ids[i]).value {
        if i > 0 { assert r[i] == Resolve(ids[1..], fetch)[i - 1] && ids[1..][i - 1] == ids[i]; }
      }
    }
  }

  /** The ids of the index that have a record, in index order: the ones `.filter(Boolean)` keeps. */
  function Present<T>(ids: seq<string>, fetch: string -> Option<T>): (p: seq<string>)
    ensures |p| <= |ids|
    ensures forall id :: id in p <==> id in ids && fetch(id).Some?
    decreases |ids|
  {
    if ids == [] then []
    else
      var rest := Present(ids[1..], fetch);
      assert ids == [ids[0]] + ids[1..];
      (if fetch(ids[0]).Some? then [ids[0]] else []) + rest
  }

  /**
    Resolving is the in-order filter of the index: the k-th record is the record of the k-th id
    that has one, and there is one record per such id.
   */
  lemma {:induction false} ResolveInOrder<T>(ids: seq<string>, fetch: string -> Option<T>)
    ensures |Resolve(ids, fetch)| == |Present(ids, fetch)|
    ensures forall k :: 0 <= k < |Present(ids, fetch)| ==> fetch(Present(ids, fetch)[k]) == Some(Resolve(ids, fetch)[k])
    decreases |ids|
  {
    if ids != [] {
      ResolveInOrder(ids[1..], fetch);
      var r, p := Resolve(ids, fetch), Present(ids, fetch);
      var rt, pt := Resolve(ids[1..], fetch), Present(ids[1..], fetch);
      if fetch(ids[0]).Some? {
        assert r == [fetch(ids[0]).value] + rt;
        assert p == [ids[0]] + pt;
        forall k | 0 <= k < |p| ensures fetch(p[k]) == Some(r[k]) {
          if k > 0 {
            assert p[k] == pt[k - 1] && r[k] == rt[k - 1];
          }
        }
      } else {
        assert r == rt && p == pt;
      }
    }
  }

  /** Every id of the index that has a record contributes that record to the answer. */
  lemma ResolveKeepsPresent<T>(ids: seq<string>, fetch: string -> Option<T>)
    ensures forall i :: 0 <= i < |ids| && fetch(ids[i]).Some? ==> fetch(ids[i]).value in Resolve(ids, fetch)
  {
    ResolveInOrder(ids, fetch);
    var p := Present(ids, fetch);
    forall i | 0 <= i < |ids| && fetch(ids[i]).Some? ensures fetch(ids[i]).value in Resolve(ids, fetch) {
      assert ids[i] in p;
      var k :| 0 <= k < |p| && p[k] == ids[i];
      assert Resolve(ids, fetch)[k] == fetch(ids[i]).value;
    }
  }

  /** An id added at the end of the index shows up at the end of the answer, if it has a record. */
  lemma {:induction false} ResolveAppend<T>(ids: seq<string>, x: string, fetch: string -> Option<T>)
    ensures Resolve(ids + [x], fetch) == Resolve(ids, fetch) + (match fetch(x) case Some(v) => [v] case None => [])
    decreases |ids|
  {
    if ids == [] {
      assert [] + [x] == [x];
      assert [x][1..] == [];
    } else {
      assert (ids + [x])[0] == ids[0];
      assert (ids + [x])[1..] == ids[1..] + [x];
      ResolveAppend(ids[1..], x, fetch);
    }
  }

  /** `ids` with every occurrence of `x` removed. */
  function Without(ids: seq<string>, x: string): (r: seq<string>)
    ensures x !in r
    ensures forall id :: id in r <==> id in ids && id != x
    decreases |ids|
  {
    if ids == [] then []
    else (if ids[0] == x then [] else [ids[0]]) + Without(ids[1..], x)
  }

  /**
    If `x` loses its record and nothing else changes, resolving the index gives what resolving
    the index without `x` gave before: a dangling id is skipped, not reported.
   */
  lemma {:induction false} ResolveSkipsVanished<T>(ids: seq<string>, x: string, before: string -> Option<T>, after: string -> Option<T>)
    requires after(x).None?
    requires forall id :: id != x ==> after(id) == before(id)
    ensures Resolve(ids, after) == Resolve(Without(ids, x), before)
    decreases |ids|
  {
    if ids != [] {
      ResolveSkipsVanished(ids[1..], x, before, after);
      if ids[0] == x {
        assert Without(ids, x) == Without(ids[1..], x);
      } else {
        var w := Without(ids, x);
        assert w == [ids[0]] + Without(ids[1..], x);
        assert w[0] == ids[0] && w[1..] == Without(ids[1..], x);
      }
    }
  }

  /** Deleting `listing:<id>` makes every index query behave as if `id` had been taken out of the index. */
  lemma DeletedListingSkipped(d: Store, id: string, ids: seq<string>)
    ensures Resolve(ids, ListingFetcher(d - {ListingKey(id)})) == Resolve(Without(ids, id), ListingFetcher(d))
  {
    forall other | other != id
      ensures ListingFetcher(d - {ListingKey(id)})(other) == ListingFetcher(d)(other)
    {
      KeysInjective(id, other);
    }
    ResolveSkipsVanished(ids, id, ListingFetcher(d), ListingFetcher(d - {ListingKey(id)}));
  }

  // ---------------------------------------------------------------- acceptance

  /**
    Lines 686-690: the quantity left drops by exactly the offer's quantity, the listing is `sold`
    exactly when nothing (or less than nothing) is left, unless it already had that status, and
    no other field changes.
   */
  function ListingAfterAccept(l: Listing, quantity: real): (r: Listing)
    ensures r.availableQuantity == l.availableQuantity - quantity
    ensures r.availableQuantity <= 0.0 ==> r.status == "sold"
    ensures r.availableQuantity > 0.0 ==> r.status == l.status
    ensures r.(availableQuantity := l.availableQuantity, status := l.status) == l
  {
    var left := l.availableQuantity - quantity;
    l.(availableQuantity := left, status := if left <= 0.0 then "sold" else l.status)
  }

  /** The stock bounds a listing is meant to keep: nothing negative, never more than was listed. */
  predicate StockInRange(l: Listing) {
    0.0 <= l.availableQuantity <= l.quantity
  }

  /**
    A counterexample to acceptance as written: on a 10-tonne listing with pending offers of 7 and
    5 tonnes, accepting the first leaves 3 tonnes and rejects the second; accepting the rejected
    second one as well, which the route allows, leaves -2 tonnes.
   */
  lemma SecondAcceptanceOversells(l: Listing, a: Offer, b: Offer)
    requires l.quantity == 10.0 && l.availableQuantity == 10.0 && l.status == "active"
    requires a.quantity == 7.0 && b.quantity == 5.0 && b.status == "pending"
    ensures ListingAfterAccept(l, a.quantity).availableQuantity == 3.0
    ensures ListingAfterAccept(l, a.quantity).status == "active"
    ensures RejectIfPending(OfferRec(b)) == OfferRec(b.(status := "rejected"))
    ensures ListingAfterAccept(ListingAfterAccept(l, a.quantity), b.quantity).availableQuantity == -2.0
    ensures !StockInRange(ListingAfterAccept(ListingAfterAccept(l, a.quantity), b.quantity))
    ensures CheckedAccept(ListingAfterAccept(l, a.quantity), b.(status := "rejected")).None?
  {
  }

  /**
    Acceptance that applies only to a pending offer whose quantity is positive and still
    available on the listing, and then subtracts that quantity.
   */
  function CheckedAccept(l: Listing, o: Offer): (r: Option<Listing>)
    ensures r.Some? <==> o.status == "pending" && 0.0 < o.quantity <= l.availableQuantity
    ensures r.Some? ==> r.value.availableQuantity == l.availableQuantity - o.quantity
  {
    if o.status == "pending" && 0.0 < o.quantity <= l.availableQuantity then Some(ListingAfterAccept(l, o.quantity)) else None
  }

  /** Checked acceptance keeps the stock in range, and a listing with nothing left is `sold`. */
  lemma CheckedAcceptKeepsStockInRange(l: Listing, o: Offer)
    requires StockInRange(l) && CheckedAccept(l, o).Some?
    ensures StockInRange(CheckedAccept(l, o).value)
    ensures CheckedAccept(l, o).value.availableQuantity < l.availableQuantity
    ensures CheckedAccept(l, o).value.availableQuantity == 0.0 ==> CheckedAccept(l, o).value.status == "sold"
  {
  }

  /** The body of the sibling loop at :697-702 on one record. */
  function RejectIfPending(r: Record): Record {
    match r
    case OfferRec(o) => if o.status == "pending" then OfferRec(o.(status := "rejected")) else r
    case _ => r
  }

  /** One iteration of the loop at :696-704. */
  function RejectSibling(d: Store, id: string, accepted: string): (r: Store)
    ensures r.Keys == d.Keys
  {
    if id == accepted then d
    else
      match GetOffer(d, id)
      case Some(o) => if o.status == "pending" then d[OfferKey(id) := OfferRec(o.(status := "rejected"))] else d
      case None => d
  }

  /**
    The whole loop, over the ids in index order. It writes only keys that are already stored;
    `RejectSiblingsClosedForm` says record by record what it writes.
   */
  function RejectSiblings(d: Store, ids: seq<string>, accepted: string): (r: Store)
    ensures r.Keys == d.Keys
    decreases |ids|
  {
    if ids == [] then d
    else RejectSibling(RejectSiblings(d, ids[..|ids| - 1], accepted), ids[|ids| - 1], accepted)
  }

  /** One more id at the end of the index is one more iteration. */
  lemma RejectSiblingsSnoc(d: Store, ids: seq<string>, id: string, accepted: string)
    ensures RejectSiblings(d, ids + [id], accepted) == RejectSibling(RejectSiblings(d, ids, accepted), id, accepted)
  {
    assert (ids + [id])[..|ids|] == ids;
  }

  /** The keys the loop may touch: the offer keys of the listed ids other than the accepted one. */
  ghost function SiblingKeys(ids: seq<string>, accepted: string): set<string> {
    set id | id in ids && id != accepted :: OfferKey(id)
  }

  lemma SiblingKeysSnoc(ids: seq<string>, x: string, accepted: string)
    ensures SiblingKeys(ids + [x], accepted) == SiblingKeys(ids, accepted) + (if x != accepted then {OfferKey(x)} else {})
  {
    var s := ids + [x];
    forall k | k in SiblingKeys(s, accepted)
      ensures k in SiblingKeys(ids, accepted) + (if x != accepted then {OfferKey(x)} else {})
    {
      var id :| id in s && id != accepted && k == OfferKey(id);
      if id != x { assert id in ids; }
    }
    forall k | k in SiblingKeys(ids, accepted) ensures k in SiblingKeys(s, accepted) {
      var id :| id in ids && id != accepted && k == OfferKey(id);
      assert id in s;
    }
    if x != accepted { assert x in s; }
  }

  /**
    The closed form of the loop: it keeps the key set, turns every pending offer filed under a
    sibling key into a rejected one, and leaves every other record as it was (the accepted offer,
    non-pending siblings, the listing, everything else). Ids without a record are skipped, and an
    id listed twice is handled once.
   */
  lemma {:induction false} RejectSiblingsClosedForm(d: Store, ids: seq<string>, accepted: string)
    ensures RejectSiblings(d, ids, accepted).Keys == d.Keys
    ensures forall k :: k in d ==>
              RejectSiblings(d, ids, accepted)[k]
                == if k in SiblingKeys(ids, accepted) then RejectIfPending(d[k]) else d[k]
    decreases |ids|
  {
    if ids != [] {
      var init, x := ids[..|ids| - 1], ids[|ids| - 1];
      assert ids == init + [x];
      RejectSiblingsClosedForm(d, init, accepted);
      SiblingKeysSnoc(init, x, accepted);
      var m := RejectSiblings(d, init, accepted);
      var r := RejectSiblings(d, ids, accepted);
      assert r == RejectSibling(m, x, accepted);
      forall k | k in d
        ensures r[k] == if k in SiblingKeys(ids, accepted) then RejectIfPending(d[k]) else d[k]
      {
        if x != accepted && k == OfferKey(x) {
          assert RejectIfPending(RejectIfPending(d[k])) == RejectIfPending(d[k]);
        }
      }
    }
  }

  /** The loop keeps the store well shaped: it only turns offers into offers. */
  lemma RejectSiblingsShaped(d: Store, ids: seq<string>, accepted: string)
    requires WellShaped(d)
    ensures WellShaped(RejectSiblings(d, ids, accepted))
  {
    RejectSiblingsClosedForm(d, ids, accepted);
  }

  // ---------------------------------------------------------------- admin cancel

  /** Lines 901-902: the offer as the cancel route stores it. */
  function CancelledOffer(o: Offer, now: int): Offer {
    o.(status := "cancelled", cancelledAt := Some(now))
  }

  /** Lines 909-910: the restore step. */
  function RestoredListing(l: Listing, quantity: real): Listing {
    l.(availableQuantity := l.availableQuantity + quantity, status := "active")
  }

  /** Lines 906-912: the listing after the restore test, which reads the status of `tested`. */
  function ListingAfterCancel(l: Listing, tested: Offer): Listing {
    if tested.status == "accepted" then RestoredListing(l, tested.quantity) else l
  }

  /**
    As written, the test reads the offer after line 901 has overwritten its status, so the
    listing always comes out as it went in.
   */
  lemma CancelAsWrittenNeverRestores(l: Listing, o: Offer, now: int)
    ensures ListingAfterCancel(l, CancelledOffer(o, now)) == l
  {
  }

  /**
    Testing the status read from the store (before the overwrite) undoes an acceptance: a listing
    that was `active`, had an offer accepted and then cancelled, is back where it started.
   */
  lemma CancelUndoesAccept(l: Listing, o: Offer)
    requires l.status == "active" && o.status == "accepted"
    ensures ListingAfterCancel(ListingAfterAccept(l, o.quantity), o) == l
  {
  }

  /**
    A counterexample to the restore as written: a 10-tonne listing sold out by one 10-tonne offer
    stays sold out with nothing available after the admin cancels the deal, while the intended
    restore gives back all 10 tonnes and re-activates it.
   */
  lemma SoldOutListingStaysSoldOut(l: Listing, o: Offer, now: int)
    requires l.quantity == 10.0 && l.availableQuantity == 10.0 && l.status == "active"
    requires o.quantity == 10.0 && o.status == "accepted"
    ensures ListingAfterAccept(l, o.quantity).availableQuantity == 0.0
    ensures ListingAfterAccept(l, o.quantity).status == "sold"
    ensures ListingAfterCancel(ListingAfterAccept(l, o.quantity), CancelledOffer(o, now)).availableQuantity == 0.0
    ensures ListingAfterCancel(ListingAfterAccept(l, o.quantity), CancelledOffer(o, now)).status == "sold"
    ensures ListingAfterCancel(ListingAfterAccept(l, o.quantity), o).availableQuantity == 10.0
    ensures ListingAfterCancel(ListingAfterAccept(l, o.quantity), o).status == "active"
  {
  }
}
