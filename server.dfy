/**
  The marketplace routes of src/supabase/functions/server/index.tsx as methods
  of one object holding the key-value store.

  Every handler takes what the HTTP layer and the platform would supply: the
  caller as `verifyAuth` resolved it (`Api.VerifyAuth`), the request fields,
  the current time and the fresh ids. Each handler is one sequential step
  against the store.
 */
module Server {
  import opened Wrappers
  import opened Strings
  import opened Records
  import opened Api
  import opened Otp
  import opened OfferRules

  // ---------------------------------------------------------------- records the routes build

  /** Lines 466-485: a new listing, priced per kilogram for a quantity in tonnes. */
  function NewListing(id: string, farmerId: string, farmer: FarmerProfile, imageUrl: string,
                      analysis: Analysis, quantity: real, sellingPrice: real, now: int): Listing
  {
    Listing(id, farmerId, farmer.name, FarmerLocation(farmer), imageUrl, analysis,
            quantity, quantity, sellingPrice, quantity * sellingPrice * 1000.0, "active", now)
  }

  /** Lines 598-611: a new offer on `listing` made by the company `companyId`. */
  function NewOffer(id: string, listingId: string, companyId: string, company: CompanyProfile,
                    listing: Listing, quantity: real, pricePerKg: real, now: int): Offer
  {
    Offer(id, listingId, companyId, company.companyName, company.address,
          listing.farmerId, listing.farmerName, quantity, pricePerKg, quantity * pricePerKg * 1000.0,
          "pending", now, None, None, None, None)
  }

  /** Lines 710-715: what the company sees of the farmer. */
  function FarmerContact(f: FarmerProfile): Contact {
    Contact(f.name, f.phone, f.email, FarmerLocation(f))
  }

  /** Lines 716-721: what the farmer sees of the company. */
  function CompanyContact(c: CompanyProfile): Contact {
    Contact(c.contactPerson, c.phone, c.email, c.address)
  }

  /** The offer as lines 679-680 leave it. */
  function Responded(o: Offer, status: string, now: int): Offer {
    o.(status := status, statusChangedAt := Some(now))
  }

  /** The store when the accept branch has reached line 704: offer written, listing reduced, siblings rejected. */
  function AcceptWrites(d: Store, offerId: string, o: Offer, l: Listing): Store {
    var d1 := d[OfferKey(offerId) := OfferRec(o)][ListingKey(o.listingId) := ListingRec(ListingAfterAccept(l, o.quantity))];
    RejectSiblings(d1, GetIds(d, ListingOffersKey(o.listingId)), offerId)
  }

  /** A sibling offer after the loop at :696-704. */
  function RejectedIfPending(o: Option<Offer>): Option<Offer> {
    match o
    case Some(x) => if x.status == "pending" then Some(x.(status := "rejected")) else o
    case None => None
  }

  /**
    What the accept branch does to the store, record by record: the accepted offer carries `o`,
    the listing is reduced by the offer's quantity, every other listed offer that was pending is
    rejected, and nothing else changes.
   */
  lemma AcceptWritesEffect(d: Store, offerId: string, o: Offer, l: Listing)
    requires WellShaped(d)
    ensures WellShaped(AcceptWrites(d, offerId, o, l))
    ensures AcceptedStore(d, AcceptWrites(d, offerId, o, l), offerId, o, l)
    ensures AcceptWrites(d, offerId, o, l).Keys == d.Keys + {OfferKey(offerId), ListingKey(o.listingId)}
    ensures GetOffer(AcceptWrites(d, offerId, o, l), offerId) == Some(o)
    ensures GetListing(AcceptWrites(d, offerId, o, l), o.listingId) == Some(ListingAfterAccept(l, o.quantity))
    ensures GetIds(AcceptWrites(d, offerId, o, l), ListingOffersKey(o.listingId)) == GetIds(d, ListingOffersKey(o.listingId))
    ensures forall id :: id in GetIds(d, ListingOffersKey(o.listingId)) && id != offerId ==>
              GetOffer(AcceptWrites(d, offerId, o, l), id) == RejectedIfPending(GetOffer(d, id))
    ensures forall k :: k in d && k !in SiblingKeys(GetIds(d, ListingOffersKey(o.listingId)), offerId)
                        && k != OfferKey(offerId) && k != ListingKey(o.listingId) ==>
              AcceptWrites(d, offerId, o, l)[k] == d[k]
  {
    var lid := o.listingId;
    var ids := GetIds(d, ListingOffersKey(lid));
    var d1 := d[OfferKey(offerId) := OfferRec(o)][ListingKey(lid) := ListingRec(ListingAfterAccept(l, o.quantity))];
    OfferKeyKind(offerId);
    ListingKeyKind(lid);
    ListingOffersKeyKind(lid);
    PutKeepsShape(d, OfferKey(offerId), OfferRec(o));
    PutKeepsShape(d[OfferKey(offerId) := OfferRec(o)], ListingKey(lid), ListingRec(ListingAfterAccept(l, o.quantity)));
    RejectSiblingsClosedForm(d1, ids, offerId);
    RejectSiblingsShaped(d1, ids, offerId);
    var r := AcceptWrites(d, offerId, o, l);
    assert OfferKey(offerId) !in SiblingKeys(ids, offerId) by {
      if OfferKey(offerId) in SiblingKeys(ids, offerId) {
        var id :| id in ids && id != offerId && OfferKey(offerId) == OfferKey(id);
        KeysInjective(id, offerId);
      }
    }
    assert ListingKey(lid) !in SiblingKeys(ids, offerId) by {
      if ListingKey(lid) in SiblingKeys(ids, offerId) {
        var id :| id in ids && id != offerId && ListingKey(lid) == OfferKey(id);
        OfferKeyKind(id);
      }
    }
    assert ListingOffersKey(lid) !in SiblingKeys(ids, offerId) by {
      if ListingOffersKey(lid) in SiblingKeys(ids, offerId) {
        var id :| id in ids && id != offerId && ListingOffersKey(lid) == OfferKey(id);
        OfferKeyKind(id);
      }
    }
    forall id | id in ids && id != offerId
      ensures GetOffer(r, id) == RejectedIfPending(GetOffer(d, id))
    {
      assert OfferKey(id) in SiblingKeys(ids, offerId);
      KeysInjective(id, offerId);
      OfferKeyKind(id);
    }
  }

  /** What the accept branch guarantees once the listing exists, whether or not the contact step throws. */
  predicate AcceptedStore(d: Store, w: Store, offerId: string, o: Offer, l: Listing) {
    && w.Keys == d.Keys + {OfferKey(offerId), ListingKey(o.listingId)}
    && GetListing(w, o.listingId) == Some(ListingAfterAccept(l, o.quantity))
    && (forall id :: id in GetIds(d, ListingOffersKey(o.listingId)) && id != offerId ==>
          GetOffer(w, id) == RejectedIfPending(GetOffer(d, id)))
  }

  /** Storing the responded offer before the accept branch changes nothing the branch reads. */
  lemma AcceptWritesOverwrite(d: Store, offerId: string, o: Offer)
    ensures forall l :: AcceptWrites(d[OfferKey(offerId) := OfferRec(o)], offerId, o, l) == AcceptWrites(d, offerId, o, l)
    ensures GetListing(d[OfferKey(offerId) := OfferRec(o)], o.listingId) == GetListing(d, o.listingId)
  {
    OfferKeyKind(offerId);
    ListingKeyKind(o.listingId);
    ListingOffersKeyKind(o.listingId);
    forall l ensures AcceptWrites(d[OfferKey(offerId) := OfferRec(o)], offerId, o, l) == AcceptWrites(d, offerId, o, l) {
      assert d[OfferKey(offerId) := OfferRec(o)][OfferKey(offerId) := OfferRec(o)] == d[OfferKey(offerId) := OfferRec(o)];
    }
  }

  /** The accept branch never touches a profile. */
  lemma AcceptKeepsProfiles(d: Store, offerId: string, o: Offer, l: Listing, uid: string, cid: string)
    ensures GetFarmer(AcceptWrites(d, offerId, o, l), uid) == GetFarmer(d, uid)
    ensures GetCompany(AcceptWrites(d, offerId, o, l), cid) == GetCompany(d, cid)
  {
    var lid := o.listingId;
    var ids := GetIds(d, ListingOffersKey(lid));
    var d1 := d[OfferKey(offerId) := OfferRec(o)][ListingKey(lid) := ListingRec(ListingAfterAccept(l, o.quantity))];
    RejectSiblingsClosedForm(d1, ids, offerId);
    FarmerKeyKind(uid);
    CompanyKeyKind(cid);
    OfferKeyKind(offerId);
    ListingKeyKind(lid);
    assert FarmerKey(uid) !in SiblingKeys(ids, offerId) by {
      if FarmerKey(uid) in SiblingKeys(ids, offerId) {
        var x :| x in ids && x != offerId && FarmerKey(uid) == OfferKey(x);
        OfferKeyKind(x);
      }
    }
    assert CompanyKey(cid) !in SiblingKeys(ids, offerId) by {
      if CompanyKey(cid) in SiblingKeys(ids, offerId) {
        var x :| x in ids && x != offerId && CompanyKey(cid) == OfferKey(x);
        OfferKeyKind(x);
      }
    }
  }

  /** The store the accept branch leaves when the contact step throws still has what the branch guarantees. */
  lemma AcceptWritesGuarantees(d: Store, offerId: string, o: Offer, l: Listing)
    requires WellShaped(d)
    ensures AcceptedStore(d, AcceptWrites(d, offerId, o, l), offerId, o, l)
  {
    AcceptWritesEffect(d, offerId, o, l);
  }

  /** Storing the offer again with its contact cards keeps what the branch guarantees. */
  lemma AcceptedStoreAfterContacts(d: Store, offerId: string, o: Offer, l: Listing, x: Offer)
    requires WellShaped(d)
    ensures AcceptedStore(d, AcceptWrites(d, offerId, o, l)[OfferKey(offerId) := OfferRec(x)], offerId, o, l)
  {
    AcceptWritesEffect(d, offerId, o, l);
    OfferKeyKind(offerId);
    ListingKeyKind(o.listingId);
    forall id | id in GetIds(d, ListingOffersKey(o.listingId)) && id != offerId
      ensures OfferKey(id) != OfferKey(offerId)
    {
      KeysInjective(id, offerId);
    }
  }

  // ---------------------------------------------------------------- the active-listings query

  /** A key the `listing:` prefix scan returns whose listing is `active`. */
  predicate ActiveListingKey(d: Store, k: string) {
    k in d && HasPrefix(k, "listing:") && d[k].ListingRec? && d[k].listing.status == "active"
  }

  /** Newest first, as the comparator at :513 orders them. */
  predicate NewestFirst(ls: seq<Listing>) {
    forall i, j :: 0 <= i < j < |ls| ==> ls[i].createdAt >= ls[j].createdAt
  }

  /** `s` with `x` inserted at position `j`. */
  function InsertAt<T(!new)>(s: seq<T>, j: nat, x: T): (r: seq<T>)
    requires j <= |s|
    ensures |r| == |s| + 1 && r[j] == x
    ensures forall i :: 0 <= i < j ==> r[i] == s[i]
    ensures forall i :: j < i < |r| ==> r[i] == s[i - 1]
    ensures forall y :: y in r <==> y in s || y == x
  {
    s[..j] + [x] + s[j..]
  }

  /** Inserting at the position `InsertPosition` finds keeps a sequence newest first. */
  lemma InsertKeepsNewestFirst(ls: seq<Listing>, j: nat, l: Listing)
    requires NewestFirst(ls) && j <= |ls|
    requires forall i :: 0 <= i < j ==> ls[i].createdAt >= l.createdAt
    requires forall i :: j <= i < |ls| ==> ls[i].createdAt < l.createdAt
    ensures NewestFirst(InsertAt(ls, j, l))
  {
  }

  /** The first position in a newest-first sequence whose listing is older than `t`. */
  method InsertPosition(ls: seq<Listing>, t: int) returns (j: nat)
    requires NewestFirst(ls)
    ensures j <= |ls|
    ensures forall i :: 0 <= i < j ==> ls[i].createdAt >= t
    ensures forall i :: j <= i < |ls| ==> ls[i].createdAt < t
  {
    j := 0;
    while j < |ls| && ls[j].createdAt >= t
      invariant j <= |ls|
      invariant forall i :: 0 <= i < j ==> ls[i].createdAt >= t
    {
      j := j + 1;
    }
  }

  // ---------------------------------------------------------------- the store

  /**
    After `POST /listings` (:488-491) the farmer's own query, `GET /listings/farmer`, ends with the
    new listing: its id is appended last to the farmer's index.
   */
  lemma CreatedListingQueriedLast(d: Store, uid: string, id: string, l: Listing)
    ensures var w := d[ListingKey(id) := ListingRec(l)][FarmerListingsKey(uid) := IdList(GetIds(d, FarmerListingsKey(uid)) + [id])];
            && GetIds(w, FarmerListingsKey(uid)) == GetIds(d, FarmerListingsKey(uid)) + [id]
            && Resolve(GetIds(w, FarmerListingsKey(uid)), ListingFetcher(w))
               == Resolve(GetIds(d, FarmerListingsKey(uid)), ListingFetcher(w)) + [l]
  {
    var w := d[ListingKey(id) := ListingRec(l)][FarmerListingsKey(uid) := IdList(GetIds(d, FarmerListingsKey(uid)) + [id])];
    FarmerListingsKeyKind(uid);
    ListingKeyKind(id);
    assert ListingFetcher(w)(id) == Some(l);
    ResolveAppend(GetIds(d, FarmerListingsKey(uid)), id, ListingFetcher(w));
  }

  class Marketplace {
    /** The key-value table behind `kv.get`, `kv.set`, `kv.del` and `kv.getByPrefix`. */
    var data: Store

    ghost predicate Valid()
      reads this
    {
      WellShaped(data)
    }

    constructor ()
      ensures Valid() && data == map[]
    {
      data := map[];
    }

    // ------------------------------------------------------------ listings

    /** `POST /listings` (:453-499). */
    method CreateListing(caller: Option<User>, listingId: string, imageUrl: string, analysis: Analysis,
                         quantity: real, sellingPrice: real, now: int) returns (reply: Reply<Listing>)
      requires Valid()
      modifies this
      ensures Valid()
      ensures !IsFarmer(caller) ==> reply == Unauthorized && data == old(data)
      ensures IsFarmer(caller) && GetFarmer(old(data), caller.value.id).None? ==>
                reply == ServerError && data == old(data)
      ensures IsFarmer(caller) && GetFarmer(old(data), caller.value.id).Some? ==>
                var uid := caller.value.id;
                var farmer := GetFarmer(old(data), uid).value;
                && reply.Ok?
                && reply.value.id == listingId && reply.value.farmerId == uid
                && reply.value.farmerName == farmer.name && reply.value.farmerLocation == FarmerLocation(farmer)
                && reply.value.imageUrl == imageUrl && reply.value.analysis == analysis
                && reply.value.quantity == quantity && reply.value.availableQuantity == quantity
                && reply.value.pricePerKg == sellingPrice
                && reply.value.totalValue == quantity * sellingPrice * 1000.0
                && reply.value.status == "active" && reply.value.createdAt == now
                && data == old(data)[ListingKey(listingId) := ListingRec(reply.value)]
                                    [FarmerListingsKey(uid) := IdList(GetIds(old(data), FarmerListingsKey(uid)) + [listingId])]
                && GetListing(data, listingId) == Some(reply.value)
                && GetIds(data, FarmerListingsKey(uid)) == GetIds(old(data), FarmerListingsKey(uid)) + [listingId]
    {
      if !IsFarmer(caller) {
        return Unauthorized;
      }
      var uid := caller.value.id;
      var farmer := GetFarmer(data, uid);
      if farmer.None? {
        return ServerError;
      }
      var listing := NewListing(listingId, uid, farmer.value, imageUrl, analysis, quantity, sellingPrice, now);
      ListingKeyKind(listingId);
      FarmerListingsKeyKind(uid);
      PutKeepsShape(data, ListingKey(listingId), ListingRec(listing));
      data := data[ListingKey(listingId) := ListingRec(listing)];
      var ids := GetIds(data, FarmerListingsKey(uid));
      PutKeepsShape(data, FarmerListingsKey(uid), IdList(ids + [listingId]));
      data := data[FarmerListingsKey(uid) := IdList(ids + [listingId])];
      return Ok(listing);
    }

    /**
      `GET /listings` (:502-521): every stored listing whose status is `active`, newest first.
      `keys` names the store key each returned listing came from; the store's own scan order,
      which only decides the order among equally old listings, is left open.
     */
    method ActiveListings(caller: Option<User>) returns (reply: Reply<seq<Listing>>, ghost keys: seq<string>)
      requires Valid()
      ensures caller.None? ==> reply == Unauthorized
      ensures caller.Some? ==> reply.Ok?
      ensures reply.Ok? ==>
                && |keys| == |reply.value|
                && (forall i :: 0 <= i < |keys| ==> keys[i] in data && data[keys[i]] == ListingRec(reply.value[i]))
                && (forall i, j :: 0 <= i < j < |keys| ==> keys[i] != keys[j])
                && (forall k :: ActiveListingKey(data, k) <==> k in keys)
                && (forall i :: 0 <= i < |reply.value| ==> reply.value[i].status == "active")
                && NewestFirst(reply.value)
    {
      keys := [];
      if caller.None? {
        return Unauthorized, keys;
      }
      var listings: seq<Listing> := [];
      var remaining := data.Keys;
      while remaining != {}
        invariant remaining <= data.Keys
        invariant |keys| == |listings|
        invariant forall i :: 0 <= i < |keys| ==> keys[i] in data && keys[i] !in remaining && data[keys[i]] == ListingRec(listings[i])
        invariant forall i, j :: 0 <= i < j < |keys| ==> keys[i] != keys[j]
        invariant forall k :: (ActiveListingKey(data, k) && k !in remaining) <==> k in keys
        invariant forall i :: 0 <= i < |listings| ==> listings[i].status == "active"
        invariant NewestFirst(listings)
        decreases remaining
      {
        var k :| k in remaining;
        remaining := remaining - {k};
        if HasPrefix(k, "listing:") && data[k].ListingRec? && data[k].listing.status == "active" {
          var l := data[k].listing;
          var j := InsertPosition(listings, l.createdAt);
          InsertKeepsNewestFirst(listings, j, l);
          listings := InsertAt(listings, j, l);
          keys := InsertAt(keys, j, k);
        }
      }
      return Ok(listings), keys;
    }

    /**
      `GET /listings/farmer` (:524-541): the caller's own listings in index order; an id whose
      listing is gone is skipped.
     */
    function FarmerListings(caller: Option<User>): (reply: Reply<seq<Listing>>)
      reads this
      ensures reply.Ok? <==> IsFarmer(caller)
      ensures !IsFarmer(caller) ==> reply == Unauthorized
      ensures reply.Ok? ==>
                var ids := GetIds(data, FarmerListingsKey(caller.value.id));
                && |reply.value| <= |ids|
                && (forall l :: l in reply.value ==> exists id :: id in ids && GetListing(data, id) == Some(l))
                && (forall i :: 0 <= i < |ids| && GetListing(data, ids[i]).Some? ==> GetListing(data, ids[i]).value in reply.value)
                && |reply.value| == |Present(ids, ListingFetcher(data))|
                && (forall k :: 0 <= k < |reply.value| ==>
                      GetListing(data, Present(ids, ListingFetcher(data))[k]) == Some(reply.value[k]))
    {
      if !IsFarmer(caller) then Unauthorized
      else
        var ids := GetIds(data, FarmerListingsKey(caller.value.id));
        ResolveInOrder(ids, ListingFetcher(data));
        ResolveKeepsPresent(ids, ListingFetcher(data));
        Ok(Resolve(ids, ListingFetcher(data)))
    }

    /** `PUT /listings/:id/status` (:544-571): any status string is accepted, whatever the current one. */
    method UpdateListingStatus(caller: Option<User>, listingId: string, status: string) returns (reply: Reply<Listing>)
      requires Valid()
      modifies this
      ensures Valid()
      ensures !IsFarmer(caller) ==> reply == Unauthorized && data == old(data)
      ensures IsFarmer(caller) && GetListing(old(data), listingId).None? ==> reply == NotFound && data == old(data)
      ensures IsFarmer(caller) && GetListing(old(data), listingId).Some?
              && GetListing(old(data), listingId).value.farmerId != caller.value.id ==>
                reply == Forbidden && data == old(data)
      ensures IsFarmer(caller) && GetListing(old(data), listingId).Some?
              && GetListing(old(data), listingId).value.farmerId == caller.value.id ==>
                var l := GetListing(old(data), listingId).value;
                && reply == Ok(l.(status := status))
                && data == old(data)[ListingKey(listingId) := ListingRec(l.(status := status))]
    {
      if !IsFarmer(caller) {
        return Unauthorized;
      }
      var found := GetListing(data, listingId);
      if found.None? {
        return NotFound;
      }
      if found.value.farmerId != caller.value.id {
        return Forbidden;
      }
      var l := found.value.(status := status);
      ListingKeyKind(listingId);
      PutKeepsShape(data, ListingKey(listingId), ListingRec(l));
      data := data[ListingKey(listingId) := ListingRec(l)];
      return Ok(l);
    }

    // ------------------------------------------------------------ offers

    /** `POST /offers` (:576-625). */
    method CreateOffer(caller: Option<User>, listingId: string, offerId: string,
                       quantity: real, pricePerKg: real, now: int) returns (reply: Reply<Offer>)
      requires Valid()
      modifies this
      ensures Valid()
      ensures !IsCompany(caller) ==> reply == Unauthorized && data == old(data)
      ensures IsCompany(caller) && (GetListing(old(data), listingId).None? || GetListing(old(data), listingId).value.status != "active") ==>
                reply == NotFound && data == old(data)
      ensures IsCompany(caller) && GetListing(old(data), listingId).Some? && GetListing(old(data), listingId).value.status == "active"
              && quantity > GetListing(old(data), listingId).value.availableQuantity ==>
                reply == BadRequest("Quantity exceeds available amount") && data == old(data)
      ensures IsCompany(caller) && GetListing(old(data), listingId).Some? && GetListing(old(data), listingId).value.status == "active"
              && quantity <= GetListing(old(data), listingId).value.availableQuantity
              && GetCompany(old(data), caller.value.id).None? ==>
                reply == ServerError && data == old(data)
      ensures IsCompany(caller) && GetListing(old(data), listingId).Some? && GetListing(old(data), listingId).value.status == "active"
              && quantity <= GetListing(old(data), listingId).value.availableQuantity
              && GetCompany(old(data), caller.value.id).Some? ==>
                var listing := GetListing(old(data), listingId).value;
                var company := GetCompany(old(data), caller.value.id).value;
                && reply.Ok?
                && reply.value.id == offerId && reply.value.listingId == listingId
                && reply.value.companyId == caller.value.id
                && reply.value.companyName == company.companyName && reply.value.companyLocation == company.address
                && reply.value.farmerId == listing.farmerId && reply.value.farmerName == listing.farmerName
                && reply.value.quantity == quantity && reply.value.pricePerKg == pricePerKg
                && reply.value.totalAmount == quantity * pricePerKg * 1000.0
                && reply.value.status == "pending" && reply.value.createdAt == now
                && reply.value.statusChangedAt.None? && reply.value.cancelledAt.None?
                && reply.value.farmerContact.None? && reply.value.companyContact.None?
                && data == old(data)[OfferKey(offerId) := OfferRec(reply.value)]
                                    [ListingOffersKey(listingId) := IdList(GetIds(old(data), ListingOffersKey(listingId)) + [offerId])]
                && GetListing(data, listingId) == GetListing(old(data), listingId)
                && GetIds(data, ListingOffersKey(listingId)) == GetIds(old(data), ListingOffersKey(listingId)) + [offerId]
    {
      if !IsCompany(caller) {
        return Unauthorized;
      }
      var listing := GetListing(data, listingId);
      if listing.None? || listing.value.status != "active" {
        return NotFound;
      }
      if quantity > listing.value.availableQuantity {
        return BadRequest("Quantity exceeds available amount");
      }
      var company := GetCompany(data, caller.value.id);
      if company.None? {
        return ServerError;
      }
      var offer := NewOffer(offerId, listingId, caller.value.id, company.value, listing.value, quantity, pricePerKg, now);
      OfferKeyKind(offerId);
      ListingOffersKeyKind(listingId);
      ListingKeyKind(listingId);
      PutKeepsShape(data, OfferKey(offerId), OfferRec(offer));
      data := data[OfferKey(offerId) := OfferRec(offer)];
      var ids := GetIds(data, ListingOffersKey(listingId));
      PutKeepsShape(data, ListingOffersKey(listingId), IdList(ids + [offerId]));
      data := data[ListingOffersKey(listingId) := IdList(ids + [offerId])];
      return Ok(offer);
    }

    /** `GET /listings/:id/offers` (:628-657): only the owning farmer sees them; ids without a record are skipped. */
    function ListingOffers(caller: Option<User>, listingId: string): (reply: Reply<seq<Offer>>)
      reads this
      ensures caller.None? <==> reply == Unauthorized
      ensures reply == NotFound <==> caller.Some? && GetListing(data, listingId).None?
      ensures reply == Forbidden <==>
                caller.Some? && GetListing(data, listingId).Some? && GetListing(data, listingId).value.farmerId != caller.value.id
      ensures reply.Ok? ==>
                var ids := GetIds(data, ListingOffersKey(listingId));
                && |reply.value| <= |ids|
                && (forall o :: o in reply.value ==> exists id :: id in ids && GetOffer(data, id) == Some(o))
                && (forall i :: 0 <= i < |ids| && GetOffer(data, ids[i]).Some? ==> GetOffer(data, ids[i]).value in reply.value)
                && |reply.value| == |Present(ids, OfferFetcher(data))|
                && (forall k :: 0 <= k < |reply.value| ==>
                      GetOffer(data, Present(ids, OfferFetcher(data))[k]) == Some(reply.value[k]))
    {
      if caller.None? then Unauthorized
      else
        var listing := GetListing(data, listingId);
        if listing.None? then NotFound
        else if listing.value.farmerId != caller.value.id then Forbidden
        else
          var ids := GetIds(data, ListingOffersKey(listingId));
          ResolveInOrder(ids, OfferFetcher(data));
          ResolveKeepsPresent(ids, OfferFetcher(data));
          Ok(Resolve(ids, OfferFetcher(data)))
    }

    /**
      `PUT /offers/:id` (:660-731). The farmer who owns the offer may set any status, whatever
      the offer's current status; only `accepted` has further effects, and none of them re-checks
      the quantity still available. A missing listing or profile makes the handler throw after the
      writes it has already made.
     */
    method RespondToOffer(caller: Option<User>, offerId: string, status: string, now: int) returns (reply: Reply<Offer>)
      requires Valid()
      modifies this
      ensures Valid()
      ensures !IsFarmer(caller) ==> reply == Unauthorized && data == old(data)
      ensures IsFarmer(caller) && GetOffer(old(data), offerId).None? ==> reply == NotFound && data == old(data)
      ensures IsFarmer(caller) && GetOffer(old(data), offerId).Some?
              && GetOffer(old(data), offerId).value.farmerId != caller.value.id ==>
                reply == Forbidden && data == old(data)
      ensures IsFarmer(caller) && GetOffer(old(data), offerId).Some?
              && GetOffer(old(data), offerId).value.farmerId == caller.value.id ==>
                var o := Responded(GetOffer(old(data), offerId).value, status, now);
                var l := GetListing(old(data), o.listingId);
                && (status != "accepted" ==>
                      reply == Ok(o) && data == old(data)[OfferKey(offerId) := OfferRec(o)])
                && (status == "accepted" && l.None? ==>
                      reply == ServerError && data == old(data)[OfferKey(offerId) := OfferRec(o)])
                && (status == "accepted" && l.Some? ==>
                      var f := GetFarmer(old(data), caller.value.id);
                      var c := GetCompany(old(data), o.companyId);
                      var written := AcceptWrites(old(data), offerId, o, l.value);
                      && AcceptedStore(old(data), data, offerId, o, l.value)
                      && (f.None? || c.None? ==> reply == ServerError && data == written)
                      && (f.Some? && c.Some? ==>
                            && reply == Ok(o.(farmerContact := Some(FarmerContact(f.value)),
                                              companyContact := Some(CompanyContact(c.value))))
                            && data == written[OfferKey(offerId) := OfferRec(reply.value)]))
    {
      if !IsFarmer(caller) {
        return Unauthorized;
      }
      var uid := caller.value.id;
      var found := GetOffer(data, offerId);
      if found.None? {
        return NotFound;
      }
      if found.value.farmerId != uid {
        return Forbidden;
      }
      var offer := Responded(found.value, status, now);
      if status == "accepted" {
        reply := AcceptOffer(uid, offerId, offer);
      } else {
        OfferKeyKind(offerId);
        PutKeepsShape(data, OfferKey(offerId), OfferRec(offer));
        data := data[OfferKey(offerId) := OfferRec(offer)];
        reply := Ok(offer);
      }
    }

    /** Lines 681-723 for an accepted offer: store it, then run the accept branch. */
    method AcceptOffer(uid: string, offerId: string, offer: Offer) returns (reply: Reply<Offer>)
      requires Valid()
      modifies this
      ensures Valid()
      ensures GetListing(old(data), offer.listingId).None? ==>
                reply == ServerError && data == old(data)[OfferKey(offerId) := OfferRec(offer)]
      ensures GetListing(old(data), offer.listingId).Some? ==>
                var l := GetListing(old(data), offer.listingId).value;
                var f := GetFarmer(old(data), uid);
                var c := GetCompany(old(data), offer.companyId);
                var written := AcceptWrites(old(data), offerId, offer, l);
                && AcceptedStore(old(data), data, offerId, offer, l)
                && (f.None? || c.None? ==> reply == ServerError && data == written)
                && (f.Some? && c.Some? ==>
                      && reply == Ok(offer.(farmerContact := Some(FarmerContact(f.value)),
                                            companyContact := Some(CompanyContact(c.value))))
                      && data == written[OfferKey(offerId) := OfferRec(reply.value)])
    {
      ghost var d0 := data;
      OfferKeyKind(offerId);
      PutKeepsShape(data, OfferKey(offerId), OfferRec(offer));
      data := data[OfferKey(offerId) := OfferRec(offer)];
      AcceptWritesOverwrite(d0, offerId, offer);
      FarmerKeyKind(uid);
      CompanyKeyKind(offer.companyId);
      reply := ApplyAcceptance(uid, offerId, offer);
      if GetListing(d0, offer.listingId).Some? {
        var l := GetListing(d0, offer.listingId).value;
        AcceptWritesGuarantees(d0, offerId, offer, l);
        if reply.Ok? {
          AcceptedStoreAfterContacts(d0, offerId, offer, l, reply.value);
        }
      }
    }

    /** The loop at :696-704: each listed offer other than the accepted one that is pending becomes rejected. */
    method RejectPendingSiblings(ids: seq<string>, accepted: string)
      modifies this
      ensures data == RejectSiblings(old(data), ids, accepted)
    {
      ghost var d1 := data;
      var i := 0;
      while i < |ids|
        invariant 0 <= i <= |ids|
        invariant data == RejectSiblings(d1, ids[..i], accepted)
      {
        var id := ids[i];
        ghost var before := data;
        if id != accepted {
          var other := GetOffer(data, id);
          if other.Some? && other.value.status == "pending" {
            data := data[OfferKey(id) := OfferRec(other.value.(status := "rejected"))];
          }
        }
        assert data == RejectSibling(before, id, accepted);
        assert ids[..i + 1] == ids[..i] + [id];
        RejectSiblingsSnoc(d1, ids[..i], id, accepted);
        i := i + 1;
      }
      assert ids[..|ids|] == ids;
    }

    /**
      Lines 684-723, entered with the accepted offer already stored: reduce the listing, reject
      the pending siblings, then attach both contact cards and store the offer again.
     */
    method ApplyAcceptance(uid: string, offerId: string, offer: Offer) returns (reply: Reply<Offer>)
      requires Valid() && GetOffer(data, offerId) == Some(offer)
      modifies this
      ensures Valid()
      ensures GetListing(old(data), offer.listingId).None? ==> reply == ServerError && data == old(data)
      ensures GetListing(old(data), offer.listingId).Some? ==>
                var written := AcceptWrites(old(data), offerId, offer, GetListing(old(data), offer.listingId).value);
                var f := GetFarmer(old(data), uid);
                var c := GetCompany(old(data), offer.companyId);
                && (f.None? || c.None? ==> reply == ServerError && data == written)
                && (f.Some? && c.Some? ==>
                      && reply == Ok(offer.(farmerContact := Some(FarmerContact(f.value)),
                                            companyContact := Some(CompanyContact(c.value))))
                      && data == written[OfferKey(offerId) := OfferRec(reply.value)])
    {
      ghost var d0 := data;
      var lid := offer.listingId;
      var listing := GetListing(data, lid);
      if listing.None? {
        return ServerError;
      }
      data := data[ListingKey(lid) := ListingRec(ListingAfterAccept(listing.value, offer.quantity))];
      ListingKeyKind(lid);
      ListingOffersKeyKind(lid);
      var ids := GetIds(data, ListingOffersKey(lid));
      assert ids == GetIds(d0, ListingOffersKey(lid));
      ghost var d1 := data;
      assert d1 == d0[OfferKey(offerId) := OfferRec(offer)][ListingKey(lid) := ListingRec(ListingAfterAccept(listing.value, offer.quantity))];
      RejectPendingSiblings(ids, offerId);
      AcceptWritesEffect(d0, offerId, offer, listing.value);
      AcceptKeepsProfiles(d0, offerId, offer, listing.value, uid, offer.companyId);
      var farmer := GetFarmer(data, uid);
      var company := GetCompany(data, offer.companyId);
      if farmer.None? || company.None? {
        return ServerError;
      }
      var shared := offer.(farmerContact := Some(FarmerContact(farmer.value)), companyContact := Some(CompanyContact(company.value)));
      OfferKeyKind(offerId);
      PutKeepsShape(data, OfferKey(offerId), OfferRec(shared));
      data := data[OfferKey(offerId) := OfferRec(shared)];
      return Ok(shared);
    }

    // ------------------------------------------------------------ reports

    /** `POST /reports` (:736-766): any signed-in user may report anyone. */
    method CreateReport(caller: Option<User>, reportId: string, reportedUserId: string, reportedUserName: string,
                        reportedUserType: string, reason: string, description: string, now: int)
      returns (reply: Reply<Report>)
      requires Valid()
      modifies this
      ensures Valid()
      ensures caller.None? ==> reply == Unauthorized && data == old(data)
      ensures caller.Some? ==>
                && reply.Ok?
                && reply.value == Report(reportId, caller.value.id, reportedUserId, reportedUserName, reportedUserType,
                                         reason, description, "pending", now, None)
                && data == old(data)[ReportKey(reportId) := ReportRec(reply.value)]
    {
      if caller.None? {
        return Unauthorized;
      }
      var report := Report(reportId, caller.value.id, reportedUserId, reportedUserName, reportedUserType,
                           reason, description, "pending", now, None);
      ReportKeyKind(reportId);
      PutKeepsShape(data, ReportKey(reportId), ReportRec(report));
      data := data[ReportKey(reportId) := ReportRec(report)];
      return Ok(report);
    }

    /** `PUT /admin/reports/:id` (:942-967): the action string becomes the status. */
    method ResolveReport(caller: Option<User>, reportId: string, action: string, now: int) returns (reply: Reply<Report>)
      requires Valid()
      modifies this
      ensures Valid()
      ensures !IsAdmin(caller) ==> reply == Unauthorized && data == old(data)
      ensures IsAdmin(caller) && GetReport(old(data), reportId).None? ==> reply == NotFound && data == old(data)
      ensures IsAdmin(caller) && GetReport(old(data), reportId).Some? ==>
                var r := GetReport(old(data), reportId).value;
                && reply == Ok(r.(status := action, resolvedAt := Some(now)))
                && data == old(data)[ReportKey(reportId) := ReportRec(reply.value)]
    {
      if !IsAdmin(caller) {
        return Unauthorized;
      }
      var found := GetReport(data, reportId);
      if found.None? {
        return NotFound;
      }
      var report := found.value.(status := action, resolvedAt := Some(now));
      ReportKeyKind(reportId);
      PutKeepsShape(data, ReportKey(reportId), ReportRec(report));
      data := data[ReportKey(reportId) := ReportRec(report)];
      return Ok(report);
    }

    // ------------------------------------------------------------ admin

    /** `DELETE /admin/users/:id` (:804-826): both profile keys go; the identity provider's answer is ignored. */
    method DeleteUser(caller: Option<User>, userId: string) returns (reply: Reply<()>)
      requires Valid()
      modifies this
      ensures Valid()
      ensures !IsAdmin(caller) ==> reply == Unauthorized && data == old(data)
      ensures IsAdmin(caller) ==> reply == Ok(()) && data == old(data) - {FarmerKey(userId), CompanyKey(userId)}
    {
      if !IsAdmin(caller) {
        return Unauthorized;
      }
      data := data - {FarmerKey(userId), CompanyKey(userId)};
      return Ok(());
    }

    /**
      `DELETE /admin/listings/:id` (:848-864): only the listing record goes, and the reply is a
      success whether or not it existed. Its id stays in every index array that holds it.
     */
    method DeleteListing(caller: Option<User>, listingId: string) returns (reply: Reply<()>)
      requires Valid()
      modifies this
      ensures Valid()
      ensures !IsAdmin(caller) ==> reply == Unauthorized && data == old(data)
      ensures IsAdmin(caller) ==>
                && reply == Ok(())
                && data == old(data) - {ListingKey(listingId)}
                && GetListing(data, listingId).None?
                && (forall id :: GetIds(data, FarmerListingsKey(id)) == GetIds(old(data), FarmerListingsKey(id)))
                && (forall id :: GetIds(data, ListingOffersKey(id)) == GetIds(old(data), ListingOffersKey(id)))
    {
      if !IsAdmin(caller) {
        return Unauthorized;
      }
      forall id ensures FarmerListingsKey(id) != ListingKey(listingId) && ListingOffersKey(id) != ListingKey(listingId) {
        FarmerListingsKeyKind(id);
        ListingOffersKeyKind(id);
        ListingKeyKind(listingId);
      }
      data := data - {ListingKey(listingId)};
      return Ok(());
    }

    /**
      `PUT /admin/offers/:id/cancel` (:886-920), as written: the status is overwritten before it
      is tested, so the restore branch never runs and no listing changes.
     */
    method CancelDeal(caller: Option<User>, offerId: string, now: int) returns (reply: Reply<Offer>)
      requires Valid()
      modifies this
      ensures Valid()
      ensures !IsAdmin(caller) ==> reply == Unauthorized && data == old(data)
      ensures IsAdmin(caller) && GetOffer(old(data), offerId).None? ==> reply == NotFound && data == old(data)
      ensures IsAdmin(caller) && GetOffer(old(data), offerId).Some? ==>
                var o := GetOffer(old(data), offerId).value;
                && reply == Ok(CancelledOffer(o, now))
                && data == old(data)[OfferKey(offerId) := OfferRec(CancelledOffer(o, now))]
                && (forall id :: GetListing(data, id) == GetListing(old(data), id))
    {
      if !IsAdmin(caller) {
        return Unauthorized;
      }
      var found := GetOffer(data, offerId);
      if found.None? {
        return NotFound;
      }
      var offer := CancelledOffer(found.value, now);
      OfferKeyKind(offerId);
      PutKeepsShape(data, OfferKey(offerId), OfferRec(offer));
      forall id ensures ListingKey(id) != OfferKey(offerId) {
        ListingKeyKind(id);
      }
      data := data[OfferKey(offerId) := OfferRec(offer)];
      data := RestoreIfAccepted(data, offer);
      return Ok(offer);
    }

    /**
      The cancel route with the restore test reading the offer's status as stored, before the
      overwrite: a cancelled acceptance gives its quantity back and re-activates the listing.
     */
    method CancelDealRestoring(caller: Option<User>, offerId: string, now: int) returns (reply: Reply<Offer>)
      requires Valid()
      modifies this
      ensures Valid()
      ensures !IsAdmin(caller) ==> reply == Unauthorized && data == old(data)
      ensures IsAdmin(caller) && GetOffer(old(data), offerId).None? ==> reply == NotFound && data == old(data)
      ensures IsAdmin(caller) && GetOffer(old(data), offerId).Some? ==>
                var o := GetOffer(old(data), offerId).value;
                && reply == Ok(CancelledOffer(o, now))
                && data == RestoreIfAccepted(old(data)[OfferKey(offerId) := OfferRec(CancelledOffer(o, now))], o)
                && (o.status == "accepted" && GetListing(old(data), o.listingId).Some? ==>
                      GetListing(data, o.listingId) == Some(RestoredListing(GetListing(old(data), o.listingId).value, o.quantity)))
                && (o.status != "accepted" ==> forall id :: GetListing(data, id) == GetListing(old(data), id))
    {
      if !IsAdmin(caller) {
        return Unauthorized;
      }
      var found := GetOffer(data, offerId);
      if found.None? {
        return NotFound;
      }
      var offer := CancelledOffer(found.value, now);
      OfferKeyKind(offerId);
      ListingKeyKind(found.value.listingId);
      PutKeepsShape(data, OfferKey(offerId), OfferRec(offer));
      forall id ensures ListingKey(id) != OfferKey(offerId) {
        ListingKeyKind(id);
      }
      data := data[OfferKey(offerId) := OfferRec(offer)];
      data := RestoreIfAccepted(data, found.value);
      return Ok(offer);
    }

    // ------------------------------------------------------------ one-time codes

    /** `POST /auth/send-verification-otp` (:255-281): both codes are stored with their issue time. */
    method SendVerificationOtp(userId: string, phoneOtp: string, emailOtp: string, now: int) returns (reply: Reply<()>)
      requires Valid()
      modifies this
      ensures Valid()
      ensures reply == Ok(())
      ensures data == old(data)[OtpKey("phone", userId) := OtpObject(Some(phoneOtp), Some(now))]
                               [OtpKey("email", userId) := OtpObject(Some(emailOtp), Some(now))]
    {
      OtpKeyKind("phone", userId);
      OtpKeyKind("email", userId);
      data := data[OtpKey("phone", userId) := OtpObject(Some(phoneOtp), Some(now))];
      data := data[OtpKey("email", userId) := OtpObject(Some(emailOtp), Some(now))];
      return Ok(());
    }

    /** `POST /auth/verify-otp` (:284-340): the entry goes on success and on expiry, and stays otherwise. */
    method VerifyOtp(userId: string, kind: string, input: string, now: int) returns (reply: Reply<()>)
      requires Valid()
      modifies this
      ensures Valid()
      ensures reply.Ok? <==> Check(Lookup(old(data), OtpKey(kind, userId)), input, now) == Verified
      ensures Check(Lookup(old(data), OtpKey(kind, userId)), input, now) == Missing ==> reply == BadRequest("OTP not found or expired")
      ensures Check(Lookup(old(data), OtpKey(kind, userId)), input, now) == Malformed ==> reply == BadRequest("Invalid OTP data")
      ensures Check(Lookup(old(data), OtpKey(kind, userId)), input, now) == Mismatch ==> reply == BadRequest("Invalid OTP")
      ensures Check(Lookup(old(data), OtpKey(kind, userId)), input, now) == Expired ==> reply == BadRequest("OTP expired")
      ensures data == if Consumes(Check(Lookup(old(data), OtpKey(kind, userId)), input, now))
                      then old(data) - {OtpKey(kind, userId)} else old(data)
    {
      var key := OtpKey(kind, userId);
      var outcome := Check(Lookup(data, key), input, now);
      match outcome {
        case Missing => reply := BadRequest("OTP not found or expired");
        case Malformed => reply := BadRequest("Invalid OTP data");
        case Mismatch => reply := BadRequest("Invalid OTP");
        case Expired =>
          data := data - {key};
          reply := BadRequest("OTP expired");
        case Verified =>
          data := data - {key};
          reply := Ok(());
      }
    }

    /** `POST /auth/forgot-password/send-otp` (:343-361): the reset code is stored as a bare string. */
    method ForgotPasswordSendOtp(identifier: string, otp: string) returns (reply: Reply<()>)
      requires Valid()
      modifies this
      ensures Valid()
      ensures reply == Ok(()) && data == old(data)[ResetOtpKey(identifier) := OtpText(otp)]
      ensures forall input :: ForgotPasswordVerifyOtp(identifier, input).Ok? <==> otp != "" && input == otp
    {
      ResetOtpKeyKind(identifier);
      data := data[ResetOtpKey(identifier) := OtpText(otp)];
      return Ok(());
    }

    /** `POST /auth/forgot-password/verify-otp` (:364-380): checks the code and leaves it in place. */
    function ForgotPasswordVerifyOtp(identifier: string, otp: string): (reply: Reply<()>)
      reads this
      ensures reply.Ok? ==> otp != "" && Lookup(data, ResetOtpKey(identifier)) == Some(OtpText(otp))
      ensures forall code :: Lookup(data, ResetOtpKey(identifier)) == Some(OtpText(code)) && code != "" ==>
                (reply.Ok? <==> otp == code)
      ensures Lookup(data, ResetOtpKey(identifier)).None? ==> reply == BadRequest("Invalid OTP")
      ensures !reply.Ok? ==> reply == BadRequest("Invalid OTP")
    {
      if ResetCodeUsable(data, identifier, otp) then Ok(()) else BadRequest("Invalid OTP")
    }

    /**
      `POST /auth/forgot-password/reset` (:383-426). `updateFails` is the identity provider's
      answer to the password update; the code is consumed only after a successful update.
     */
    method ForgotPasswordReset(identifier: string, otp: string, updateFails: bool) returns (reply: Reply<()>)
      requires Valid()
      modifies this
      ensures Valid()
      ensures !ResetCodeUsable(old(data), identifier, otp) ==> reply == BadRequest("Invalid OTP") && data == old(data)
      ensures ResetCodeUsable(old(data), identifier, otp) && !AccountExists(old(data), identifier) ==>
                reply == NotFound && data == old(data)
      ensures ResetCodeUsable(old(data), identifier, otp) && AccountExists(old(data), identifier) && updateFails ==>
                reply == ServerError && data == old(data)
      ensures ResetCodeUsable(old(data), identifier, otp) && AccountExists(old(data), identifier) && !updateFails ==>
                reply == Ok(()) && data == old(data) - {ResetOtpKey(identifier)}
      ensures reply.Ok? ==> forall input :: ForgotPasswordVerifyOtp(identifier, input) == BadRequest("Invalid OTP")
    {
      if !ResetCodeUsable(data, identifier, otp) {
        return BadRequest("Invalid OTP");
      }
      if !AccountExists(data, identifier) {
        return NotFound;
      }
      if updateFails {
        return ServerError;
      }
      data := data - {ResetOtpKey(identifier)};
      return Ok(());
    }
  }

  /**
    The restore branch at :906-913, testing the status of `tested`: the listing the offer names,
    if it is stored, becomes `ListingAfterCancel` of itself; no other key changes.
   */
  function RestoreIfAccepted(d: Store, tested: Offer): (r: Store)
    ensures r.Keys == d.Keys
    ensures tested.status != "accepted" ==> r == d
    ensures forall k :: k in d && k != ListingKey(tested.listingId) ==> r[k] == d[k]
    ensures GetListing(d, tested.listingId).Some? ==>
              GetListing(r, tested.listingId) == Some(ListingAfterCancel(GetListing(d, tested.listingId).value, tested))
  {
    match GetListing(d, tested.listingId)
    case Some(l) =>
      var r := d[ListingKey(tested.listingId) := ListingRec(ListingAfterCancel(l, tested))];
      assert tested.status != "accepted" ==> r == d by {
        if tested.status != "accepted" {
          assert d[ListingKey(tested.listingId)] == ListingRec(l);
        }
      }
      r
    case None => d
  }

  /** After `forgot-password/send-otp` stored `code`, verify and reset accept exactly that code, if it is not empty. */
  lemma SentResetCodeIsTheOnlyCode(d: Store, identifier: string, code: string, input: string)
    ensures ResetCodeUsable(d[ResetOtpKey(identifier) := OtpText(code)], identifier, input) <==> code != "" && input == code
  {
  }

  /** Once a successful reset has consumed the code, no code works for the identifier any more. */
  lemma ConsumedResetCodeIsRefused(d: Store, identifier: string)
    ensures forall input :: !ResetCodeUsable(d - {ResetOtpKey(identifier)}, identifier, input)
  {
  }

  /** Whether a stored profile has `identifier` as its email or phone. */
  predicate ProfileMatches(r: Record, identifier: string) {
    match r
    case FarmerRec(f) => f.email == identifier || f.phone == identifier
    case CompanyRec(c) => c.email == identifier || c.phone == identifier
    case _ => false
  }

  /**
    The test at :371 and :390: a stored code that is present, non-empty and identical to the
    input. There is no trimming and no expiry.
   */
  predicate ResetCodeUsable(d: Store, identifier: string, otp: string) {
    otp != "" && Lookup(d, ResetOtpKey(identifier)) == Some(OtpText(otp))
  }

  /** A farmer or company profile the reset route would find for `identifier` (:397-403). */
  predicate AccountExists(d: Store, identifier: string) {
    exists k :: k in d && (HasPrefix(k, "farmer:") || HasPrefix(k, "company:")) && ProfileMatches(d[k], identifier)
  }
}
