/**
  The records the marketplace server keeps in its key-value store, the string
  keys it files them under, and the shape every handler presumes of them.

  The store is one `map<string, Record>`. Keys are built exactly as the server
  builds them (`listing:<id>`, `offer:<id>`, `farmer_listings:<farmerId>`,
  `otp:<type>:<user>`, ...), so two keys are equal exactly when the source's
  strings are; `KindOf` classifies a key by its prefix, the way the store's
  prefix scan sees it.
 */
module Records {
  import opened Wrappers
  import opened Strings

  // ---------------------------------------------------------------- entities

  /** The quality-assessment fields copied verbatim from the request's `aiAnalysis`. */
  datatype Analysis = Analysis(quality: string, grade: string, moisture: string, color: string,
                               size: string, defects: string, confidence: string)

  /** `listing:<id>`; quantities in tonnes, price per kilogram. */
  datatype Listing = Listing(
    id: string, farmerId: string, farmerName: string, farmerLocation: string, imageUrl: string,
    analysis: Analysis, quantity: real, availableQuantity: real, pricePerKg: real, totalValue: real,
    status: string, createdAt: int)

  /** The contact card shared with the other party when an offer is accepted. */
  datatype Contact = Contact(name: string, phone: string, email: string, location: string)

  /** `offer:<id>`. */
  datatype Offer = Offer(
    id: string, listingId: string, companyId: string, companyName: string, companyLocation: string,
    farmerId: string, farmerName: string, quantity: real, pricePerKg: real, totalAmount: real,
    status: string, createdAt: int, statusChangedAt: Option<int>, cancelledAt: Option<int>,
    farmerContact: Option<Contact>, companyContact: Option<Contact>)

  /** `report:<id>`. */
  datatype Report = Report(
    id: string, reporterId: string, reportedUserId: string, reportedUserName: string,
    reportedUserType: string, reason: string, description: string, status: string,
    createdAt: int, resolvedAt: Option<int>)

  /** `farmer:<id>`: the profile fields the handlers read. Farmer signup stores no address or region. */
  datatype FarmerProfile = FarmerProfile(name: string, phone: string, email: string,
                                         address: Option<string>, region: Option<string>)

  /** `company:<id>`: the profile fields the handlers read. */
  datatype CompanyProfile = CompanyProfile(companyName: string, contactPerson: string, phone: string,
                                           email: string, address: string)

  /** A stored value. OTP entries come in two formats: a bare string and `{otp, timestamp}`. */
  datatype Record =
    | ListingRec(listing: Listing)
    | OfferRec(offer: Offer)
    | ReportRec(report: Report)
    | FarmerRec(farmer: FarmerProfile)
    | CompanyRec(company: CompanyProfile)
    | IdList(ids: seq<string>)
    | OtpText(text: string)
    | OtpObject(otp: Option<string>, timestamp: Option<int>)

  type Store = map<string, Record>

  // ---------------------------------------------------------------- keys

  function ListingKey(id: string): string { "listing:" + id }
  function OfferKey(id: string): string { "offer:" + id }
  function ReportKey(id: string): string { "report:" + id }
  function FarmerKey(id: string): string { "farmer:" + id }
  function CompanyKey(id: string): string { "company:" + id }
  function FarmerListingsKey(farmerId: string): string { "farmer_listings:" + farmerId }
  function ListingOffersKey(listingId: string): string { "listing_offers:" + listingId }
  function OtpKey(kind: string, userId: string): string { "otp:" + kind + ":" + userId }
  function ResetOtpKey(identifier: string): string { "reset-otp:" + identifier }

  datatype Kind = ListingK | OfferK | ReportK | FarmerK | CompanyK | FarmerListingsK | ListingOffersK | OtherK

  /** Which family a key belongs to, by the prefix the store's prefix scan would match. */
  function KindOf(k: string): Kind {
    if HasPrefix(k, "listing:") then ListingK
    else if HasPrefix(k, "listing_offers:") then ListingOffersK
    else if HasPrefix(k, "offer:") then OfferK
    else if HasPrefix(k, "report:") then ReportK
    else if HasPrefix(k, "farmer:") then FarmerK
    else if HasPrefix(k, "farmer_listings:") then FarmerListingsK
    else if HasPrefix(k, "company:") then CompanyK
    else OtherK
  }

  lemma ListingKeyKind(id: string)
    ensures KindOf(ListingKey(id)) == ListingK
  {
    PrefixOfConcat("listing:", id);
  }

  lemma ListingOffersKeyKind(id: string)
    ensures KindOf(ListingOffersKey(id)) == ListingOffersK
  {
    DiffersAt("listing_offers:", id, "listing:", 7);
    PrefixOfConcat("listing_offers:", id);
  }

  lemma OfferKeyKind(id: string)
    ensures KindOf(OfferKey(id)) == OfferK
  {
    DiffersAt("offer:", id, "listing:", 0);
    DiffersAt("offer:", id, "listing_offers:", 0);
    PrefixOfConcat("offer:", id);
  }

  lemma ReportKeyKind(id: string)
    ensures KindOf(ReportKey(id)) == ReportK
  {
    DiffersAt("report:", id, "listing:", 0);
    DiffersAt("report:", id, "listing_offers:", 0);
    DiffersAt("report:", id, "offer:", 0);
    PrefixOfConcat("report:", id);
  }

  lemma FarmerKeyKind(id: string)
    ensures KindOf(FarmerKey(id)) == FarmerK
  {
    DiffersAt("farmer:", id, "listing:", 0);
    DiffersAt("farmer:", id, "listing_offers:", 0);
    DiffersAt("farmer:", id, "offer:", 0);
    DiffersAt("farmer:", id, "report:", 0);
    PrefixOfConcat("farmer:", id);
  }

  lemma FarmerListingsKeyKind(id: string)
    ensures KindOf(FarmerListingsKey(id)) == FarmerListingsK
  {
    DiffersAt("farmer_listings:", id, "listing:", 0);
    DiffersAt("farmer_listings:", id, "listing_offers:", 0);
    DiffersAt("farmer_listings:", id, "offer:", 0);
    DiffersAt("farmer_listings:", id, "report:", 0);
    DiffersAt("farmer_listings:", id, "farmer:", 6);
    PrefixOfConcat("farmer_listings:", id);
  }

  lemma CompanyKeyKind(id: string)
    ensures KindOf(CompanyKey(id)) == CompanyK
  {
    DiffersAt("company:", id, "listing:", 0);
    DiffersAt("company:", id, "listing_offers:", 0);
    DiffersAt("company:", id, "offer:", 0);
    DiffersAt("company:", id, "report:", 0);
    DiffersAt("company:", id, "farmer:", 0);
    DiffersAt("company:", id, "farmer_listings:", 0);
    PrefixOfConcat("company:", id);
  }

  lemma OtpKeyKind(kind: string, userId: string)
    ensures KindOf(OtpKey(kind, userId)) == OtherK
  {
    var x := kind + ":" + userId;
    assert OtpKey(kind, userId) == "otp:" + x;
    DiffersAt("otp:", x, "listing:", 0);
    DiffersAt("otp:", x, "listing_offers:", 0);
    DiffersAt("otp:", x, "offer:", 1);
    DiffersAt("otp:", x, "report:", 0);
    DiffersAt("otp:", x, "farmer:", 0);
    DiffersAt("otp:", x, "farmer_listings:", 0);
    DiffersAt("otp:", x, "company:", 0);
  }

  lemma ResetOtpKeyKind(identifier: string)
    ensures KindOf(ResetOtpKey(identifier)) == OtherK
  {
    DiffersAt("reset-otp:", identifier, "listing:", 0);
    DiffersAt("reset-otp:", identifier, "listing_offers:", 0);
    DiffersAt("reset-otp:", identifier, "offer:", 0);
    DiffersAt("reset-otp:", identifier, "report:", 2);
    DiffersAt("reset-otp:", identifier, "farmer:", 0);
    DiffersAt("reset-otp:", identifier, "farmer_listings:", 0);
    DiffersAt("reset-otp:", identifier, "company:", 0);
  }

  /** Keys of one family are equal only for equal ids. */
  lemma KeysInjective(a: string, b: string)
    ensures ListingKey(a) == ListingKey(b) ==> a == b
    ensures OfferKey(a) == OfferKey(b) ==> a == b
    ensures ReportKey(a) == ReportKey(b) ==> a == b
    ensures FarmerKey(a) == FarmerKey(b) ==> a == b
    ensures CompanyKey(a) == CompanyKey(b) ==> a == b
    ensures FarmerListingsKey(a) == FarmerListingsKey(b) ==> a == b
    ensures ListingOffersKey(a) == ListingOffersKey(b) ==> a == b
  {
    if ListingKey(a) == ListingKey(b) { ConcatInjective("listing:", a, b); }
    if OfferKey(a) == OfferKey(b) { ConcatInjective("offer:", a, b); }
    if ReportKey(a) == ReportKey(b) { ConcatInjective("report:", a, b); }
    if FarmerKey(a) == FarmerKey(b) { ConcatInjective("farmer:", a, b); }
    if CompanyKey(a) == CompanyKey(b) { ConcatInjective("company:", a, b); }
    if FarmerListingsKey(a) == FarmerListingsKey(b) { ConcatInjective("farmer_listings:", a, b); }
    if ListingOffersKey(a) == ListingOffersKey(b) { ConcatInjective("listing_offers:", a, b); }
  }

  // ---------------------------------------------------------------- shape

  /** The record shape each key family carries; OTP and other keys may hold anything. */
  predicate Fits(k: Kind, r: Record) {
    match k
    case ListingK => r.ListingRec?
    case OfferK => r.OfferRec?
    case ReportK => r.ReportRec?
    case FarmerK => r.FarmerRec?
    case CompanyK => r.CompanyRec?
    case FarmerListingsK => r.IdList?
    case ListingOffersK => r.IdList?
    case OtherK => true
  }

  /** Every record sits under a key of its own family: what the handlers' property accesses presume. */
  predicate WellShaped(d: Store) {
    forall k :: k in d ==> Fits(KindOf(k), d[k])
  }

  /** Writing a record of the key's own family keeps the store well shaped. */
  lemma PutKeepsShape(d: Store, k: string, r: Record)
    requires WellShaped(d) && Fits(KindOf(k), r)
    ensures WellShaped(d[k := r])
  {
  }

  // ---------------------------------------------------------------- reads

  /** `kv.get(key)`, `null` for a missing key. */
  function Lookup(d: Store, key: string): Option<Record> {
    if key in d then Some(d[key]) else None
  }

  function GetListing(d: Store, id: string): Option<Listing> {
    var k := ListingKey(id);
    if k in d && d[k].ListingRec? then Some(d[k].listing) else None
  }

  function GetOffer(d: Store, id: string): Option<Offer> {
    var k := OfferKey(id);
    if k in d && d[k].OfferRec? then Some(d[k].offer) else None
  }

  function GetReport(d: Store, id: string): Option<Report> {
    var k := ReportKey(id);
    if k in d && d[k].ReportRec? then Some(d[k].report) else None
  }

  function GetFarmer(d: Store, id: string): Option<FarmerProfile> {
    var k := FarmerKey(id);
    if k in d && d[k].FarmerRec? then Some(d[k].farmer) else None
  }

  function GetCompany(d: Store, id: string): Option<CompanyProfile> {
    var k := CompanyKey(id);
    if k in d && d[k].CompanyRec? then Some(d[k].company) else None
  }

  /** `await kv.get(key) || []` for an index array. */
  function GetIds(d: Store, key: string): seq<string> {
    if key in d && d[key].IdList? then d[key].ids else []
  }

  /** A template literal's rendering of an optional field: JavaScript prints `undefined`. */
  function Show(s: Option<string>): string {
    match s
    case Some(v) => v
    case None => "undefined"
  }

  /** `${farmer.address}, ${farmer.region}`. */
  function FarmerLocation(f: FarmerProfile): string {
    Show(f.address) + ", " + Show(f.region)
  }
}
