# Saurashtra Setu — a verified model of the marketplace core

Saurashtra Setu is a marketplace for groundnut. Farmers list a harvest
(quantity in tonnes, price per kilogram, a quality assessment). Buying
companies make offers on active listings. The farmer accepts or rejects
each offer, and an administrator moderates users, listings, deals and
reports. This project models the serverless handler that runs the workflow,
together with the small pieces of client-side logic around it.

**The server** (`src/supabase/functions/server/index.tsx`) runs every route
against one string-keyed store. The store holds:
- `listing:<id>`, `offer:<id>` and `report:<id>` records;
- the farmer and company profiles;
- the index arrays `farmer_listings:<farmerId>` and `listing_offers:<listingId>`;
- one-time codes under `otp:<type>:<user>` and `reset-otp:<identifier>`.

How the model represents it:
- The store is the `map<string, Record>` field `data` of the class `Server.Marketplace`.
- Each route is one method of that class, or a function when the route only reads.
- Keys are built exactly as the server builds them (`Records`).
- `WellShaped` (the class's `Valid()`) says that every key family holds records of its own shape. That is the shape the handlers' field accesses presume, and every handler keeps it.
- The caller, as `verifyAuth` resolved it, is a parameter (`Api`). So are the current time, the fresh ids and the generated codes.
- Each reply is a typed `Reply`. `ServerError` is the 500 that the handler's `catch` block returns when it reads a field of a record that is missing. The store keeps whatever the handler had already written by that point.
- The pure rules are in their own modules:
  - `OfferRules`: stock arithmetic on acceptance and cancellation, the sibling-rejection loop as a function of the store, and the resolution of index arrays;
  - `Otp`: the decision that `verify-otp` makes about a stored code.

**The client pieces:**
- the accept and reject transforms and the status filters of the offers page (`ViewOffers`);
- the translation lookup and the language state, with local storage as a map (`Language`);
- the farmer and company signup step machines, with the flags they share (`FarmerSignup`, `CompanySignup`, `SignupFlags`);
- the route guard (`ProtectedRoute`).

**Where the model follows the code rather than the documented workflow:**
- Accepting an offer does not check that the offer is still pending, and it does not re-check the quantity left (index.tsx:679-692).
- The farmer may set any status string on an offer, or on a listing.
- Offer creation does not require a positive quantity (index.tsx:591).
- Admin cancellation never gives stock back (see Findings).
- Deleting a listing succeeds even when the listing does not exist. It leaves the listing's id in the index arrays, and the queries then skip that id.
- Resolving a report stores the action string as the status, whatever it is.
- The forgot-password codes are compared without trimming and never expire.
- `t` reads the language from local storage, not from `currentLanguage`.
- `getLanguage` returns whatever string is saved.
- The company signup sends its whole form, including the password confirmation and the code fields. The farmer signup renames `aadharNumber` to `aadhar` and sends eight fields.

## Model

| member | source | states |
|---|---|---|
| Api.AdminTokenAlwaysAdmin | src/supabase/functions/server/index.tsx:20-31 | a bearer token starting with `admin-token-` is resolved to the admin identity without asking the identity provider, and `verifyAdmin` accepts it |
| Api.VerifyAuth | src/supabase/functions/server/index.tsx:20-36 | no header or an empty one gives no user; a bearer token with the `admin-token-` prefix gives the admin identity; any other answer is the identity provider's for the token |
| Api.IsAdmin | src/supabase/functions/server/index.tsx:39-49 | a caller passes exactly when there is a user whose id is `admin` or whose `userType` is `admin`; everyone else, a farmer or a company included, is refused |
| Api.OtherTokensAskProvider | src/supabase/functions/server/index.tsx:22-35 | any other second field of the header is passed to the identity provider, and its answer is the caller |
| Strings.Split | src/supabase/functions/server/index.tsx:22 | `split` yields at least one part, and no part contains the separator |
| Strings.JoinSplit | src/utils/language.ts:159 | joining the parts of a split with the separator gives back the original string |
| Strings.SplitWithoutSeparator | src/utils/language.ts:159 | a string without the separator splits into itself alone |
| Strings.SplitAtFirst | src/supabase/functions/server/index.tsx:22 | `a + sep + b`, with no separator in `a`, splits into `a` followed by the parts of `b` |
| Strings.SplitAtSeparator | src/utils/language.ts:159 | a string containing the separator splits into at least two parts |
| Strings.TrimStart | src/supabase/functions/server/index.tsx:315-316 | the result is a suffix of the input, what it drops is white space, and it does not start with white space |
| Strings.TrimEnd | src/supabase/functions/server/index.tsx:315-316 | the result is a prefix of the input, what it drops is white space, and it does not end with white space |
| Strings.Trim | src/supabase/functions/server/index.tsx:315-316 | `trim()` is the middle piece of the input left after dropping white space at both ends: it neither starts nor ends with white space, and is empty for an all-space input |
| Strings.TrimIgnoresPadding | src/supabase/functions/server/index.tsx:315-316 | white space around a string does not change its trimmed form |
| Strings.AllSpaceTrimsToEmpty | src/supabase/functions/server/index.tsx:315-316 | a string made only of white space trims to the empty string |
| Strings.TrimStartSkipsSpace | src/supabase/functions/server/index.tsx:315-316 | white space put in front of a string does not change its `trimStart` |
| Strings.TrimEndSkipsSpace | src/supabase/functions/server/index.tsx:315-316 | white space put behind a string does not change its `trimEnd` |
| Strings.TrimStartKeepsTail | src/supabase/functions/server/index.tsx:315-316 | on a string with a non-space character, `trimStart` commutes with appending text behind it |
| Records.KeysInjective | src/supabase/functions/server/index.tsx:487-492 | two keys of one family are equal only when their ids are, so one record's key never aliases another's |
| Records.PutKeepsShape | src/supabase/functions/server/index.tsx:487 | writing a record of the key's own family keeps the store well shaped |
| Otp.FreshCodeVerifies | src/supabase/functions/server/index.tsx:306-332 | a stored code typed back within ten minutes, with any white space around it, is verified |
| Otp.LateCodeExpires | src/supabase/functions/server/index.tsx:325-329 | the right code typed more than 600000 ms after its recorded issue time is expired |
| Otp.WrongCodeNeverConsumes | src/supabase/functions/server/index.tsx:320-322 | a wrong code is reported as wrong at any later time, so it never consumes the entry |
| Otp.VerifiedMeansMatchingAndFresh | src/supabase/functions/server/index.tsx:294-332 | success needs a string or object entry with a non-empty code, equal after trimming, and, when a timestamp is recorded, an age of at most ten minutes |
| Otp.TextEntryNeverExpires | src/supabase/functions/server/index.tsx:303-305 | an entry in the old bare-string format counts as issued now and never expires |
| Otp.Compare | src/supabase/functions/server/index.tsx:315-329 | a code that differs after trimming is a mismatch whatever its age; a matching one is verified iff at most 600000 ms old, else expired |
| Otp.Check | src/supabase/functions/server/index.tsx:294-332 | `not found` exactly for no entry or an empty string, malformed exactly for an entry that is neither a string nor an object with a non-empty code; a bare string is compared as issued now |
| OfferRules.Resolve | src/supabase/functions/server/index.tsx:531-536 | resolving an index array gives no more records than ids, and each one is the record of some id in the array |
| OfferRules.Present | src/supabase/functions/server/index.tsx:531-536 | the ids that `filter(Boolean)` keeps: exactly the ids of the array that have a record, never more ids than the array |
| OfferRules.ResolveInOrder | src/supabase/functions/server/index.tsx:531-536 | the resolved list is, position by position, the records of the ids that have one, in the index's order |
| OfferRules.ResolveKeepsPresent | src/supabase/functions/server/index.tsx:531-536 | every id of the array that has a record contributes that record to the result |
| OfferRules.ResolveAllPresent | src/supabase/functions/server/index.tsx:531-536 | when every id has a record, the result keeps the index's length and order, element by element |
| OfferRules.ResolveAppend | src/supabase/functions/server/index.tsx:490-492 | an id appended to an index shows up last in the resolved list, if it has a record |
| OfferRules.Without | src/supabase/functions/server/index.tsx:857 | the ids of the array other than the removed one, and only those |
| OfferRules.ResolveSkipsVanished | src/supabase/functions/server/index.tsx:531-536 | an id whose record vanished is skipped, as if it were not in the index |
| OfferRules.DeletedListingSkipped | src/supabase/functions/server/index.tsx:857 | after a listing is deleted, resolving any index is resolving it without that id in the old store |
| OfferRules.ListingAfterAccept | src/supabase/functions/server/index.tsx:686-690 | acceptance subtracts exactly the offer's quantity, sets `sold` when nothing is left and keeps the status otherwise, and changes no other field of the listing |
| OfferRules.SecondAcceptanceOversells | src/supabase/functions/server/index.tsx:679-692 | with 10 tonnes and offers of 7 and 5, accepting both leaves -2 tonnes, which checked acceptance refuses |
| OfferRules.CheckedAccept | src/supabase/functions/server/index.tsx:684-692 | acceptance that applies iff the offer is pending and its positive quantity is still available on the listing, and then subtracts that quantity |
| OfferRules.CheckedAcceptKeepsStockInRange | src/supabase/functions/server/index.tsx:684-692 | checked acceptance keeps the stock between 0 and the listed quantity, strictly lowers it, and marks an emptied listing `sold` |
| OfferRules.RejectSiblingsSnoc | src/supabase/functions/server/index.tsx:696-704 | one more loop iteration is one more sibling step on the store the first iterations left |
| OfferRules.SiblingKeysSnoc | src/supabase/functions/server/index.tsx:696-697 | the offer keys the loop visits grow by one id per iteration, skipping the accepted offer |
| OfferRules.RejectSiblings | src/supabase/functions/server/index.tsx:695-704 | the sibling loop as a function of the store writes only keys that are already stored |
| OfferRules.RejectSiblingsClosedForm | src/supabase/functions/server/index.tsx:695-704 | the loop keeps the key set; every visited sibling that was pending becomes rejected, and every other record is unchanged |
| OfferRules.RejectSiblingsShaped | src/supabase/functions/server/index.tsx:695-704 | the loop keeps the store well shaped |
| OfferRules.CancelAsWrittenNeverRestores | src/supabase/functions/server/index.tsx:901-913 | the restore test sees the status already overwritten with `cancelled`, so the listing never changes |
| OfferRules.CancelUndoesAccept | src/supabase/functions/server/index.tsx:906-913 | restoring a cancelled acceptance, with the status read before the overwrite, gives back the listing as it was before acceptance |
| OfferRules.SoldOutListingStaysSoldOut | src/supabase/functions/server/index.tsx:901-913 | a 10-tonne listing sold out by one accepted offer stays at 0 and `sold` after the deal is cancelled |
| Server.AcceptWritesEffect | src/supabase/functions/server/index.tsx:679-704 | the accept branch writes the offer, reduces the listing, rejects only pending siblings, leaves the index and every other key alone, and keeps the store well shaped |
| Server.AcceptWritesOverwrite | src/supabase/functions/server/index.tsx:681-723 | the second write of the accepted offer replaces the first and changes nothing else |
| Server.AcceptKeepsProfiles | src/supabase/functions/server/index.tsx:707-708 | the accept writes do not touch the profiles the contact sharing then reads |
| Server.AcceptedStoreAfterContacts | src/supabase/functions/server/index.tsx:710-723 | attaching the contacts to the accepted offer keeps every other property of the accepted store |
| Server.AcceptWritesGuarantees | src/supabase/functions/server/index.tsx:684-704 | when the contact step throws, the store left behind already has the reduced listing and the rejected siblings |
| Server.RestoreIfAccepted | src/supabase/functions/server/index.tsx:906-913 | the restore step writes only the offer's listing key, changes nothing for an offer that is not `accepted`, and stores the listing the cancellation rule gives back |
| Server.SentResetCodeIsTheOnlyCode | src/supabase/functions/server/index.tsx:350-352 | after `forgot-password/send-otp` stored a code, verify and reset accept exactly that code, and none at all when it is empty |
| Server.ConsumedResetCodeIsRefused | src/supabase/functions/server/index.tsx:416-419 | once a successful reset deleted the code, no input is accepted for that identifier any more |
| Server.InsertAt | src/supabase/functions/server/index.tsx:510-514 | inserting at a position keeps the elements before it, puts the new one there, shifts the rest, and adds no other elements |
| Server.InsertKeepsNewestFirst | src/supabase/functions/server/index.tsx:512-514 | inserting a listing at its position keeps the list ordered newest first |
| Server.InsertPosition | src/supabase/functions/server/index.tsx:512-514 | the position after every listing at least as new and before every older one |
| Server.CreatedListingQueriedLast | src/supabase/functions/server/index.tsx:487-492 | after a listing is created, the farmer's own query ends with it |
| Server.Marketplace.CreateListing | src/supabase/functions/server/index.tsx:453-499 | farmers only; the new listing is `active` with all its quantity available and a total of quantity × price × 1000, stored under its key with its id appended last to the farmer's index; a missing profile is a 500 with nothing written |
| Server.Marketplace.ActiveListings | src/supabase/functions/server/index.tsx:502-521 | any signed-in user gets exactly the stored listings whose status is `active`, each once, newest first |
| Server.Marketplace.FarmerListings | src/supabase/functions/server/index.tsx:524-541 | farmers only; exactly the records of the ids in the caller's index that have one, in index order, each id with a record contributing its record |
| Server.Marketplace.UpdateListingStatus | src/supabase/functions/server/index.tsx:544-571 | 401 for non-farmers, 404 for a missing listing and 403 for another farmer's listing, each with nothing changed; otherwise the status becomes the requested one, whatever it was |
| Server.Marketplace.CreateOffer | src/supabase/functions/server/index.tsx:576-625 | companies only; 404 for a missing or inactive listing, 400 for more than is available; otherwise a `pending` offer carrying the listing's farmer and a total of quantity × price × 1000, appended to the listing's index, with the listing unchanged |
| Server.Marketplace.ListingOffers | src/supabase/functions/server/index.tsx:628-657 | 401 exactly when there is no caller, 404 exactly for a missing listing, 403 exactly for another farmer's listing; otherwise exactly the records of the index's ids that have one, in index order |
| Server.Marketplace.RespondToOffer | src/supabase/functions/server/index.tsx:660-731 | 401, 404 and 403 change nothing; any status is written with its time; on `accepted` the listing is reduced, pending siblings are rejected and both contacts are attached, or, when a record is missing, a 500 is returned after the writes already made |
| Server.Marketplace.AcceptOffer | src/supabase/functions/server/index.tsx:681-727 | an accepted offer is stored, then the listing is reduced and the pending siblings rejected; a missing listing or profile is a 500 with the writes made so far kept |
| Server.Marketplace.RejectPendingSiblings | src/supabase/functions/server/index.tsx:695-704 | the sibling loop leaves exactly the store the sibling-rejection rule describes |
| Server.Marketplace.ApplyAcceptance | src/supabase/functions/server/index.tsx:684-727 | the accept branch, with its sibling loop, leaves exactly the store the accept writes describe |
| Server.Marketplace.CreateReport | src/supabase/functions/server/index.tsx:736-766 | any signed-in user files a `pending` report under its own id, with the caller as reporter |
| Server.Marketplace.ResolveReport | src/supabase/functions/server/index.tsx:942-967 | admin only; 404 for a missing report; otherwise the action becomes the status and the resolution time is set |
| Server.Marketplace.DeleteUser | src/supabase/functions/server/index.tsx:804-826 | admin only; both the farmer and the company profile keys of the id are removed |
| Server.Marketplace.DeleteListing | src/supabase/functions/server/index.tsx:848-864 | admin only; only the listing key is removed, the reply is a success even when it was absent, and every index array keeps its ids |
| Server.Marketplace.CancelDeal | src/supabase/functions/server/index.tsx:886-920 | admin only; 404 for a missing offer; otherwise the offer is `cancelled` with its time and no listing changes |
| Server.Marketplace.CancelDealRestoring | src/supabase/functions/server/index.tsx:899-913 | the cancel route with the restore test on the status as stored: a cancelled acceptance gives its quantity back and re-activates the listing, and nothing else changes a listing |
| Server.Marketplace.SendVerificationOtp | src/supabase/functions/server/index.tsx:255-281 | both codes are stored as objects with their issue time |
| Server.Marketplace.VerifyOtp | src/supabase/functions/server/index.tsx:284-340 | success iff the code is verified; each failure gets its own message; the entry is deleted on success or expiry and kept otherwise |
| Server.Marketplace.ForgotPasswordSendOtp | src/supabase/functions/server/index.tsx:343-361 | the reset code is stored as a bare string under the identifier, after which verify succeeds exactly for that code, if it is not empty |
| Server.Marketplace.ForgotPasswordVerifyOtp | src/supabase/functions/server/index.tsx:364-380 | success only when the input is the non-empty code stored as a string; with such a code stored, success exactly for that input; no entry, or any other input, is `Invalid OTP`; the route only reads, so the code stays |
| Server.Marketplace.ForgotPasswordReset | src/supabase/functions/server/index.tsx:383-426 | a wrong code is a 400, no matching farmer or company a 404, a failed update a 500, each with nothing changed; otherwise the code is deleted and verify refuses every code afterwards |
| ViewOffers.HandleAcceptOffer | src/pages/ViewOffers.tsx:75-96 | same length and order; the chosen offer is accepted with the contact details, every other pending one is rejected, the rest are unchanged; the confirmation shows the chosen offer with contacts |
| ViewOffers.HandleRejectOffer | src/pages/ViewOffers.tsx:97-100 | only the offers carrying the id become rejected; all others are identical |
| ViewOffers.WithStatus | src/pages/ViewOffers.tsx:114-115 | an offer is in the filtered list iff it is in the list with that status |
| ViewOffers.WithStatusCounts | src/pages/ViewOffers.tsx:114-115 | the filter keeps each offer of the status as often as it occurs and drops every other |
| ViewOffers.WithStatusAppend | src/pages/ViewOffers.tsx:114-115 | filtering keeps the original order: filtering a concatenation filters each part |
| ViewOffers.WithStatusNone | src/pages/ViewOffers.tsx:114-115 | with no offer of the status the filtered list is empty |
| ViewOffers.NothingPendingAfterAccept | src/pages/ViewOffers.tsx:77-83 | after an acceptance no offer is pending and the pending list is empty |
| ViewOffers.RejectOnlyShrinksPending | src/pages/ViewOffers.tsx:97-100 | after a rejection the pending list is exactly the old pending list, in its order and with its repetitions, without the offers carrying the rejected id |
| ViewOffers.WithoutId | src/pages/ViewOffers.tsx:97-100 | the offers not carrying the id, and only those |
| ViewOffers.RejectIdempotent | src/pages/ViewOffers.tsx:97-100 | rejecting the same offer twice is rejecting it once |
| Language.Follow | src/utils/language.ts:161-164 | once the lookup is undefined it stays undefined |
| Language.FollowAppend | src/utils/language.ts:161-164 | the segment loop composes: following `a + b` is following `a`, then `b` from where it ended |
| Language.Translate | src/utils/language.ts:158-167 | the result is the key itself or a non-empty string found by following the key's segments |
| Language.FlatKeyTranslates | src/utils/language.ts:158-167 | a key without a dot gives the language's non-empty entry, or the key itself |
| Language.DottedKeyFallsBack | src/utils/language.ts:158-167 | the tables are flat, so a dotted key comes back as it was |
| Language.UnknownLanguageFallsBack | src/utils/language.ts:158-167 | a saved language without a table translates every key to itself |
| Language.LanguageState.constructor | src/utils/language.ts:146 | the current language starts as `en` |
| Language.LanguageState.GetLanguage | src/utils/language.ts:153-156 | the saved language, or `en` when nothing is saved |
| Language.LanguageState.SetLanguage | src/utils/language.ts:148-151 | the language is set and saved, and `GetLanguage` then returns it |
| Language.LanguageState.InitLanguage | src/utils/language.ts:169-174 | a saved language becomes the current one; storage is untouched |
| Language.LanguageState.T | src/utils/language.ts:158-167 | `t` under the saved language: a dot-free key under `en` or `gu` gives its non-empty entry in that table or the key itself; a saved language without a table, or a dotted key, returns the key |
| Language.SetLanguageThenTranslate | src/utils/language.ts:148-167 | after `setLanguage(l)`, `getLanguage` returns `l` and `t` gives every key without a dot its non-empty entry in `l`'s table, or the key itself |
| SignupFlags.Raise | src/pages/CompanySignup.tsx:38-48 | the channel's flag is raised and the other channel's is kept |
| SignupFlags.RaiseCommutes | src/pages/CompanySignup.tsx:38-48 | raising both flags in either order gives the same flags, and raising one twice is raising it once |
| FarmerSignup.RegistrationPayload | src/pages/FarmerSignup.tsx:74-83 | exactly the eight payload fields, `aadhar` taken from `aadharNumber` and the others copied; no confirmation or code field |
| FarmerSignup.ListedPincodeFillsRegion | src/pages/FarmerSignup.tsx:26-35 | a listed pincode typed in makes the form pass step 2 with the region `Saurashtra` in the payload |
| FarmerSignup.Form.constructor | src/pages/FarmerSignup.tsx:8-24 | step 1, every field empty, no flags raised |
| FarmerSignup.Form.HandleInputChange | src/pages/FarmerSignup.tsx:28-36 | the named field takes the value; a listed pincode also sets the region; nothing else changes |
| FarmerSignup.Form.SendOtp | src/pages/FarmerSignup.tsx:38-42 | only the channel's sent flag is raised |
| FarmerSignup.Form.VerifyOtp | src/pages/FarmerSignup.tsx:44-48 | only the channel's verified flag is raised |
| FarmerSignup.Form.HandleSubmit | src/pages/FarmerSignup.tsx:50-107 | step 1 advances iff the Aadhar number has 12 characters and the passwords match, step 2 iff the pincode is listed, each failure alerting its message with the step kept; step 3 sends the payload |
| FarmerSignup.Form.Back | src/pages/FarmerSignup.tsx:388-392 | offered only past step 1, it goes back one step, so the step stays in 1..3 |
| CompanySignup.Form.constructor | src/pages/CompanySignup.tsx:8-25 | step 1, every field empty, no certificates, no flags raised |
| CompanySignup.Form.HandleInputChange | src/pages/CompanySignup.tsx:27-30 | only the named field changes |
| CompanySignup.Form.HandleFileUpload | src/pages/CompanySignup.tsx:32-36 | a selection replaces the certificates; no selection keeps them |
| CompanySignup.Form.SendOtp | src/pages/CompanySignup.tsx:38-42 | only the channel's sent flag is raised |
| CompanySignup.Form.VerifyOtp | src/pages/CompanySignup.tsx:44-48 | only the channel's verified flag is raised |
| CompanySignup.Form.HandleSubmit | src/pages/CompanySignup.tsx:50-95 | step 1 advances iff the company name has at least 3 characters and the passwords match, step 2 iff a certificate is selected, each failure alerting its message with the step kept; step 3 sends the whole form |
| CompanySignup.Form.Back | src/pages/CompanySignup.tsx:418-421 | offered only past step 1, it goes back one step, so the step stays in 1..3 |
| ProtectedRoute.DashboardFor | src/components/ProtectedRoute.tsx:29-38 | each known user type has its own dashboard, any other type goes to `/` |
| ProtectedRoute.Guard | src/components/ProtectedRoute.tsx:17-51 | renders iff authenticated with a stored user and either no list is given or the user's type is in it; otherwise redirects: to `/` without a user or for a user without a type, and to the type's dashboard otherwise |
| ProtectedRoute.EmptyAllowListRendersNothing | src/components/ProtectedRoute.tsx:26-39 | an empty allow-list turns every signed-in user away to their dashboard |
| ProtectedRoute.WiderAllowListKeepsAccess | src/components/ProtectedRoute.tsx:47-51 | allowing more user types never takes a page away from anyone |
| ProtectedRoute.TurnedAwayUserLandsHome | src/components/ProtectedRoute.tsx:26-38 | a known user turned away lands on their own dashboard, where their own type is allowed |
| ProtectedRoute.UntypedUserOnlyUnrestricted | src/components/ProtectedRoute.tsx:26-51 | a stored user without a type is rendered when no list is given and sent to `/` by any list |

## Left out

- Identity-provider calls (`getUser`, `signInWithPassword`, `createUser`, `updateUserById`, `deleteUser`) are parameters: `getUser` is a function argument of `Api.VerifyAuth`, and a failed password update is the `updateFails` flag. The user deletion's call is ignored, as the route ignores its result.
- The login, profile and signup routes, the admin list routes (`GET /admin/users`, `/admin/listings`, `/admin/offers`, `/admin/reports`), image upload with bucket set-up and signed URLs, and the health route are outside this model.
- Hono routing, CORS, logging, `Deno.serve` and JSON body parsing: requests are method arguments.
- `crypto.randomUUID`, `Date.now`, ISO timestamps and `Math.random` codes: ids, times (integer milliseconds) and codes are inputs.
- `parseFloat` and IEEE arithmetic: quantities and prices are exact reals, so NaN and rounding are not modelled.
- Concurrent requests: each handler is one sequential step against the store.
- Server.Marketplace.ActiveListings: the store's scan order, which only decides the order among equally old listings, is left open.
- Server.Marketplace.ForgotPasswordReset: which matching account's password is updated (the first in scan order) is not modelled; only whether one exists.
- Server.Marketplace.VerifyOtp: `String(otp)` conversion of a non-string code is not modelled; the input is a string.
- Strings.Split: lengths are counted in characters; UTF-16 code units are not modelled.
- Language.Translate: the tables hold only strings, so JavaScript's property lookups beyond them are not modelled: a dotted key whose first segment is a string indexes into it (`t("welcome.0")` gives `W`, not the key); a key or a saved language naming an inherited `Object` member resolves to it (`t("toString")` returns a function, and a saved language `constructor` looks up in the `Object` constructor); and a nested object returned as a result.
- FarmerSignup.Form.HandleSubmit: the 12-character Aadhar test counts characters, where JavaScript's `length` counts UTF-16 code units.
- CompanySignup.Form.HandleSubmit: the at-least-3 company-name test counts characters, where JavaScript's `length` counts UTF-16 code units.
- The rendering, `alert`, `navigate`, timers and the backend calls of the pages are not modelled; `SubmitOutcome` records which alert, step change or request a submit produces.
- `isAuthenticated` and `getCurrentUser` (src/utils/auth.ts) are inputs to `ProtectedRoute.Guard`.

## Findings

| source | as written | input that shows it | evidently intended | confidence | as-written member | corrected member |
|---|---|---|---|---|---|---|
| src/supabase/functions/server/index.tsx:901-906 | the offer's status is set to `cancelled` before the test for `accepted`, so the restore branch never runs | a listing of 10 tonnes sold out by one accepted offer of 10 tonnes; cancelling the deal leaves it at 0 tonnes and `sold` | cancelling an accepted deal gives its quantity back and re-activates the listing | high, not executed | Server.Marketplace.CancelDeal | Server.Marketplace.CancelDealRestoring |
| src/supabase/functions/server/index.tsx:901-913 | restoration tests the overwritten status | the same 10-tonne listing | the listing as it was before acceptance | high, not executed | OfferRules.SoldOutListingStaysSoldOut | OfferRules.CancelUndoesAccept |
| src/supabase/functions/server/index.tsx:679-692 | an offer is accepted whatever its status and quantity, so an offer rejected by an earlier acceptance can still be accepted | a listing of 10 tonnes with pending offers of 7 and 5; accepting the first, then the second, leaves -2 tonnes | only a pending offer whose quantity is still available can be accepted, keeping the stock between 0 and the listed quantity | medium, not executed | OfferRules.SecondAcceptanceOversells | OfferRules.CheckedAcceptKeepsStockInRange |
