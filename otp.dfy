/**
  The decision the `verify-otp` route makes about a stored OTP entry
  (src/supabase/functions/server/index.tsx:291-332), as a function of the
  entry, the code typed by the user and the current time.
 */
module Otp {
  import opened Wrappers
  import opened Strings
  import opened Records

  /** Ten minutes, in milliseconds. */
  const LifetimeMs := 600000

  datatype Outcome =
    | Missing     // no entry, or an empty string: "OTP not found or expired"
    | Malformed   // an entry that is neither a string nor an object with a non-empty `otp`
    | Mismatch    // "Invalid OTP": the entry stays
    | Expired     // "OTP expired": the entry is deleted
    | Verified    // success: the entry is deleted

  /** Whether the route deletes the entry after reaching this outcome. */
  predicate Consumes(o: Outcome) {
    o == Expired || o == Verified
  }

  /** The comparison and the age test, in the source's order: a wrong code is reported before expiry. */
  function Compare(stored: string, issuedAt: int, input: string, now: int): (o: Outcome)
    ensures o == Mismatch <==> Trim(input) != Trim(stored)
    ensures o == Verified <==> Trim(input) == Trim(stored) && now - issuedAt <= LifetimeMs
    ensures o != Missing && o != Malformed
  {
    if Trim(input) != Trim(stored) then Mismatch
    else if now - issuedAt > LifetimeMs then Expired
    else Verified
  }

  /**
    The string format carries no timestamp and counts as issued now; an object's missing or zero
    `timestamp` does too (`storedData.timestamp || Date.now()`).
   */
  function Check(entry: Option<Record>, input: string, now: int): (o: Outcome)
    ensures o == Missing <==> entry.None? || entry == Some(OtpText(""))
    ensures o == Malformed <==>
              entry.Some? && !entry.value.OtpText? && !(entry.value.OtpObject? && entry.value.otp.Some? && entry.value.otp.value != "")
    ensures entry.Some? && entry.value.OtpText? && entry.value.text != "" ==>
              o == Compare(entry.value.text, now, input, now)
  {
    match entry
    case None => Missing
    case Some(OtpText(s)) => if s == "" then Missing else Compare(s, now, input, now)
    case Some(OtpObject(Some(code), ts)) =>
      if code == "" then Malformed
      else Compare(code, if ts.Some? && ts.value != 0 then ts.value else now, input, now)
    case Some(_) => Malformed
  }

  /**
    A code issued at `issuedAt` and typed back within ten minutes is accepted, even with white
    space around it.
   */
  lemma FreshCodeVerifies(code: string, issuedAt: int, ws1: string, ws2: string, now: int)
    requires code != "" && AllSpace(ws1) && AllSpace(ws2)
    requires now - issuedAt <= LifetimeMs
    ensures Check(Some(OtpObject(Some(code), Some(issuedAt))), ws1 + code + ws2, now) == Verified
  {
    TrimIgnoresPadding(ws1, code, ws2);
  }

  /** A right code typed more than ten minutes after a recorded issue time is expired. */
  lemma LateCodeExpires(code: string, issuedAt: int, input: string, now: int)
    requires code != "" && issuedAt != 0 && Trim(input) == Trim(code)
    requires now - issuedAt > LifetimeMs
    ensures Check(Some(OtpObject(Some(code), Some(issuedAt))), input, now) == Expired
  {
    assert Check(Some(OtpObject(Some(code), Some(issuedAt))), input, now) == Compare(code, issuedAt, input, now);
  }

  /** A wrong code is reported as wrong however old the entry is, so the entry is never consumed by a guess. */
  lemma WrongCodeNeverConsumes(entry: Option<Record>, input: string, now: int, later: int)
    requires Check(entry, input, now) == Mismatch
    ensures Check(entry, input, later) == Mismatch
    ensures !Consumes(Check(entry, input, later))
  {
  }

  /** Success requires a code that matches after trimming and an age of at most ten minutes. */
  lemma VerifiedMeansMatchingAndFresh(entry: Option<Record>, input: string, now: int)
    requires Check(entry, input, now) == Verified
    ensures entry.Some? && (entry.value.OtpText? || entry.value.OtpObject?)
    ensures entry.value.OtpText? ==> entry.value.text != "" && Trim(input) == Trim(entry.value.text)
    ensures entry.value.OtpObject? ==>
              var ts := entry.value.timestamp;
              && entry.value.otp.Some? && entry.value.otp.value != ""
              && Trim(input) == Trim(entry.value.otp.value)
              && (ts.Some? && ts.value != 0 ==> now - ts.value <= LifetimeMs)
  {
  }

  /** An entry in the old string format never expires. */
  lemma TextEntryNeverExpires(s: string, input: string, now: int)
    ensures Check(Some(OtpText(s)), input, now) != Expired
  {
  }
}
