/**
  The three-step farmer signup form of src/pages/FarmerSignup.tsx: personal
  details, location, then verification and the registration request.
 */
module FarmerSignup {
  import opened SignupFlags

  /** The form's fields (:9-21), all empty at first. */
  const FormFields: set<string> :=
    {"aadharNumber", "name", "phone", "email", "pincode", "region", "address",
     "password", "confirmPassword", "phoneOtp", "emailOtp"}

  /** The pincodes the form accepts (:26). */
  const SaurashtraPincodes: seq<string> :=
    ["360001", "360002", "360003", "360004", "360005", "360311", "360410", "361001", "362001", "363001"]

  /** The fields of the registration request (:74-83). */
  const PayloadFields: set<string> := {"email", "password", "name", "aadhar", "phone", "pincode", "region", "address"}

  /** The step-1 checks (:55-62): a 12-character Aadhar number and matching passwords. */
  predicate PersonalDetailsValid(form: map<string, string>)
    requires FormFields <= form.Keys
  {
    |form["aadharNumber"]| == 12 && form["password"] == form["confirmPassword"]
  }

  /** The step-2 check (:66). */
  predicate PincodeValid(form: map<string, string>)
    requires FormFields <= form.Keys
  {
    form["pincode"] in SaurashtraPincodes
  }

  /**
    The registration request (:74-83): the Aadhar number travels as `aadhar`, and neither the
    password confirmation nor the codes are sent.
   */
  function RegistrationPayload(form: map<string, string>): (p: map<string, string>)
    requires FormFields <= form.Keys
    ensures p.Keys == PayloadFields
    ensures p["aadhar"] == form["aadharNumber"]
    ensures forall k :: k in p && k != "aadhar" ==> p[k] == form[k]
    ensures "confirmPassword" !in p && "phoneOtp" !in p && "emailOtp" !in p && "aadharNumber" !in p
  {
    map["email" := form["email"], "password" := form["password"], "name" := form["name"],
        "aadhar" := form["aadharNumber"], "phone" := form["phone"], "pincode" := form["pincode"],
        "region" := form["region"], "address" := form["address"]]
  }

  /** A listed pincode typed into the form fills the region in for the user. */
  lemma ListedPincodeFillsRegion(form: map<string, string>, pincode: string)
    requires FormFields <= form.Keys && pincode in SaurashtraPincodes
    ensures var after := form["pincode" := pincode]["region" := "Saurashtra"];
            PincodeValid(after) && RegistrationPayload(after)["region"] == "Saurashtra"
            && RegistrationPayload(after)["pincode"] == pincode
  {
  }

  /** The component's state: `step`, `formData`, `otpSent` and `otpVerified`. */
  class Form {
    var step: int
    var formData: map<string, string>
    var otpSent: Flags
    var otpVerified: Flags

    ghost predicate Valid()
      reads this
    {
      1 <= step <= 3 && FormFields <= formData.Keys
    }

    constructor ()
      ensures Valid()
      ensures step == 1 && formData == (map k | k in FormFields :: "")
      ensures otpSent == NoFlags && otpVerified == NoFlags
    {
      step := 1;
      formData := map k | k in FormFields :: "";
      otpSent := NoFlags;
      otpVerified := NoFlags;
    }

    /** `handleInputChange` (:28-36): the named field takes the value; a listed pincode also sets the region. */
    method HandleInputChange(name: string, value: string)
      requires Valid()
      modifies this
      ensures Valid()
      ensures name == "pincode" && value in SaurashtraPincodes ==>
                formData == old(formData)[name := value]["region" := "Saurashtra"]
      ensures !(name == "pincode" && value in SaurashtraPincodes) ==> formData == old(formData)[name := value]
      ensures step == old(step) && otpSent == old(otpSent) && otpVerified == old(otpVerified)
    {
      formData := formData[name := value];
      if name == "pincode" && value in SaurashtraPincodes {
        formData := formData["region" := "Saurashtra"];
      }
    }

    /** `sendOtp` (:38-42). */
    method SendOtp(c: Channel)
      requires Valid()
      modifies this
      ensures Valid()
      ensures otpSent == Raise(old(otpSent), c)
      ensures step == old(step) && formData == old(formData) && otpVerified == old(otpVerified)
    {
      otpSent := Raise(otpSent, c);
    }

    /** `verifyOtp` (:44-48): the code is not checked here. */
    method VerifyOtp(c: Channel)
      requires Valid()
      modifies this
      ensures Valid()
      ensures otpVerified == Raise(old(otpVerified), c)
      ensures step == old(step) && formData == old(formData) && otpSent == old(otpSent)
    {
      otpVerified := Raise(otpVerified, c);
    }

    /** `handleSubmit` (:50-107): each step either alerts and stays, or moves on; step 3 sends the request. */
    method HandleSubmit() returns (outcome: SubmitOutcome)
      requires Valid()
      modifies this
      ensures Valid()
      ensures formData == old(formData) && otpSent == old(otpSent) && otpVerified == old(otpVerified)
      ensures old(step) == 1 && |formData["aadharNumber"]| != 12 ==>
                outcome == Alert("Please enter a valid 12-digit Aadhar number") && step == 1
      ensures old(step) == 1 && |formData["aadharNumber"]| == 12 && formData["password"] != formData["confirmPassword"] ==>
                outcome == Alert("Passwords do not match") && step == 1
      ensures old(step) == 1 && PersonalDetailsValid(formData) ==> outcome == Advanced && step == 2
      ensures old(step) == 2 && !PincodeValid(formData) ==>
                outcome == Alert("Only Saurashtra region pincodes are allowed") && step == 2
      ensures old(step) == 2 && PincodeValid(formData) ==> outcome == Advanced && step == 3
      ensures old(step) == 3 ==> outcome == Submitted(RegistrationPayload(formData)) && step == 3
      ensures step == old(step) || step == old(step) + 1
    {
      if step == 1 {
        if |formData["aadharNumber"]| != 12 {
          return Alert("Please enter a valid 12-digit Aadhar number");
        }
        if formData["password"] != formData["confirmPassword"] {
          return Alert("Passwords do not match");
        }
        step := 2;
        return Advanced;
      } else if step == 2 {
        if formData["pincode"] !in SaurashtraPincodes {
          return Alert("Only Saurashtra region pincodes are allowed");
        }
        step := 3;
        return Advanced;
      } else {
        return Submitted(RegistrationPayload(formData));
      }
    }

    /** Whether the Back button is rendered (:388). */
    predicate ShowsBack()
      reads this
    {
      step > 1
    }

    /** The Back button (:388-392), which exists only past the first step. */
    method Back()
      requires Valid() && ShowsBack()
      modifies this
      ensures Valid()
      ensures step == old(step) - 1
      ensures formData == old(formData) && otpSent == old(otpSent) && otpVerified == old(otpVerified)
    {
      step := step - 1;
    }
  }
}
