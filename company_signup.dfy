/**
  The three-step company signup form of src/pages/CompanySignup.tsx: company
  details, certificates, then verification and the registration request.
 */
module CompanySignup {
  import opened Wrappers
  import opened SignupFlags

  /** The form's fields (:9-21), all empty at first. */
  const FormFields: set<string> :=
    {"companyName", "registrationNumber", "gstNumber", "contactPerson", "phone", "email", "address",
     "password", "confirmPassword", "phoneOtp", "emailOtp"}

  /** The step-1 checks (:55-62): a company name of at least three characters and matching passwords. */
  predicate CompanyDetailsValid(form: map<string, string>)
    requires FormFields <= form.Keys
  {
    |form["companyName"]| >= 3 && form["password"] == form["confirmPassword"]
  }

  /** The component's state: `step`, `formData`, `certificates`, `otpSent` and `otpVerified`. */
  class Form {
    var step: int
    var formData: map<string, string>
    /** The selected certificate files, by name. */
    var certificates: seq<string>
    var otpSent: Flags
    var otpVerified: Flags

    ghost predicate Valid()
      reads this
    {
      1 <= step <= 3 && FormFields <= formData.Keys
    }

    constructor ()
      ensures Valid()
      ensures step == 1 && formData == (map k | k in FormFields :: "") && certificates == []
      ensures otpSent == NoFlags && otpVerified == NoFlags
    {
      step := 1;
      formData := map k | k in FormFields :: "";
      certificates := [];
      otpSent := NoFlags;
      otpVerified := NoFlags;
    }

    /** `handleInputChange` (:27-30). */
    method HandleInputChange(name: string, value: string)
      requires Valid()
      modifies this
      ensures Valid()
      ensures formData == old(formData)[name := value]
      ensures step == old(step) && certificates == old(certificates)
      ensures otpSent == old(otpSent) && otpVerified == old(otpVerified)
    {
      formData := formData[name := value];
    }

    /** `handleFileUpload` (:32-36): a new selection replaces the old one; no selection changes nothing. */
    method HandleFileUpload(files: Option<seq<string>>)
      requires Valid()
      modifies this
      ensures Valid()
      ensures certificates == if files.Some? then files.value else old(certificates)
      ensures step == old(step) && formData == old(formData)
      ensures otpSent == old(otpSent) && otpVerified == old(otpVerified)
    {
      if files.Some? {
        certificates := files.value;
      }
    }

    /** `sendOtp` (:38-42). */
    method SendOtp(c: Channel)
      requires Valid()
      modifies this
      ensures Valid()
      ensures otpSent == Raise(old(otpSent), c)
      ensures step == old(step) && formData == old(formData) && certificates == old(certificates)
      ensures otpVerified == old(otpVerified)
    {
      otpSent := Raise(otpSent, c);
    }

    /** `verifyOtp` (:44-48): the code is not checked here. */
    method VerifyOtp(c: Channel)
      requires Valid()
      modifies this
      ensures Valid()
      ensures otpVerified == Raise(old(otpVerified), c)
      ensures step == old(step) && formData == old(formData) && certificates == old(certificates)
      ensures otpSent == old(otpSent)
    {
      otpVerified := Raise(otpVerified, c);
    }

    /**
      `handleSubmit` (:50-95): each step either alerts and stays, or moves on; step 3 sends the
      whole form, password confirmation and codes included.
     */
    method HandleSubmit() returns (outcome: SubmitOutcome)
      requires Valid()
      modifies this
      ensures Valid()
      ensures formData == old(formData) && certificates == old(certificates)
      ensures otpSent == old(otpSent) && otpVerified == old(otpVerified)
      ensures old(step) == 1 && |formData["companyName"]| < 3 ==>
                outcome == Alert("Please enter a valid company name") && step == 1
      ensures old(step) == 1 && |formData["companyName"]| >= 3 && formData["password"] != formData["confirmPassword"] ==>
                outcome == Alert("Passwords do not match") && step == 1
      ensures old(step) == 1 && CompanyDetailsValid(formData) ==> outcome == Advanced && step == 2
      ensures old(step) == 2 && |certificates| == 0 ==>
                outcome == Alert("Please upload at least one verification certificate") && step == 2
      ensures old(step) == 2 && |certificates| > 0 ==> outcome == Advanced && step == 3
      ensures old(step) == 3 ==> outcome == Submitted(formData) && step == 3
      ensures old(step) == 3 ==> "confirmPassword" in outcome.payload && "phoneOtp" in outcome.payload
      ensures step == old(step) || step == old(step) + 1
    {
      if step == 1 {
        if |formData["companyName"]| < 3 {
          return Alert("Please enter a valid company name");
        }
        if formData["password"] != formData["confirmPassword"] {
          return Alert("Passwords do not match");
        }
        step := 2;
        return Advanced;
      } else if step == 2 {
        if |certificates| == 0 {
          return Alert("Please upload at least one verification certificate");
        }
        step := 3;
        return Advanced;
      } else {
        return Submitted(formData);
      }
    }

    /** Whether the Back button is rendered (:418). */
    predicate ShowsBack()
      reads this
    {
      step > 1
    }

    /** The Back button (:418-421), which exists only past the first step. */
    method Back()
      requires Valid() && ShowsBack()
      modifies this
      ensures Valid()
      ensures step == old(step) - 1
      ensures formData == old(formData) && certificates == old(certificates)
      ensures otpSent == old(otpSent) && otpVerified == old(otpVerified)
    {
      step := step - 1;
    }
  }
}
