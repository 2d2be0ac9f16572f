/**
  The per-channel flags both signup pages keep (`otpSent`, `otpVerified`) and
  the submit outcome their step machines share.
 */
module SignupFlags {

  /** The two channels a code is sent over. */
  datatype Channel = Phone | Email

  /** `{ phone: boolean, email: boolean }`. */
  datatype Flags = Flags(phone: bool, email: bool) {
    function Get(c: Channel): bool {
      match c
      case Phone => phone
      case Email => email
    }
  }

  const NoFlags := Flags(false, false)

  /** `prev => ({ ...prev, [type]: true })`: the channel's flag is raised and the other is kept. */
  function Raise(f: Flags, c: Channel): (r: Flags)
    ensures r.Get(c)
    ensures forall other :: other != c ==> r.Get(other) == f.Get(other)
  {
    match c
    case Phone => f.(phone := true)
    case Email => f.(email := true)
  }

  /** Raising a flag twice is raising it once, and raising both flags in either order gives the same. */
  lemma RaiseCommutes(f: Flags)
    ensures Raise(Raise(f, Phone), Email) == Raise(Raise(f, Email), Phone) == Flags(true, true)
    ensures Raise(Raise(f, Phone), Phone) == Raise(f, Phone)
  {
  }

  /** What a press of the submit button does: an alert, the next step, or the registration request. */
  datatype SubmitOutcome = Alert(message: string) | Advanced | Submitted(payload: map<string, string>)
}
