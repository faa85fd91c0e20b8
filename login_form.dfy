/** The community login form
    (Van-Rakshak-Community-App/src/components/LoginForm.js): three fields,
    their validation rules, and the user record handed on when all three
    pass. */
module LoginForm {
  import opened Common
  import Text

  /** The signed-in community member. */
  datatype User = User(name: string, phone: string, village: string)

  /** The raw values of the three inputs. */
  datatype LoginFields = LoginFields(name: string, phone: string, village: string)

  /** `required: true, minLength: 3`. */
  predicate NameValid(name: string) { name != "" && |name| >= 3 }

  /** `required: true, pattern: /^[0-9]{10}$/`. */
  predicate PhoneValid(phone: string) {
    phone != "" && |phone| == 10 && forall i :: 0 <= i < |phone| ==> Text.IsDigit(phone[i])
  }

  /** `required: true, minLength: 3`. */
  predicate VillageValid(village: string) { village != "" && |village| >= 3 }

  /** The names of the fields in error. */
  function Errors(f: LoginFields): (r: set<string>)
    ensures r <= {"name", "phone", "village"}
    ensures "name" in r <==> |f.name| < 3
    ensures "phone" in r <==> !(|f.phone| == 10 && forall i :: 0 <= i < |f.phone| ==> Text.IsDigit(f.phone[i]))
    ensures "village" in r <==> |f.village| < 3
  {
    (if NameValid(f.name) then {} else {"name"})
    + (if PhoneValid(f.phone) then {} else {"phone"})
    + (if VillageValid(f.village) then {} else {"village"})
  }

  /** `handleSubmit(handleLogin)`: the user handed to `onLogin`, exactly
      the three values, and only when no field is in error. */
  function Submit(f: LoginFields): (r: Option<User>)
    ensures r.Some? <==> Errors(f) == {}
    ensures r.Some? ==> r.value.name == f.name && r.value.phone == f.phone && r.value.village == f.village
  {
    if Errors(f) == {} then Some(User(f.name, f.phone, f.village)) else None
  }
}
