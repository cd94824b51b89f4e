/** The login and registration form, src/components/AuthForm.tsx: the admin prefill, the change
    handler that clears a field's error, the validator with its messages, and the submit gate. */
module AuthForm {
  import opened Records
  import Text

  datatype FormType = LoginForm | RegisterForm
  datatype LoginType = Citizen | AdminLogin

  datatype Field = NameField | EmailField | PasswordField | PincodeField | AddressField

  datatype FormData = FormData(name: string, email: string, password: string, pincode: string,
                               address: string)

  /** The `errors` state: one message per validated field, '' for none. */
  datatype Errors = Errors(email: string, password: string, name: string)

  function Get(d: FormData, f: Field): string
  {
    match f
    case NameField => d.name
    case EmailField => d.email
    case PasswordField => d.password
    case PincodeField => d.pincode
    case AddressField => d.address
  }

  /** `{ ...prev, [name]: value }`. */
  function WithField(d: FormData, f: Field, value: string): (r: FormData)
    ensures Get(r, f) == value
    ensures forall g :: g != f ==> Get(r, g) == Get(d, g)
  {
    match f
    case NameField => d.(name := value)
    case EmailField => d.(email := value)
    case PasswordField => d.(password := value)
    case PincodeField => d.(pincode := value)
    case AddressField => d.(address := value)
  }

  /** The error message shown for a field; pincode and address have none. */
  function ErrorOf(e: Errors, f: Field): string
  {
    match f
    case NameField => e.name
    case EmailField => e.email
    case PasswordField => e.password
    case PincodeField => ""
    case AddressField => ""
  }

  /** The initial form: the admin login comes prefilled with 'admin' / 'admin'. */
  function InitialData(loginType: LoginType): (d: FormData)
    ensures loginType == AdminLogin ==> d.email == "admin" && d.password == "admin"
    ensures loginType == Citizen ==> d.email == "" && d.password == ""
    ensures d.name == "" && d.pincode == "" && d.address == ""
  {
    var prefill := if loginType == AdminLogin then "admin" else "";
    FormData("", prefill, prefill, "", "")
  }

  /** `/\S+@\S+\.\S+/` matches with the '@' at `p` and the '.' at `q`: a non-space character
      before the '@', only non-space characters (at least one) between them, and a non-space
      character after the '.'. */
  predicate EmailShape(s: string, p: int, q: int)
  {
    0 < p && p + 1 < q && q + 1 < |s|
    && s[p] == '@' && s[q] == '.'
    && !Text.IsSpace(s[p - 1]) && !Text.IsSpace(s[q + 1])
    && forall k :: p < k < q ==> !Text.IsSpace(s[k])
  }

  /** The regular-expression test, which is not anchored: a match anywhere in `s` will do. */
  predicate LooksLikeEmail(s: string)
  {
    exists p, q | 0 <= p < |s| && 0 <= q < |s| :: EmailShape(s, p, q)
  }

  /** Any address of the form `local@domain.tld` with three non-empty, space-free parts passes. */
  lemma PlainAddressAccepted(local: string, domain: string, tld: string)
    requires local != "" && domain != "" && tld != ""
    requires forall i :: 0 <= i < |local| ==> !Text.IsSpace(local[i])
    requires forall i :: 0 <= i < |domain| ==> !Text.IsSpace(domain[i])
    requires forall i :: 0 <= i < |tld| ==> !Text.IsSpace(tld[i])
    ensures LooksLikeEmail(local + "@" + domain + "." + tld)
  {
    var s := local + "@" + domain + "." + tld;
    var p := |local|;
    var q := |local| + 1 + |domain|;
    assert s[p - 1] == local[p - 1];
    assert s[q + 1] == tld[0];
    forall k | p < k < q
      ensures !Text.IsSpace(s[k])
    {
      assert s[k] == domain[k - p - 1];
    }
    assert EmailShape(s, p, q);
  }

  /** Text without an '@' never passes. */
  lemma NoAtRejected(s: string)
    requires forall i :: 0 <= i < |s| ==> s[i] != '@'
    ensures !LooksLikeEmail(s)
  {
  }

  /** Text without a '.' never passes. */
  lemma NoDotRejected(s: string)
    requires forall i :: 0 <= i < |s| ==> s[i] != '.'
    ensures !LooksLikeEmail(s)
  {
  }

  /** What `validateForm` accepts, stated field by field. */
  predicate Acceptable(kind: FormType, loginType: LoginType, d: FormData)
  {
    && d.email != "" && (loginType == AdminLogin || LooksLikeEmail(d.email))
    && d.password != "" && (loginType == AdminLogin || |d.password| >= 6)
    && (kind == RegisterForm ==> d.name != "")
  }

  /** The untouched admin login form passes validation. */
  lemma AdminPrefillAcceptable()
    ensures Acceptable(LoginForm, AdminLogin, InitialData(AdminLogin))
  {
  }

  class AuthForm {
    const kind: FormType
    const loginType: LoginType
    var formData: FormData
    var errors: Errors
    /** The data `onSubmit` has been called with, oldest first. */
    var submitted: seq<FormData>

    constructor (kind: FormType, loginType: LoginType)
      ensures this.kind == kind && this.loginType == loginType
      ensures formData == InitialData(loginType) && errors == Errors("", "", "") && submitted == []
    {
      this.kind := kind;
      this.loginType := loginType;
      formData := InitialData(loginType);
      errors := Errors("", "", "");
      submitted := [];
    }

    /** `handleChange`: the named field takes the value; its error, if one is shown, is cleared;
        every other value and message stays. */
    method HandleChange(f: Field, value: string)
      modifies this`formData, this`errors
      ensures formData == WithField(old(formData), f, value)
      ensures forall g :: ErrorOf(errors, g) == (if g == f then "" else ErrorOf(old(errors), g))
    {
      formData := WithField(formData, f, value);
      if ErrorOf(errors, f) != "" {
        match f
        case EmailField => errors := errors.(email := "");
        case PasswordField => errors := errors.(password := "");
        case NameField => errors := errors.(name := "");
      }
    }

    /** `validateForm`: the result says whether the data is acceptable; each failed check sets
        its message, and a message from an earlier run is never cleared here. */
    method ValidateForm() returns (valid: bool)
      modifies this`errors
      ensures valid <==> Acceptable(kind, loginType, formData)
      ensures errors.email ==
        if formData.email == "" then "Email is required"
        else if loginType != AdminLogin && !LooksLikeEmail(formData.email) then "Please enter a valid email"
        else old(errors).email
      ensures errors.password ==
        if formData.password == "" then "Password is required"
        else if loginType != AdminLogin && |formData.password| < 6
        then "Password must be at least 6 characters"
        else old(errors).password
      ensures errors.name ==
        if kind == RegisterForm && formData.name == "" then "Name is required" else old(errors).name
      ensures valid ==> errors == old(errors)
    {
      valid := true;
      var newErrors := errors;
      if formData.email == "" {
        newErrors := newErrors.(email := "Email is required");
        valid := false;
      } else if loginType != AdminLogin && !LooksLikeEmail(formData.email) {
        newErrors := newErrors.(email := "Please enter a valid email");
        valid := false;
      }
      if formData.password == "" {
        newErrors := newErrors.(password := "Password is required");
        valid := false;
      } else if loginType != AdminLogin && |formData.password| < 6 {
        newErrors := newErrors.(password := "Password must be at least 6 characters");
        valid := false;
      }
      if kind == RegisterForm && formData.name == "" {
        newErrors := newErrors.(name := "Name is required");
        valid := false;
      }
      errors := newErrors;
    }

    /** `handleSubmit`: `validateForm` runs first and leaves its messages; `onSubmit` receives
        the form data exactly when it validates. A failing `onSubmit` only raises a toast through
        the facade, which changes no state here. */
    method HandleSubmit()
      modifies this`errors, this`submitted
      ensures Acceptable(kind, loginType, formData) ==> submitted == old(submitted) + [formData]
      ensures !Acceptable(kind, loginType, formData) ==> submitted == old(submitted)
      ensures errors.email ==
        if formData.email == "" then "Email is required"
        else if loginType != AdminLogin && !LooksLikeEmail(formData.email) then "Please enter a valid email"
        else old(errors).email
      ensures errors.password ==
        if formData.password == "" then "Password is required"
        else if loginType != AdminLogin && |formData.password| < 6
        then "Password must be at least 6 characters"
        else old(errors).password
      ensures errors.name ==
        if kind == RegisterForm && formData.name == "" then "Name is required" else old(errors).name
    {
      var valid := ValidateForm();
      if !valid {
        return;
      }
      submitted := submitted + [formData];
    }
  }
}
