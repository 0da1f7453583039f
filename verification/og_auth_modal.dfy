/** The older tree's sign-in and registration dialog
    (`project-prototype-OG/src/components/AuthModal.tsx`): exactly two
    demo accounts, and a registration with the role chosen in the form. */
module OgAuthModal {
  import opened Wrappers
  import opened Text
  import opened OgTypes

  const OgAdminDemo: OgUser := OgUser("admin-1", "admin@bikestorepro.com", "Administrador Sistema", Admin, None)
  const OgCustomerDemo: OgUser := OgUser("customer-1", "cliente@ejemplo.com", "Juan Pérez", Customer, Some("1234567-8"))

  /** The sign-in branch: only the two demo credential pairs sign in. */
  function OgLogin(email: string, password: string): (r: Option<OgUser>)
    ensures r.Some? <==>
      (email == "admin@bikestorepro.com" && password == "admin123")
      || (email == "cliente@ejemplo.com" && password == "cliente123")
    ensures r.Some? ==> r.value.email == email
    ensures r.Some? && r.value.role == Admin ==> r.value == OgAdminDemo
    ensures r.Some? && r.value.role == Customer ==> r.value == OgCustomerDemo
  {
    if email == "admin@bikestorepro.com" && password == "admin123" then Some(OgAdminDemo)
    else if email == "cliente@ejemplo.com" && password == "cliente123" then Some(OgCustomerDemo)
    else None
  }

  /** The form of the older dialog; its role is preset once, when the
      dialog is created, to the required role or customer, and can be
      changed in the form when no role is required. */
  datatype OgFormData = OgFormData(email: string, password: string, name: string, nit: string, role: OgRole)

  function InitialForm(requiredRole: Option<OgRole>): (f: OgFormData)
    ensures f.email == "" && f.password == "" && f.name == "" && f.nit == ""
    ensures f.role == requiredRole.GetOr(Customer)
  {
    OgFormData("", "", "", "", requiredRole.GetOr(Customer))
  }

  /** The registration branch: the form's role, with the tax number kept
      exactly for customers. */
  function OgRegister(form: OgFormData, nowMillis: nat): (u: OgUser)
    ensures u.id == NatToString(nowMillis) && u.email == form.email && u.name == form.name
    ensures u.role == form.role
    ensures u.nit.Some? <==> u.role == Customer
    ensures u.nit.Some? ==> u.nit.value == form.nit
  {
    OgUser(NatToString(nowMillis), form.email, form.name, form.role, if form.role == Customer then Some(form.nit) else None)
  }

  /** What `handleSubmit` does: the user passed to `onLogin`, if any, and
      whether `onClose` follows. */
  datatype OgSubmission = OgSubmission(login: Option<OgUser>, closes: bool)

  /** Every sign-in or registration that succeeds is followed by closing
      the dialog; refused credentials neither sign in nor close it. */
  function OgHandleSubmit(isLogin: bool, form: OgFormData, nowMillis: nat): (s: OgSubmission)
    ensures s.closes <==> s.login.Some?
    ensures isLogin ==> s.login == OgLogin(form.email, form.password)
    ensures !isLogin ==> s.login == Some(OgRegister(form, nowMillis))
  {
    if isLogin then
      var u := OgLogin(form.email, form.password);
      if u.Some? then OgSubmission(u, true) else OgSubmission(None, false)
    else OgSubmission(Some(OgRegister(form, nowMillis)), true)
  }

  /** Submitting the initial form signs nobody in, and a registration
      from it gets the preset role. */
  lemma InitialFormSubmits(requiredRole: Option<OgRole>, nowMillis: nat)
    ensures OgHandleSubmit(true, InitialForm(requiredRole), nowMillis).login.None?
    ensures OgHandleSubmit(false, InitialForm(requiredRole), nowMillis).login.value.role == requiredRole.GetOr(Customer)
  {
  }
}
