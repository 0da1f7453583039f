/** The sign-in and registration dialog (`src/components/AuthModal.tsx`):
    the ordered chain of demo sign-ins, the role a registration gets, and
    the form reset when the dialog opens. */
module AuthModal {
  import opened Wrappers
  import opened Text
  import opened Types

  const AdminDemo: User := User("admin-1", "admin@adventureworks.com", "Administrador Sistema", Admin, None)
  const CustomerDemo: User := User("customer-1", "cliente@ejemplo.com", "Juan Pérez", Customer, Some("1234567-8"))
  const CashierDemo: User := User("cashier-1", "cajera@adventureworks.com", "María González", Cashier, None)

  /** The sign-in branch of `handleSubmit`. The rules are tried in order and
      the first that matches signs in: the three demo accounts; then any
      e-mail holding "admin" with the administrator password, any holding
      "cajera" with the cashier password, and any e-mail at all with the
      customer password. None is the "wrong credentials" alert. */
  function Login(email: string, password: string): (r: Option<User>)
    ensures r.Some? ==> r.value.email == email
    ensures r.Some? && r.value.role == Admin ==> password == "admin123" && Contains(email, "admin")
    ensures r.Some? && r.value.role == Cashier ==> password == "cajera123" && Contains(email, "cajera")
    ensures r.Some? && r.value.role == Customer ==> password == "cliente123"
    ensures password == "cliente123" ==> r.Some?
  {
    if email == "admin@adventureworks.com" && password == "admin123" then
      assert "admin" <= email;
      Some(AdminDemo)
    else if email == "cajera@adventureworks.com" && password == "cajera123" then
      assert "cajera" <= email;
      Some(CashierDemo)
    else if email == "cliente@ejemplo.com" && password == "cliente123" then Some(CustomerDemo)
    else if Contains(email, "admin") && password == "admin123" then
      Some(AdminDemo.(email := email, name := "Administrador"))
    else if Contains(email, "cajera") && password == "cajera123" then
      Some(CashierDemo.(email := email, name := "Cajera"))
    else if password == "cliente123" then
      Some(CustomerDemo.(email := email, name := BeforeFirst(email, '@')))
    else None
  }

  /** Exactly the credentials no rule accepts are refused. */
  lemma LoginRefusedIff(email: string, password: string)
    ensures Login(email, password).None? <==>
      !((password == "admin123" && Contains(email, "admin"))
        || (password == "cajera123" && Contains(email, "cajera"))
        || password == "cliente123")
  {
    if email == "admin@adventureworks.com" {
      assert "admin" <= email;
    }
    if email == "cajera@adventureworks.com" {
      assert "cajera" <= email;
    }
  }

  /** The three demo accounts sign in as themselves. */
  lemma DemoAccounts()
    ensures Login("admin@adventureworks.com", "admin123") == Some(AdminDemo)
    ensures Login("cajera@adventureworks.com", "cajera123") == Some(CashierDemo)
    ensures Login("cliente@ejemplo.com", "cliente123") == Some(CustomerDemo)
  {
  }

  /** A customer sign-in other than the demo customer is named after the
      text of the e-mail before its first '@'. */
  lemma GenericCustomerName(email: string)
    requires email != "cliente@ejemplo.com"
    requires !Contains(email, "admin") && !Contains(email, "cajera")
    ensures Login(email, "cliente123") == Some(CustomerDemo.(email := email, name := BeforeFirst(email, '@')))
  {
  }

  /** The role a registration detects from the e-mail: administrator when
      it holds "admin" or "administrador", else cashier when it holds
      "cajera" or "cashier", else customer. */
  function DetectRole(email: string): (role: Role)
    ensures role == Admin <==> Contains(email, "admin")
    ensures role == Cashier <==> !Contains(email, "admin") && (Contains(email, "cajera") || Contains(email, "cashier"))
  {
    AdministradorHoldsAdmin(email);
    if Contains(email, "admin") || Contains(email, "administrador") then Admin
    else if Contains(email, "cajera") || Contains(email, "cashier") then Cashier
    else Customer
  }

  /** The second test of `isAdminEmail` adds nothing: "administrador"
      holds "admin". */
  lemma AdministradorHoldsAdmin(email: string)
    ensures Contains(email, "administrador") ==> Contains(email, "admin")
  {
    if Contains(email, "administrador") {
      assert "admin" <= "administrador";
      ContainsTransitive(email, "administrador", "admin");
    }
  }

  /** The registration branch of `handleSubmit`: a new user with
      `Date.now()` as id, the dialog's required role if it has one and the
      detected role otherwise; the tax number is kept exactly when the
      detected role (not the final one) is customer. */
  function Register(email: string, name: string, nit: string, requiredRole: Option<Role>, nowMillis: nat): (u: User)
    ensures u.id == NatToString(nowMillis) && u.email == email && u.name == name
    ensures u.role == requiredRole.GetOr(DetectRole(email))
    ensures u.nit.Some? <==> DetectRole(email) == Customer
    ensures u.nit.Some? ==> u.nit.value == nit
  {
    var detected := DetectRole(email);
    User(NatToString(nowMillis), email, name, requiredRole.GetOr(detected), if detected == Customer then Some(nit) else None)
  }

  /** The form fields of the dialog. */
  datatype FormData = FormData(email: string, password: string, name: string, nit: string, role: Role)

  /** Opening the dialog empties the form and presets the role to the
      required one, or customer. */
  function OpenedForm(requiredRole: Option<Role>): (f: FormData)
    ensures f.email == "" && f.password == "" && f.name == "" && f.nit == ""
    ensures f.role == requiredRole.GetOr(Customer)
  {
    FormData("", "", "", "", requiredRole.GetOr(Customer))
  }

  /** Submitting a freshly opened form signs nobody in, and registering
      from it gives the required role or customer. */
  lemma OpenedFormSubmits(requiredRole: Option<Role>, nowMillis: nat)
    ensures var f := OpenedForm(requiredRole);
      && Login(f.email, f.password).None?
      && Register(f.email, f.name, f.nit, requiredRole, nowMillis).role == f.role
  {
    var f := OpenedForm(requiredRole);
    assert !Contains(f.email, "admin") && !Contains(f.email, "cajera") && !Contains(f.email, "cashier");
  }

  /** What `handleSubmit` does: the user passed to `onLogin`, if any, and
      whether `onClose` is called afterwards (only after a registration; a
      sign-in returns before it, and App closes the dialog itself). */
  datatype Submission = Submission(login: Option<User>, closes: bool)

  function HandleSubmit(isLogin: bool, form: FormData, requiredRole: Option<Role>, nowMillis: nat): (s: Submission)
    ensures isLogin ==> s.login == Login(form.email, form.password) && !s.closes
    ensures !isLogin ==> s.login == Some(Register(form.email, form.name, form.nit, requiredRole, nowMillis)) && s.closes
  {
    if isLogin then Submission(Login(form.email, form.password), false)
    else Submission(Some(Register(form.email, form.name, form.nit, requiredRole, nowMillis)), true)
  }
}
