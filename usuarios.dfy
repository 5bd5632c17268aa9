/**
 * The administrator's user management: employees are created and edited
 * through one form; clients are listed with their age.
 */
module Usuarios {
  import opened Text
  import opened Wrappers
  import opened Backend

  const EmpleadosUrl := "http://localhost:5000/api/empleados/"

  /** A calendar date; `month` counts from zero as `getMonth()` does. */
  datatype Date = Date(year: int, month: int, day: int)

  /** Calendar order of two dates. */
  predicate NotAfter(a: Date, b: Date) {
    a.year < b.year
    || (a.year == b.year && (a.month < b.month || (a.month == b.month && a.day <= b.day)))
  }

  /** The date `k` years after `d`, on the same month and day. */
  function Anniversary(d: Date, k: int): Date {
    d.(year := d.year + k)
  }

  /**
   * `calcularEdad`: the difference of years, one less when today's month
   * and day come before the birthday's. A missing birth date gives "N/A",
   * here `None`. The result is the number of birthdays reached by `hoy`.
   */
  method CalcularEdad(fechaNacimiento: Option<Date>, hoy: Date) returns (edad: Option<int>)
    ensures edad.None? <==> fechaNacimiento.None?
    ensures edad.Some? ==> NotAfter(Anniversary(fechaNacimiento.value, edad.value), hoy)
    ensures edad.Some? ==> !NotAfter(Anniversary(fechaNacimiento.value, edad.value + 1), hoy)
    ensures edad.Some? ==> edad.value == Age(fechaNacimiento.value, hoy)
  {
    if fechaNacimiento.None? {
      return None;
    }
    var nacimiento := fechaNacimiento.value;
    var e := hoy.year - nacimiento.year;
    var mes := hoy.month - nacimiento.month;
    if mes < 0 || (mes == 0 && hoy.day < nacimiento.day) {
      e := e - 1;
    }
    edad := Some(e);
  }

  /** The number of birthdays reached, as a function of the two dates. */
  function Age(nacimiento: Date, hoy: Date): (k: int)
    ensures NotAfter(Anniversary(nacimiento, k), hoy) && !NotAfter(Anniversary(nacimiento, k + 1), hoy)
  {
    if hoy.month < nacimiento.month || (hoy.month == nacimiento.month && hoy.day < nacimiento.day)
    then hoy.year - nacimiento.year - 1
    else hoy.year - nacimiento.year
  }

  /** Anyone born no later than today has a non-negative age. */
  lemma AgeNonNegative(nacimiento: Date, hoy: Date)
    requires NotAfter(nacimiento, hoy)
    ensures Age(nacimiento, hoy) >= 0
  {
  }

  /** The count of birthdays reached is unique: it is `Age`. */
  lemma AgeUnique(nacimiento: Date, hoy: Date, k: int)
    requires NotAfter(Anniversary(nacimiento, k), hoy) && !NotAfter(Anniversary(nacimiento, k + 1), hoy)
    ensures k == Age(nacimiento, hoy)
  {
  }

  const EmployeeFields: set<string> :=
    {"nombre", "apellido", "email", "telefono", "puesto", "salario", "fecha_contratacion", "username", "password", "role"}

  /** `resetForm`: empty text fields, receptionist post and role, hired today. */
  function EmptyEmployee(hoyIso: string): (f: map<string, string>)
    ensures f.Keys == EmployeeFields
    ensures f["puesto"] == "recepcionista" && f["role"] == "recepcionista"
    ensures f["fecha_contratacion"] == hoyIso
    ensures forall k :: k in f && k !in {"puesto", "role", "fecha_contratacion"} ==> f[k] == ""
  {
    map["nombre" := "", "apellido" := "", "email" := "", "telefono" := "", "puesto" := "recepcionista",
        "salario" := "", "fecha_contratacion" := hoyIso, "username" := "", "password" := "",
        "role" := "recepcionista"]
  }

  /** An employee as listed; "" stands for a missing or empty value. */
  datatype Empleado = Empleado(id: int, nombre: string, apellido: string, email: string, telefono: string,
                               puesto: string, salario: string, fechaContratacion: string,
                               username: string, role: string)

  /**
   * The form `abrirEditarModal` fills in: the employee's values, an empty
   * password, and the receptionist role when the employee has none.
   */
  function EditForm(e: Empleado): (f: map<string, string>)
    ensures f.Keys == EmployeeFields
    ensures f["password"] == ""
    ensures f["role"] == (if e.role == "" then "recepcionista" else e.role)
    ensures f["telefono"] == e.telefono && f["username"] == e.username
    ensures f["nombre"] == e.nombre && f["apellido"] == e.apellido && f["email"] == e.email
  {
    map["nombre" := e.nombre, "apellido" := e.apellido, "email" := e.email,
        "telefono" := OrElse(e.telefono, ""), "puesto" := e.puesto, "salario" := e.salario,
        "fecha_contratacion" := e.fechaContratacion, "username" := OrElse(e.username, ""),
        "password" := "", "role" := OrElse(e.role, "recepcionista")]
  }

  /** The edit form never carries a password and always carries a role. */
  lemma EditFormHasRoleNoPassword(e: Empleado)
    ensures EditForm(e)["password"] == "" && EditForm(e)["role"] != ""
  {
  }

  /** The password input is required only when creating an employee with a username. */
  predicate PasswordRequired(editing: Option<Empleado>, form: map<string, string>)
    requires "username" in form
  {
    editing.None? && form["username"] != ""
  }

  /** Editing never requires a password, and neither does a blank username. */
  lemma PasswordRequiredOnlyForNewLogins(editing: Option<Empleado>, form: map<string, string>)
    requires "username" in form
    ensures PasswordRequired(editing, form) ==> editing.None?
    ensures form["username"] == "" ==> !PasswordRequired(editing, form)
  {
  }

  class EmployeeAdmin {
    var nuevoEmpleado: map<string, string>
    var editing: Option<Empleado>
    var showModal: bool
    var error: string
    const hoyIso: string

    predicate Valid()
      reads this
    {
      EmployeeFields <= nuevoEmpleado.Keys
    }

    constructor (hoyIso: string)
      ensures Valid() && nuevoEmpleado == EmptyEmployee(hoyIso) && this.hoyIso == hoyIso
      ensures editing == None && !showModal && error == ""
    {
      this.hoyIso := hoyIso;
      nuevoEmpleado := EmptyEmployee(hoyIso);
      editing := None;
      showModal := false;
      error := "";
    }

    /** `handleInputChange`: only the named field changes. */
    method HandleInputChange(name: string, value: string)
      requires Valid()
      modifies this`nuevoEmpleado
      ensures Valid()
      ensures nuevoEmpleado == old(nuevoEmpleado)[name := value]
    {
      nuevoEmpleado := nuevoEmpleado[name := value];
    }

    method ResetForm()
      modifies this`nuevoEmpleado
      ensures Valid() && nuevoEmpleado == EmptyEmployee(hoyIso)
    {
      nuevoEmpleado := EmptyEmployee(hoyIso);
    }

    method AbrirEditarModal(e: Empleado)
      modifies this`editing, this`nuevoEmpleado, this`showModal
      ensures Valid() && editing == Some(e) && nuevoEmpleado == EditForm(e) && showModal
    {
      editing := Some(e);
      nuevoEmpleado := EditForm(e);
      showModal := true;
    }

    method CerrarModal()
      modifies this`editing, this`nuevoEmpleado, this`showModal
      ensures Valid() && editing == None && nuevoEmpleado == EmptyEmployee(hoyIso) && !showModal
    {
      showModal := false;
      editing := None;
      nuevoEmpleado := EmptyEmployee(hoyIso);
    }

    /**
     * `handleCrearEmpleado`: a `success` answer closes the modal and resets
     * the form (the status is not looked at); otherwise the backend's error
     * is shown, or the failure with its prefix when the request threw.
     */
    method HandleCrearEmpleado(reply: Reply<()>) returns (reload: bool)
      modifies this`nuevoEmpleado, this`showModal, this`error
      ensures reload <==> reply.Answered? && reply.success
      ensures reload ==> !showModal && nuevoEmpleado == EmptyEmployee(hoyIso) && error == old(error)
      ensures reply.Answered? && !reply.success ==> error == reply.error && nuevoEmpleado == old(nuevoEmpleado)
      ensures reply.Thrown? ==> error == "Error al crear empleado: " + reply.message && nuevoEmpleado == old(nuevoEmpleado)
      ensures !reload ==> showModal == old(showModal)
    {
      reload := false;
      match reply {
        case Thrown(m) =>
          error := "Error al crear empleado: " + m;
        case Answered(_, _, _, success, err, _) =>
          if success {
            showModal := false;
            nuevoEmpleado := EmptyEmployee(hoyIso);
            reload := true;
          } else {
            error := err;
          }
      }
    }

    /**
     * `handleActualizarEmpleado`, which the form calls only while an employee
     * is being edited: the employee is sent with PUT to its own address; a
     * `success` answer closes the modal and leaves editing, otherwise the
     * error is shown as for creation.
     */
    method HandleActualizarEmpleado(reply: Reply<()>) returns (req: Request, reload: bool)
      requires editing.Some?
      modifies this`editing, this`nuevoEmpleado, this`showModal, this`error
      ensures req == Request("PUT", EmpleadosUrl + ShowInt(old(editing).value.id), [])
      ensures reload <==> reply.Answered? && reply.success
      ensures reload ==> !showModal && editing == None && nuevoEmpleado == EmptyEmployee(hoyIso) && error == old(error)
      ensures !reload ==> editing == old(editing) && nuevoEmpleado == old(nuevoEmpleado) && showModal == old(showModal)
      ensures reply.Answered? && !reply.success ==> error == reply.error
      ensures reply.Thrown? ==> error == "Error al actualizar empleado: " + reply.message
    {
      req := Request("PUT", EmpleadosUrl + ShowInt(editing.value.id), []);
      reload := false;
      match reply {
        case Thrown(m) =>
          error := "Error al actualizar empleado: " + m;
        case Answered(_, _, _, success, err, _) =>
          if success {
            showModal := false;
            editing := None;
            nuevoEmpleado := EmptyEmployee(hoyIso);
            reload := true;
          } else {
            error := err;
          }
      }
    }

    /**
     * `handleEliminarEmpleado`: nothing happens unless the user confirms;
     * then a DELETE is sent and a `success` answer reloads the list.
     */
    method HandleEliminarEmpleado(id: int, confirmed: bool, reply: Reply<()>) returns (req: Option<Request>, reload: bool)
      modifies this`error
      ensures req.Some? <==> confirmed
      ensures req.Some? ==> req.value == Request("DELETE", EmpleadosUrl + ShowInt(id), [])
      ensures reload <==> confirmed && reply.Answered? && reply.success
      ensures confirmed && reply.Answered? && !reply.success ==> error == reply.error
      ensures confirmed && reply.Thrown? ==> error == "Error al eliminar empleado: " + reply.message
      ensures !confirmed || reload ==> error == old(error)
    {
      req, reload := None, false;
      if !confirmed {
        return;
      }
      req := Some(Request("DELETE", EmpleadosUrl + ShowInt(id), []));
      match reply {
        case Thrown(m) =>
          error := "Error al eliminar empleado: " + m;
        case Answered(_, _, _, success, err, _) =>
          if success {
            reload := true;
          } else {
            error := err;
          }
      }
    }
  }
}
