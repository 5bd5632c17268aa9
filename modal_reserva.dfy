/**
 * The booking modal: step 1 collects the guest's details, step 2 the card,
 * step 3 confirms. A step only advances when its checks and replies allow.
 */
module ModalReserva {
  import opened Text
  import opened Wrappers
  import opened Backend

  const BookingFields: set<string> :=
    {"nombre", "apellido", "email", "telefono", "nacionalidad", "tarjeta", "vencimiento", "cvv"}

  const EmptyBooking: map<string, string> := map k | k in BookingFields :: ""

  /** Step 1 needs nombre, apellido, email and telefono; nacionalidad is optional. */
  predicate DatosCompletos(form: map<string, string>)
    requires BookingFields <= form.Keys
  {
    form["nombre"] != "" && form["apellido"] != "" && form["email"] != "" && form["telefono"] != ""
  }

  /** Step 2 needs tarjeta, vencimiento and cvv. */
  predicate PagoCompleto(form: map<string, string>)
    requires BookingFields <= form.Keys
  {
    form["tarjeta"] != "" && form["vencimiento"] != "" && form["cvv"] != ""
  }

  const PagosUrl := "http://localhost:5000/api/pagos/procesar"

  /** The payment request: the card number travels with all whitespace removed. */
  function PaymentRequest(form: map<string, string>): (r: Request)
    requires BookingFields <= form.Keys
    ensures r.url == PagosUrl && r.verb == "POST"
    ensures ("tarjeta", StripSpaces(form["tarjeta"])) in r.params
    ensures forall i :: 0 <= i < |r.params| && r.params[i].0 == "tarjeta" ==> NoSpaces(r.params[i].1)
  {
    Request("POST", PagosUrl,
            [("tarjeta", StripSpaces(form["tarjeta"])), ("vencimiento", form["vencimiento"]),
             ("cvv", form["cvv"]), ("email", form["email"])])
  }

  /** Progress step `k` is highlighted while the modal is at step `k` or later. */
  predicate StepActive(paso: int, k: int) {
    paso >= k
  }

  class BookingModal {
    /** 1: details, 2: payment, 3: confirmation */
    var paso: int
    var formData: map<string, string>
    var loading: bool

    predicate Valid()
      reads this
    {
      1 <= paso <= 3 && BookingFields <= formData.Keys
    }

    constructor ()
      ensures Valid() && paso == 1 && formData == EmptyBooking && !loading
    {
      paso := 1;
      formData := EmptyBooking;
      loading := false;
    }

    /** The first progress step is always highlighted, and the last only on confirmation. */
    lemma ProgressShowsStep()
      requires Valid()
      ensures StepActive(paso, 1)
      ensures StepActive(paso, 3) <==> paso == 3
    {
    }

    /** `handleInputChange`: only the named field changes. */
    method HandleInputChange(name: string, value: string)
      requires Valid()
      modifies this`formData
      ensures Valid()
      ensures formData == old(formData)[name := value]
    {
      formData := formData[name := value];
    }

    /**
     * `handleSubmitDatos`. Missing details send nothing. Otherwise the e-mail
     * check runs (`existe`; a failed check counts as not existing) and the
     * modal moves to step 2, unless the e-mail is known and the guest
     * declines to continue.
     */
    method HandleSubmitDatos(existe: bool, continuar: bool) returns (checked: bool)
      requires Valid()
      modifies this`paso, this`loading
      ensures Valid() && !loading
      ensures checked <==> DatosCompletos(formData)
      ensures checked && !(existe && !continuar) ==> paso == 2
      ensures !(checked && !(existe && !continuar)) ==> paso == old(paso)
    {
      loading := true;
      if !DatosCompletos(formData) {
        loading := false;
        return false;
      }
      checked := true;
      if existe && !continuar {
        loading := false;
        return;
      }
      paso := 2;
      loading := false;
    }

    /** "Volver" on the payment step. */
    method Volver()
      requires Valid()
      modifies this`paso
      ensures Valid() && paso == 1
    {
      paso := 1;
    }

    /**
     * `procesarPago`. Missing card data send nothing. Otherwise the payment
     * request is sent; the reservation is created only after a payment
     * reporting success, and the modal reaches step 3 only when both report
     * success. Every failure leaves the modal on the payment step, the only
     * step whose form offers this action.
     */
    method ProcesarPago(pago: Reply<()>, reserva: Reply<()>) returns (sent: Option<Request>, reservaSent: bool)
      requires Valid() && paso == 2
      modifies this`paso, this`loading
      ensures Valid() && !loading && formData == old(formData)
      ensures sent.Some? <==> PagoCompleto(formData)
      ensures sent.Some? ==> sent.value == PaymentRequest(formData)
      ensures reservaSent <==> sent.Some? && pago.Answered? && pago.success
      ensures paso == 3 <==> reservaSent && reserva.Answered? && reserva.success
      ensures paso != 3 ==> paso == 2
    {
      loading := true;
      reservaSent := false;
      if !PagoCompleto(formData) {
        loading := false;
        return None, false;
      }
      sent := Some(PaymentRequest(formData));
      if pago.Answered? && pago.success {
        reservaSent := true;
        if reserva.Answered? && reserva.success {
          paso := 3;
        }
      }
      loading := false;
    }
  }
}
