/**
 * The stand-alone registration modal: the same ordered checks as the login
 * modal, a generic field update, and what a reply does to the form. Its
 * address check is the login modal's regular expression, so it is
 * `Validation.ValidarEmail` here too.
 */
module ModalRegistro {
  import opened Text
  import opened Wrappers
  import opened Validation
  import opened Backend

  const MsgRegisterFailed := "Error al registrar usuario"

  class RegistrationModal {
    var formData: map<string, string>
    var error: string
    var loading: bool

    predicate Valid()
      reads this
    {
      RegistrationFields <= formData.Keys
    }

    constructor ()
      ensures Valid() && formData == EmptyRegistration && error == "" && !loading
    {
      formData := EmptyRegistration;
      error := "";
      loading := false;
    }

    /** `handleInputChange`: `{...formData, [name]: value}`. */
    method HandleInputChange(name: string, value: string)
      requires Valid()
      modifies this`formData
      ensures Valid()
      ensures name in formData && formData[name] == value
      ensures forall k :: k in old(formData) && k != name ==> k in formData && formData[k] == old(formData)[k]
      ensures formData.Keys == old(formData).Keys + {name}
    {
      formData := formData[name := value];
    }

    /**
     * `handleSubmit`. A failed check sets its message and sends nothing. A
     * sent request that reports success resets all eight fields (and
     * `registered` tells the caller to close the modal); any other result
     * keeps the form and shows a message. `loading` ends false on every path.
     */
    method HandleSubmit(reply: Reply<()>) returns (sent: bool, registered: bool)
      requires Valid()
      modifies this
      ensures Valid() && !loading
      ensures var check := RegistrationError(old(formData)["password"], old(formData)["confirmPassword"],
                                             old(formData)["email"]);
        && (sent <==> check == None)
        && (!sent ==> error == check.value && formData == old(formData) && !registered)
      ensures sent ==> (registered <==> reply.Answered? && reply.success)
      ensures registered ==> formData == EmptyRegistration && error == ""
      ensures sent && reply.Answered? && !reply.success ==>
        formData == old(formData) && error == OrElse(reply.error, MsgRegisterFailed)
      ensures sent && reply.Thrown? ==> formData == old(formData) && error == MsgNoServer
    {
      loading := true;
      error := "";
      registered := false;
      var check := RegistrationError(formData["password"], formData["confirmPassword"], formData["email"]);
      if check.Some? {
        error := check.value;
        loading := false;
        return false, false;
      }
      sent := true;
      match reply {
        case Thrown(_) =>
          error := MsgNoServer;
        case Answered(_, _, _, success, e, _) =>
          if success {
            registered := true;
            formData := EmptyRegistration;
          } else {
            error := OrElse(e, MsgRegisterFailed);
          }
      }
      loading := false;
    }
  }
}
