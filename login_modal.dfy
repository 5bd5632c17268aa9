/**
 * The login / registration modal: where a signed-in user is sent by role,
 * the ordered registration checks, and the state the two submit handlers
 * and the mode switches leave behind.
 */
module LoginModal {
  import opened Text
  import opened Wrappers
  import opened Validation
  import opened Browser
  import opened Backend

  /** The `user` object of a login answer: its JSON text and its `role` ("" when absent). */
  datatype SessionUser = SessionUser(json: string, role: string)

  /** A reply whose payload is the login answer's `user`, when present. */
  type LoginReply = Reply<Option<SessionUser>>

  const MsgLoginFailed := "Error al iniciar sesión"
  const MsgRegistrationFailed := "Error al crear la cuenta"
  /** What reading `role` of an undefined `user` throws. */
  const MsgNoUserRole := "Cannot read properties of undefined (reading 'role')"

  /** The path `handleLoginSubmit` sends a signed-in user to. */
  function RedirectForRole(role: string): (path: string)
    ensures path == "/admin/dashboard" <==> role == "administrador"
    ensures path == "/operator/dashboard" <==> role == "recepcionista"
    ensures path == "/dashboard" <==> role == "cliente"
    ensures path == "/" <==> role !in {"administrador", "recepcionista", "cliente"}
  {
    if role == "administrador" then "/admin/dashboard"
    else if role == "recepcionista" then "/operator/dashboard"
    else if role == "cliente" then "/dashboard"
    else "/"
  }

  /** The message a failed login shows. */
  function LoginErrorOf(reply: LoginReply): (msg: string)
    requires !reply.Succeeded()
    ensures msg != ""
    ensures reply.Answered? && reply.error != "" ==> msg == reply.error
    ensures reply.Answered? && reply.error == "" ==> msg == MsgLoginFailed
    ensures reply.Thrown? ==> msg == OrElse(reply.message, MsgNoServer)
  {
    match reply
    case Thrown(m) => OrElse(m, MsgNoServer)
    case Answered(_, _, _, _, e, _) => OrElse(e, MsgLoginFailed)
  }

  class LoginForm {
    var username: string
    var password: string
    var loginError: string
    var isLoading: bool
    /** "login" or "registro" */
    var modo: string
    var registroData: map<string, string>

    predicate Valid()
      reads this
    {
      registroData.Keys == RegistrationFields
    }

    constructor ()
      ensures Valid()
      ensures username == "" && password == "" && loginError == "" && !isLoading
      ensures modo == "login" && registroData == EmptyRegistration
    {
      username := "";
      password := "";
      loginError := "";
      isLoading := false;
      modo := "login";
      registroData := EmptyRegistration;
    }

    /** The mode selector buttons and the links under each form: every switch clears the error. */
    method SetModo(m: string)
      modifies this`modo, this`loginError
      ensures modo == m && loginError == ""
    {
      modo := m;
      loginError := "";
    }

    /** An input of the registration form: only that field changes. */
    method SetRegistroField(name: string, value: string)
      requires Valid() && name in RegistrationFields
      modifies this`registroData
      ensures Valid()
      ensures registroData == old(registroData)[name := value]
    {
      registroData := registroData[name := value];
    }

    /**
     * `handleLoginSubmit` once the reply is in. A login succeeds only when
     * the answer is ok AND reports success: then the user is stored, the
     * credentials are cleared and the browser is sent to the role's page.
     * Any other reply keeps the credentials and shows a message.
     * `parentReadsRole` says whether the parent's `onLoginSuccess` reads the
     * user's `role`, as the header's does: then an answer without `user`
     * throws inside that callback, before the credentials are cleared;
     * otherwise it throws at the redirect, after they are.
     */
    method HandleLoginSubmit(reply: LoginReply, storage: Storage, parentReadsRole: bool) returns (redirect: Option<string>)
      modifies this`loginError, this`isLoading, this`username, this`password, storage
      ensures !isLoading
      ensures modo == old(modo) && registroData == old(registroData)
      ensures reply.Succeeded() && reply.data.Some? ==>
        && redirect == Some(RedirectForRole(reply.data.value.role))
        && storage.items == old(storage.items)["user" := reply.data.value.json]
        && username == "" && password == "" && loginError == ""
      ensures reply.Succeeded() && reply.data.None? ==>
        && redirect == None
        && storage.items == old(storage.items)["user" := "undefined"]
        && loginError == MsgNoUserRole
      ensures reply.Succeeded() && reply.data.None? && parentReadsRole ==>
        username == old(username) && password == old(password)
      ensures reply.Succeeded() && reply.data.None? && !parentReadsRole ==>
        username == "" && password == ""
      ensures !reply.Succeeded() ==>
        && redirect == None && storage.items == old(storage.items)
        && username == old(username) && password == old(password)
        && loginError == LoginErrorOf(reply)
    {
      loginError := "";
      isLoading := true;
      if !reply.Succeeded() {
        isLoading := false;
        loginError := LoginErrorOf(reply);
        return None;
      }
      isLoading := false;
      match reply.data {
        case Some(u) =>
          storage.SetItem("user", u.json);
          username := "";
          password := "";
          redirect := Some(RedirectForRole(u.role));
        case None =>
          storage.SetItem("user", "undefined");
          if !parentReadsRole {
            username := "";
            password := "";
          }
          loginError := MsgNoUserRole;
          redirect := None;
      }
    }

    /**
     * `handleRegistroSubmit`. The checks run first, in order, and a failure
     * shows its message without any request (`sent` is false). A sent
     * request that fails shows the reply's message; one that succeeds
     * switches to login mode with no error and an empty form.
     */
    method HandleRegistroSubmit(reply: Reply<()>) returns (sent: bool)
      requires Valid()
      modifies this`loginError, this`isLoading, this`modo, this`registroData
      ensures Valid() && !isLoading
      ensures var check := RegistrationError(old(registroData)["password"], old(registroData)["confirmPassword"],
                                             old(registroData)["email"]);
        && (sent <==> check == None)
        && (!sent ==> loginError == check.value && modo == old(modo) && registroData == old(registroData))
      ensures sent && reply.Succeeded() ==>
        modo == "login" && loginError == "" && registroData == EmptyRegistration
      ensures sent && reply.Answered? && !reply.Succeeded() ==>
        loginError == OrElse(reply.error, MsgRegistrationFailed)
        && modo == old(modo) && registroData == old(registroData)
      ensures sent && reply.Thrown? ==>
        loginError == OrElse(reply.message, MsgNoServer)
        && modo == old(modo) && registroData == old(registroData)
    {
      loginError := "";
      isLoading := true;
      var check := RegistrationError(registroData["password"], registroData["confirmPassword"], registroData["email"]);
      if check.Some? {
        isLoading := false;
        loginError := check.value;
        return false;
      }
      sent := true;
      match reply {
        case Thrown(m) =>
          isLoading := false;
          loginError := OrElse(m, MsgNoServer);
        case Answered(ok, _, _, success, e, _) =>
          if !ok || !success {
            isLoading := false;
            loginError := OrElse(e, MsgRegistrationFailed);
          } else {
            isLoading := false;
            modo := "login";
            loginError := "";
            registroData := EmptyRegistration;
          }
      }
    }
  }
}
