/**
 * The validation rules shared by the login modal and the registration modal:
 * the e-mail pattern `^[^\s@]+@[^\s@]+\.[^\s@]+$` and the ordered checks run
 * before a registration request is sent.
 */
module Validation {
  import opened Text
  import opened Wrappers

  /** A non-empty run of `[^\s@]`. */
  predicate Segment(x: string) {
    x != [] && forall k :: 0 <= k < |x| ==> !IsSpace(x[k]) && x[k] != '@'
  }

  /**
   * The e-mail pattern read as a language: `s` is A "@" B "." C with the '@'
   * at `i`, the '.' at `j`, and A, B, C non-empty runs of `[^\s@]`.
   */
  ghost predicate EmailSplit(s: string, i: int, j: int) {
    0 < i < j < |s| - 1 && s[i] == '@' && s[j] == '.'
    && Segment(s[..i]) && Segment(s[i + 1..j]) && Segment(s[j + 1..])
  }

  /** No whitespace and no '@' anywhere in `x` (a possibly empty run of `[^\s@]`). */
  predicate Clean(x: string) {
    forall k :: 0 <= k < |x| ==> !IsSpace(x[k]) && x[k] != '@'
  }

  /**
   * `validarEmail`: the text before the first '@' is a non-empty clean run,
   * the text after it is clean and has a '.' that is neither its first nor
   * its last character.
   */
  function ValidarEmail(s: string): (ok: bool)
    ensures ok <==> exists i, j :: EmailSplit(s, i, j)
  {
    var at := IndexOf(s, '@');
    if at <= 0 then
      NoSplitWithoutAt(s, at);
      false
    else
      var rest := s[at + 1..];
      var ok := Clean(s[..at]) && Clean(rest) && |rest| >= 3 && '.' in rest[1..|rest| - 1];
      EmailIff(s, at, ok);
      ok
  }

  lemma NoSplitWithoutAt(s: string, at: int)
    requires at == IndexOf(s, '@') && at <= 0
    ensures !exists i, j :: EmailSplit(s, i, j)
  {
    if at == -1 {
      assert forall k :: 0 <= k < |s| ==> s[k] != '@';
    } else {
      forall i | 0 < i <= |s|
        ensures !Segment(s[..i])
      {
        assert s[..i][0] == s[0] == '@';
      }
    }
  }

  lemma EmailIff(s: string, at: int, ok: bool)
    requires at == IndexOf(s, '@') && at > 0
    requires ok == (Clean(s[..at]) && Clean(s[at + 1..]) && |s[at + 1..]| >= 3
                    && '.' in s[at + 1..][1..|s[at + 1..]| - 1])
    ensures ok <==> exists i, j :: EmailSplit(s, i, j)
  {
    if ok {
      EmailSplitFound(s, at);
    }
    if exists i, j :: EmailSplit(s, i, j) {
      var i, j :| EmailSplit(s, i, j);
      EmailSplitChecked(s, at, i, j);
    }
  }

  /** The checks passing give the '@' and a '.' that split the address. */
  lemma EmailSplitFound(s: string, at: int)
    requires 0 < at < |s| && s[at] == '@'
    requires Clean(s[..at]) && Clean(s[at + 1..]) && |s[at + 1..]| >= 3
    requires '.' in s[at + 1..][1..|s[at + 1..]| - 1]
    ensures exists i, j :: EmailSplit(s, i, j)
  {
    var rest := s[at + 1..];
    var inner := rest[1..|rest| - 1];
    var k :| 0 <= k < |inner| && inner[k] == '.';
    var j := at + 2 + k;
    assert s[j] == '.';
    assert s[at + 1..j] == rest[..k + 1];
    assert s[j + 1..] == rest[k + 2..];
    assert Segment(s[..at]);
    assert Segment(rest[..k + 1]);
    assert Segment(rest[k + 2..]);
    assert EmailSplit(s, at, j);
  }

  /** A split address passes the checks made at its first '@'. */
  lemma EmailSplitChecked(s: string, at: int, i: int, j: int)
    requires at == IndexOf(s, '@') && at > 0
    requires EmailSplit(s, i, j)
    ensures Clean(s[..at]) && Clean(s[at + 1..]) && |s[at + 1..]| >= 3
    ensures '.' in s[at + 1..][1..|s[at + 1..]| - 1]
  {
    var rest := s[at + 1..];
    forall k | 0 <= k < i
      ensures s[k] != '@'
    {
      assert s[..i][k] == s[k];
    }
    FirstOccurrence(s, '@', i, at);
    forall k | 0 <= k < |rest|
      ensures !IsSpace(rest[k]) && rest[k] != '@'
    {
      assert rest[k] == s[at + 1 + k];
      if at + 1 + k < j {
        assert s[at + 1 + k] == s[i + 1..j][k];
      } else if at + 1 + k > j {
        assert s[at + 1 + k] == s[j + 1..][at + k - j];
      }
    }
    assert rest[1..|rest| - 1][j - at - 2] == '.';
  }

  /** Two positions that each hold the first occurrence of `c` coincide. */
  lemma FirstOccurrence(s: string, c: char, a: int, b: int)
    requires 0 <= a < |s| && 0 <= b < |s| && s[a] == c && s[b] == c
    requires forall k :: 0 <= k < a ==> s[k] != c
    requires forall k :: 0 <= k < b ==> s[k] != c
    ensures a == b
  {
  }

  /** Every accepted address has exactly one '@', with text on both sides. */
  lemma EmailHasOneAt(s: string)
    requires ValidarEmail(s)
    ensures '@' in s
    ensures 0 < IndexOf(s, '@')
    ensures '@' !in s[IndexOf(s, '@') + 1..]
  {
    var i, j :| EmailSplit(s, i, j);
    assert s[..i][0] != '@';
  }

  /** Shown when a form's request fails without an answer of the backend. */
  const MsgNoServer := "No se pudo conectar con el servidor. Verifica que el backend esté ejecutándose."

  /** The eight fields of a registration form. */
  const RegistrationFields: set<string> :=
    {"nombre", "apellido", "email", "telefono", "fecha_nacimiento", "username", "password", "confirmPassword"}

  /** A registration form with every field empty. */
  const EmptyRegistration: map<string, string> := map k | k in RegistrationFields :: ""

  const MsgPasswordsDiffer := "Las contraseñas no coinciden"
  const MsgPasswordTooShort := "La contraseña debe tener al menos 4 caracteres"
  const MsgInvalidEmail := "Por favor ingresa un email válido"

  /**
   * The checks both registration forms run before sending a request, in
   * order; the first failure's message, or None when all pass.
   */
  function RegistrationError(password: string, confirmPassword: string, email: string): (r: Option<string>)
    ensures r == None <==> password == confirmPassword && |password| >= 4 && ValidarEmail(email)
    ensures r == Some(MsgPasswordsDiffer) <==> password != confirmPassword
    ensures r == Some(MsgPasswordTooShort) <==> password == confirmPassword && |password| < 4
    ensures r == Some(MsgInvalidEmail) <==> password == confirmPassword && |password| >= 4 && !ValidarEmail(email)
  {
    if password != confirmPassword then Some(MsgPasswordsDiffer)
    else if |password| < 4 then Some(MsgPasswordTooShort)
    else if !ValidarEmail(email) then Some(MsgInvalidEmail)
    else None
  }

  /** A password of exactly four characters passes the length check. */
  lemma FourCharactersSuffice(password: string, email: string)
    requires |password| == 4
    ensures RegistrationError(password, password, email) != Some(MsgPasswordTooShort)
    ensures ValidarEmail(email) ==> RegistrationError(password, password, email) == None
  {
  }
}
