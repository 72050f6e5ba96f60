/**
 * The registration form (pages/Cadastro.js): four ordered checks, the first
 * failing one alone giving the message, and the single account record
 * written under `'user'`.
 */
module Cadastro {
  import opened Wrappers
  import opened Text
  import opened Records
  import opened Storage

  const UserKey: string := "user"
  const MinPasswordLength: nat := 6

  /** The failures of `validateFields`, in the order they are checked. */
  datatype RegistrationError = NameRequired | InvalidEmail | PasswordTooShort | PasswordMismatch {
    function Message(): string {
      match this
      case NameRequired => "O nome é obrigatório"
      case InvalidEmail => "Email inválido"
      case PasswordTooShort => "A senha deve ter pelo menos 6 caracteres"
      case PasswordMismatch => "As senhas não coincidem"
    }
  }

  /** The email test: not blank after trimming, and containing both '@' and '.'. */
  predicate AcceptableEmail(email: string) {
    !IsBlank(email) && '@' in email && '.' in email
  }

  /** `validateFields`: the first failing check, or `None` when all pass. */
  function ValidateRegistration(name: string, email: string, password: string, confirmation: string)
    : (r: Option<RegistrationError>)
    ensures r.None? ==> AcceptableEmail(email) && |password| >= MinPasswordLength && password == confirmation
  {
    if IsBlank(name) then Some(NameRequired)
    else if !AcceptableEmail(email) then Some(InvalidEmail)
    else if |password| < MinPasswordLength then Some(PasswordTooShort)
    else if password != confirmation then Some(PasswordMismatch)
    else None
  }

  /**
   * The checks in order, each failing exactly when the earlier ones pass and
   * its own condition fails: the name must hold a non-whitespace character;
   * the email must too and contain '@' and '.'; the untrimmed password must be
   * at least 6 characters long, and then equal the confirmation.
   */
  lemma RegistrationChecksInOrder(name: string, email: string, password: string, confirmation: string)
    ensures var r := ValidateRegistration(name, email, password, confirmation);
      && (r == Some(NameRequired) <==> AllWhitespace(name))
      && (r == Some(InvalidEmail) <==>
            !AllWhitespace(name) && (AllWhitespace(email) || '@' !in email || '.' !in email))
      && (r == Some(PasswordTooShort) <==>
            !AllWhitespace(name) && !AllWhitespace(email) && '@' in email && '.' in email
            && |password| < MinPasswordLength)
      && (r == Some(PasswordMismatch) <==>
            !AllWhitespace(name) && !AllWhitespace(email) && '@' in email && '.' in email
            && |password| >= MinPasswordLength && password != confirmation)
      && (r == None <==>
            !AllWhitespace(name) && !AllWhitespace(email) && '@' in email && '.' in email
            && |password| >= MinPasswordLength && password == confirmation)
  {
    BlankIffAllWhitespace(name);
    BlankIffAllWhitespace(email);
  }

  /** The message `validateFields` leaves: the failing check's, or '' when all pass. */
  function RegistrationMessage(r: Option<RegistrationError>): string {
    match r
    case Some(e) => e.Message()
    case None => ""
  }

  class CadastroScreen {
    var name: string
    var email: string
    var password: string
    var confirmPassword: string
    var disability: string
    var errorMessage: string

    constructor ()
      ensures name == "" && email == "" && password == "" && confirmPassword == ""
      ensures disability == "" && errorMessage == ""
    {
      name, email, password, confirmPassword := "", "", "", "";
      disability, errorMessage := "", "";
    }

    /** `validateFields`: runs the checks in order and sets the message of the first failure. */
    method ValidateFields() returns (ok: bool)
      modifies this`errorMessage
      ensures ok <==> ValidateRegistration(name, email, password, confirmPassword).None?
      ensures errorMessage == RegistrationMessage(ValidateRegistration(name, email, password, confirmPassword))
    {
      if IsBlank(name) {
        errorMessage := NameRequired.Message();
        return false;
      }
      if IsBlank(email) || '@' !in email || '.' !in email {
        errorMessage := InvalidEmail.Message();
        return false;
      }
      if |password| < MinPasswordLength {
        errorMessage := PasswordTooShort.Message();
        return false;
      }
      if password != confirmPassword {
        errorMessage := PasswordMismatch.Message();
        return false;
      }
      errorMessage := "";
      return true;
    }

    /**
     * `handleCadastro`: only input that passes every check is stored, as one
     * record under `'user'` that replaces any earlier account.
     */
    method HandleCadastro(storage: Store)
      modifies this`errorMessage, storage
      ensures errorMessage == RegistrationMessage(ValidateRegistration(name, email, password, confirmPassword))
      ensures ValidateRegistration(name, email, password, confirmPassword).Some? ==>
                storage.items == old(storage.items)
      ensures ValidateRegistration(name, email, password, confirmPassword).None? ==>
                storage.items == old(storage.items)[UserKey := UserRecord(User(name, email, password, disability))]
    {
      var ok := ValidateFields();
      if !ok {
        return;
      }
      storage.SetItem(UserKey, UserRecord(User(name, email, password, disability)));
    }
  }
}
