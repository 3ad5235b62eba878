/*
 * The sign-up form: its fields, the submit handler (the password checks, the registration
 * request and the error message shown for a failed registration) and the busy flag.
 */
module Cadastro {
  import opened Js
  import opened FirebaseConfig

  /** The form's fields. */
  datatype Campo = Nome | RazaoSocial | Cnpj | Endereco | Complemento | Telefone | Email | Senha | ConfirmarSenha

  datatype Dados = Dados(nome: string, razaoSocial: string, cnpj: string, endereco: string, complemento: string,
                         telefone: string, email: string, senha: string, confirmarSenha: string)
  {
    function Get(c: Campo): string {
      match c
      case Nome => nome
      case RazaoSocial => razaoSocial
      case Cnpj => cnpj
      case Endereco => endereco
      case Complemento => complemento
      case Telefone => telefone
      case Email => email
      case Senha => senha
      case ConfirmarSenha => confirmarSenha
    }

    /** `{ ...prev, [campo]: valor }` */
    function With(c: Campo, valor: string): (r: Dados)
      ensures r.Get(c) == valor
      ensures forall d :: d != c ==> r.Get(d) == Get(d)
    {
      match c
      case Nome => this.(nome := valor)
      case RazaoSocial => this.(razaoSocial := valor)
      case Cnpj => this.(cnpj := valor)
      case Endereco => this.(endereco := valor)
      case Complemento => this.(complemento := valor)
      case Telefone => this.(telefone := valor)
      case Email => this.(email := valor)
      case Senha => this.(senha := valor)
      case ConfirmarSenha => this.(confirmarSenha := valor)
    }
  }

  const EmptyDados: Dados := Dados("", "", "", "", "", "", "", "", "")

  /** The arguments of `registerUser(email, senha, { nome, razaoSocial, cnpj, endereco, complemento, telefone })`. */
  datatype RegisterRequest = RegisterRequest(email: string, password: string, userData: Perfil)

  function RequestOf(d: Dados): RegisterRequest {
    RegisterRequest(d.email, d.senha, Perfil(d.nome, d.razaoSocial, d.cnpj, d.endereco, Some(d.complemento), d.telefone))
  }

  // ---------------------------------------------------------------------------
  // The message for a failed registration
  // ---------------------------------------------------------------------------

  const EmailInUseCode: string := "email-already-in-use"
  const InvalidEmailCode: string := "invalid-email"
  const WeakPasswordCode: string := "weak-password"

  const EmailInUseMessage: string := "Este email já está cadastrado!"
  const InvalidEmailMessage: string := "Email inválido!"
  const WeakPasswordMessage: string := "Senha muito fraca!"
  const GenericMessage: string := "Erro ao cadastrar. Tente novamente."

  /** The error shown for `resultado.error`: the first code it mentions, in this order, else the generic message. */
  function ErrorMessage(error: string): string {
    if Includes(error, EmailInUseCode) then EmailInUseMessage
    else if Includes(error, InvalidEmailCode) then InvalidEmailMessage
    else if Includes(error, WeakPasswordCode) then WeakPasswordMessage
    else GenericMessage
  }

  /**
   * The message is chosen by the first code, in the order email-in-use, invalid-email,
   * weak-password, that occurs anywhere in the error text; with none, the generic message.
   */
  lemma ErrorMessageByFirstCode(error: string)
    ensures (exists i :: OccursAt(error, EmailInUseCode, i)) ==> ErrorMessage(error) == EmailInUseMessage
    ensures (forall i :: !OccursAt(error, EmailInUseCode, i)) && (exists i :: OccursAt(error, InvalidEmailCode, i)) ==>
      ErrorMessage(error) == InvalidEmailMessage
    ensures ((forall i :: !OccursAt(error, EmailInUseCode, i)) && (forall i :: !OccursAt(error, InvalidEmailCode, i))
             && (exists i :: OccursAt(error, WeakPasswordCode, i)))
      ==> ErrorMessage(error) == WeakPasswordMessage
    ensures (forall i :: !OccursAt(error, EmailInUseCode, i) && !OccursAt(error, InvalidEmailCode, i) && !OccursAt(error, WeakPasswordCode, i))
      ==> ErrorMessage(error) == GenericMessage
  {
    IncludesMeansOccurs(error, EmailInUseCode);
    IncludesMeansOccurs(error, InvalidEmailCode);
    IncludesMeansOccurs(error, WeakPasswordCode);
  }

  /** The four messages are different, and none is blank, so a failure always shows. */
  lemma ErrorMessagesDistinct(a: string, b: string)
    ensures ErrorMessage(a) != ""
    ensures ErrorMessage(a) == ErrorMessage(b) <==>
      (Includes(a, EmailInUseCode) <==> Includes(b, EmailInUseCode))
      && (!Includes(a, EmailInUseCode) ==>
           ((Includes(a, InvalidEmailCode) <==> Includes(b, InvalidEmailCode))
            && (!Includes(a, InvalidEmailCode) ==> (Includes(a, WeakPasswordCode) <==> Includes(b, WeakPasswordCode)))))
  {
    assert |EmailInUseMessage| == 30 && |InvalidEmailMessage| == 15;
    assert |WeakPasswordMessage| == 18 && |GenericMessage| == 35;
  }

  /** What the submit shows once the registration settles: None on success, else the error message. */
  function SettledError(resultado: Settled<Response>): (r: Option<string>) {
    match resultado
    case Fulfilled(Success(_)) => None
    case Fulfilled(Failure(error)) => Some(ErrorMessage(error))
    case Rejected(_) => Some(GenericMessage)
  }

  // ---------------------------------------------------------------------------
  // The component's state
  // ---------------------------------------------------------------------------

  class CadastroForm {
    var carregando: bool
    var erro: string
    var dados: Dados

    constructor()
      ensures !carregando && erro == "" && dados == EmptyDados
    {
      carregando := false;
      erro := "";
      dados := EmptyDados;
    }

    /** `handleChange(campo, valor)`: that field and nothing else. */
    method HandleChange(campo: Campo, valor: string)
      modifies this
      ensures dados == old(dados).With(campo, valor)
      ensures carregando == old(carregando) && erro == old(erro)
    {
      dados := dados.With(campo, valor);
    }

    /**
     * handleSubmit up to the registration call: the form is busy and its error cleared; a failed
     * password check shows its message and ends the submit, otherwise the request is returned and
     * the form stays busy until it settles.
     */
    method BeginSubmit() returns (request: Option<RegisterRequest>)
      modifies this
      ensures dados == old(dados)
      ensures request.None? <==> PasswordError(dados.senha, dados.confirmarSenha).Some?
      ensures request.None? ==> !carregando && erro == PasswordError(dados.senha, dados.confirmarSenha).value
      ensures request.Some? ==> carregando && erro == "" && request.value == RequestOf(dados)
    {
      carregando := true;
      erro := "";
      if dados.senha != dados.confirmarSenha {
        erro := PasswordMismatch;
        carregando := false;
        return None;
      }
      if |dados.senha| < MinPasswordLength {
        erro := PasswordTooShort;
        carregando := false;
        return None;
      }
      request := Some(RequestOf(dados));
    }

    /**
     * handleSubmit after the registration settles: success leaves the error as it was and
     * reports the sign-up (`onCadastro`), a failure shows its message; the form is idle after both.
     */
    method FinishSubmit(resultado: Settled<Response>) returns (cadastrado: bool)
      modifies this
      ensures !carregando && dados == old(dados)
      ensures cadastrado <==> SettledError(resultado).None?
      ensures cadastrado ==> erro == old(erro)
      ensures !cadastrado ==> erro == SettledError(resultado).value
    {
      match resultado {
        case Fulfilled(Success(_)) =>
          cadastrado := true;
        case Fulfilled(Failure(error)) =>
          cadastrado := false;
          if Includes(error, EmailInUseCode) {
            erro := EmailInUseMessage;
          } else if Includes(error, InvalidEmailCode) {
            erro := InvalidEmailMessage;
          } else if Includes(error, WeakPasswordCode) {
            erro := WeakPasswordMessage;
          } else {
            erro := GenericMessage;
          }
        case Rejected(_) =>
          cadastrado := false;
          erro := GenericMessage;
      }
      carregando := false;
    }

    /**
     * The whole of handleSubmit, given how the registration settles: the form is idle afterwards
     * on every path, it is registered only with a matching password of six or more characters,
     * and a failure always leaves a message.
     */
    method HandleSubmit(resultado: Settled<Response>) returns (cadastrado: bool)
      modifies this
      ensures !carregando && dados == old(dados)
      ensures cadastrado ==> dados.senha == dados.confirmarSenha && |dados.senha| >= MinPasswordLength
      ensures cadastrado ==> erro == ""
      ensures !cadastrado ==> erro != ""
      ensures cadastrado <==> PasswordError(dados.senha, dados.confirmarSenha).None? && SettledError(resultado).None?
      ensures PasswordError(dados.senha, dados.confirmarSenha).Some? ==> erro == PasswordError(dados.senha, dados.confirmarSenha).value
      ensures PasswordError(dados.senha, dados.confirmarSenha).None? && !cadastrado ==> erro == SettledError(resultado).value
    {
      var request := BeginSubmit();
      PasswordErrorCases(dados.senha, dados.confirmarSenha);
      if request.None? {
        assert |PasswordMismatch| > 0 && |PasswordTooShort| > 0;
        return false;
      }
      cadastrado := FinishSubmit(resultado);
      ErrorMessagesDistinct(if resultado.Fulfilled? && resultado.value.Failure? then resultado.value.error else "", "");
    }
  }

  /** The document a successful sign-up stores holds exactly the form's details and its email. */
  lemma StoredDocumentIsTheForm(d: Dados, criadoEm: string)
    ensures var req := RequestOf(d);
      EmpresaDocOf(req.email, req.userData, criadoEm)
        == EmpresaDoc(d.nome, d.razaoSocial, d.cnpj, d.endereco, d.complemento, d.telefone, d.email, criadoEm)
  {
  }
}
