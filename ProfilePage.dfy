/*
 * The profile page: the details it shows for the signed-in user (with fixed defaults), the
 * first name it greets, and the "edit details" modal's form state.
 */
module ProfilePage {
  import opened Js

  /** The user record the page reads; a field the record lacks is None. */
  datatype Usuario = Usuario(nome: Option<string>, email: Option<string>, telefone: Option<string>)

  /** What the page displays. */
  datatype UserData = UserData(nome: string, email: string, telefone: string, senha: string)

  const DefaultNome: string := "Ronaldo da Silva Santos"
  const DefaultEmail: string := "ronaldo.santos@frotaviva.com"
  const DefaultTelefone: string := "+55 (11) 96622-7529"

  /** The password is never shown: always eleven asterisks. */
  const SenhaMask: string := "***********"

  /** `usuario?.field`: undefined when there is no user. */
  function Field(usuario: Option<Usuario>, get: Usuario -> Option<string>): Option<string> {
    if usuario.Some? then get(usuario.value) else None
  }

  function NomeOf(u: Usuario): Option<string> { u.nome }
  function EmailOf(u: Usuario): Option<string> { u.email }
  function TelefoneOf(u: Usuario): Option<string> { u.telefone }

  /** `userData`: each shown field is the user's own when truthy, its default otherwise. */
  function UserDataOf(usuario: Option<Usuario>): (d: UserData)
    ensures d.senha == SenhaMask
    ensures d.nome != "" && d.email != "" && d.telefone != ""
    ensures usuario.None? ==> d == UserData(DefaultNome, DefaultEmail, DefaultTelefone, SenhaMask)
    ensures usuario.Some? ==> (d.nome == DefaultNome <== !Truthy(usuario.value.nome))
    ensures usuario.Some? && Truthy(usuario.value.nome) ==> d.nome == usuario.value.nome.value
    ensures usuario.Some? ==> (d.email == DefaultEmail <== !Truthy(usuario.value.email))
    ensures usuario.Some? && Truthy(usuario.value.email) ==> d.email == usuario.value.email.value
    ensures usuario.Some? ==> (d.telefone == DefaultTelefone <== !Truthy(usuario.value.telefone))
    ensures usuario.Some? && Truthy(usuario.value.telefone) ==> d.telefone == usuario.value.telefone.value
  {
    UserData(
      OrElse(Field(usuario, NomeOf), DefaultNome),
      OrElse(Field(usuario, EmailOf), DefaultEmail),
      OrElse(Field(usuario, TelefoneOf), DefaultTelefone),
      SenhaMask)
  }

  /** `userData.nome.split(' ')[0]`, the name in the greeting. */
  function FirstName(nome: string): string {
    Split(nome, ' ')[0]
  }

  /** The greeting is the name up to its first space, or the whole name when it has none. */
  lemma FirstNameIsPrefixBeforeSpace(nome: string)
    ensures var f := FirstName(nome);
      |f| <= |nome| && f == nome[..|f|] && ' ' !in f && (|f| == |nome| || nome[|f|] == ' ')
  {
    SplitFirstPiece(nome, ' ');
  }

  /** A name whose first space is at k greets with the k characters before it. */
  lemma FirstNameUpToSpace(nome: string, k: int)
    requires 0 <= k < |nome| && nome[k] == ' ' && ' ' !in nome[..k]
    ensures FirstName(nome) == nome[..k]
  {
    var f := FirstName(nome);
    FirstNameIsPrefixBeforeSpace(nome);
    assert forall j :: 0 <= j < k ==> nome[j] == nome[..k][j];
    assert |f| == k;
  }

  /** The default name greets "Ronaldo". */
  lemma DefaultGreeting()
    ensures FirstName(DefaultNome) == "Ronaldo"
  {
    assert DefaultNome[..7] == "Ronaldo";
    FirstNameUpToSpace(DefaultNome, 7);
  }

  // ---------------------------------------------------------------------------
  // The "edit details" modal
  // ---------------------------------------------------------------------------

  /** The form's fields. */
  datatype FormField = Nome | Email | Telefone | Senha | ConfirmarSenha

  datatype FormData = FormData(nome: string, email: string, telefone: string, senha: string, confirmarSenha: string) {
    function Get(f: FormField): string {
      match f
      case Nome => nome
      case Email => email
      case Telefone => telefone
      case Senha => senha
      case ConfirmarSenha => confirmarSenha
    }

    /** `{ ...prev, [field]: value }` */
    function With(f: FormField, value: string): (r: FormData)
      ensures r.Get(f) == value
      ensures forall g :: g != f ==> r.Get(g) == Get(g)
    {
      match f
      case Nome => this.(nome := value)
      case Email => this.(email := value)
      case Telefone => this.(telefone := value)
      case Senha => this.(senha := value)
      case ConfirmarSenha => this.(confirmarSenha := value)
    }
  }

  /** The values of the select: "" (nothing chosen) and the four editable details. */
  const SelectOptions: seq<string> := ["", "nome", "email", "telefone", "senha"]

  /** The inputs shown for a selected option. */
  function InputsFor(selectedField: string): (r: seq<FormField>)
    ensures Senha in r <==> selectedField == "senha"
    ensures ConfirmarSenha in r <==> selectedField == "senha"
    ensures r != [] <==> selectedField in SelectOptions[1..]
    ensures r != [] ==> selectedField != ""
  {
    if selectedField == "nome" then [Nome]
    else if selectedField == "email" then [Email]
    else if selectedField == "telefone" then [Telefone]
    else if selectedField == "senha" then [Senha, ConfirmarSenha]
    else []
  }

  class EditDetailsModal {
    var selectedField: string
    var formData: FormData

    /** The form starts from the shown details, with both password fields empty. */
    constructor(userData: UserData)
      ensures selectedField == ""
      ensures formData == FormData(userData.nome, userData.email, userData.telefone, "", "")
    {
      selectedField := "";
      formData := FormData(userData.nome, userData.email, userData.telefone, "", "");
    }

    /** `handleFieldChange`: the select's new value. */
    method HandleFieldChange(value: string)
      modifies this
      ensures selectedField == value && formData == old(formData)
    {
      selectedField := value;
    }

    /** `handleInputChange(field, value)`: that field of the form and nothing else. */
    method HandleInputChange(field: FormField, value: string)
      modifies this
      ensures formData == old(formData).With(field, value)
      ensures selectedField == old(selectedField)
    {
      formData := formData.With(field, value);
    }

    /** The Confirm button shows once an option is chosen. */
    predicate ShowsConfirm()
      reads this
    {
      selectedField != ""
    }

    function Inputs(): seq<FormField>
      reads this
    {
      InputsFor(selectedField)
    }
  }
}
