/*
 * The Firebase wrappers: the password checks of updateUserPassword, the company document
 * registerUser stores, and the uniform `{ success, error }` result every wrapper returns in
 * place of a thrown error. The SDK calls themselves are not modelled: each awaited call is
 * recorded, and whether it returns or throws (with which message) is a parameter.
 */
module FirebaseConfig {
  import opened Js

  /** What an awaited SDK call did. */
  datatype Outcome = Returned | Threw(message: string)

  /** The awaited SDK calls the wrappers make, with the arguments that matter here. */
  datatype Call =
    | SignIn(email: string, password: string)
    | CreateUser(email: string, password: string)
    | UpdateDisplayName(displayName: string)
    | StoreCompany(doc: EmpresaDoc)
    | UpdatePassword(newPassword: string)

  /** The wrappers' result: `{ success: true, ... }` with its optional message, or `{ success: false, error }`. */
  datatype Response = Success(message: Option<string>) | Failure(error: string)

  /** The company details the sign-up form passes; only `complemento` may be missing. */
  datatype Perfil = Perfil(nome: string, razaoSocial: string, cnpj: string, endereco: string,
                           complemento: Option<string>, telefone: string)

  /** The document stored under `empresas/<uid>`; `criadoEm` is the clock's ISO string, given. */
  datatype EmpresaDoc = EmpresaDoc(nome: string, razaoSocial: string, cnpj: string, endereco: string,
                                   complemento: string, telefone: string, email: string, criadoEm: string)

  const PasswordMismatch: string := "As senhas não coincidem!"
  const PasswordTooShort: string := "A senha deve ter pelo menos 6 caracteres!"
  const PasswordUpdated: string := "Senha atualizada com sucesso!"
  const MinPasswordLength: int := 6

  // ---------------------------------------------------------------------------
  // The try/catch every wrapper has
  // ---------------------------------------------------------------------------

  /** The calls that actually run: each awaited call in order, up to and including the first that throws. */
  function Performed(calls: seq<Call>, outcomes: seq<Outcome>): (r: seq<Call>)
    requires |outcomes| == |calls|
    ensures |r| <= |calls| && r == calls[..|r|]
    decreases |calls|
  {
    if calls == [] then []
    else if outcomes[0].Threw? then [calls[0]]
    else [calls[0]] + Performed(calls[1..], outcomes[1..])
  }

  /** The message of the first call that throws, if any. */
  function FirstThrown(outcomes: seq<Outcome>): (r: Option<string>)
    decreases |outcomes|
  {
    if outcomes == [] then None
    else if outcomes[0].Threw? then Some(outcomes[0].message)
    else FirstThrown(outcomes[1..])
  }

  /** `try { ...calls...; return success } catch (error) { return { success: false, error: error.message } }` */
  function Wrapped(outcomes: seq<Outcome>, success: Response): Response {
    match FirstThrown(outcomes)
    case Some(message) => Failure(message)
    case None => success
  }

  /** A single awaited call: its thrown message, or the success value. */
  lemma WrappedOne(outcome: Outcome, success: Response)
    ensures Wrapped([outcome], success) == if outcome.Threw? then Failure(outcome.message) else success
  {
    assert [outcome][1..] == [];
    assert FirstThrown([outcome]) == if outcome.Threw? then Some(outcome.message) else FirstThrown([]);
  }

  /** The first thrown message is the message of a call all of whose predecessors returned. */
  lemma {:induction false} FirstThrownIsFirst(outcomes: seq<Outcome>)
    ensures FirstThrown(outcomes).None? <==> forall i :: 0 <= i < |outcomes| ==> outcomes[i] == Returned
    ensures FirstThrown(outcomes).Some? ==>
      exists i :: 0 <= i < |outcomes| && outcomes[i] == Threw(FirstThrown(outcomes).value)
        && forall j :: 0 <= j < i ==> outcomes[j] == Returned
    decreases |outcomes|
  {
    if outcomes != [] {
      FirstThrownIsFirst(outcomes[1..]);
      if outcomes[0].Returned? && FirstThrown(outcomes).Some? {
        var i :| 0 <= i < |outcomes[1..]| && outcomes[1..][i] == Threw(FirstThrown(outcomes).value)
          && forall j :: 0 <= j < i ==> outcomes[1..][j] == Returned;
        assert outcomes[i + 1] == Threw(FirstThrown(outcomes).value);
        assert forall j :: 0 <= j < i + 1 ==> outcomes[j] == Returned by {
          forall j | 0 <= j < i + 1 ensures outcomes[j] == Returned {
            if j > 0 { assert outcomes[j] == outcomes[1..][j - 1]; }
          }
        }
      }
      if outcomes[0].Returned? && FirstThrown(outcomes).None? {
        assert forall i :: 1 <= i < |outcomes| ==> outcomes[i] == outcomes[1..][i - 1];
      }
    }
  }

  /**
   * No wrapper lets an error escape: the result is the success value exactly when every call
   * returned, and otherwise a failure carrying the first thrown message.
   */
  lemma WrappedNeverThrows(outcomes: seq<Outcome>, success: Response)
    requires success.Success?
    ensures Wrapped(outcomes, success) == success <==> forall i :: 0 <= i < |outcomes| ==> outcomes[i] == Returned
    ensures Wrapped(outcomes, success).Failure? ==>
      exists i :: 0 <= i < |outcomes| && outcomes[i] == Threw(Wrapped(outcomes, success).error)
  {
    FirstThrownIsFirst(outcomes);
  }

  /** The calls run stop right after the first that throws, and all run when none does. */
  lemma {:induction false} PerformedStopsAtThrow(calls: seq<Call>, outcomes: seq<Outcome>)
    requires |outcomes| == |calls|
    ensures FirstThrown(outcomes).None? ==> Performed(calls, outcomes) == calls
    ensures FirstThrown(outcomes).Some? ==>
      var n := |Performed(calls, outcomes)|;
      n >= 1 && outcomes[n - 1] == Threw(FirstThrown(outcomes).value)
    decreases |calls|
  {
    if calls != [] && outcomes[0].Returned? {
      PerformedStopsAtThrow(calls[1..], outcomes[1..]);
      if FirstThrown(outcomes).Some? {
        var n := |Performed(calls[1..], outcomes[1..])|;
        assert outcomes[n] == outcomes[1..][n - 1];
      }
    }
  }

  // ---------------------------------------------------------------------------
  // loginWithEmailAndPassword
  // ---------------------------------------------------------------------------

  /** One call; a thrown sign-in error becomes its message. */
  function LoginWithEmailAndPassword(email: string, password: string, outcome: Outcome): (r: (seq<Call>, Response))
    ensures r.0 == [SignIn(email, password)]
    ensures r.1.Success? <==> outcome == Returned
    ensures outcome.Threw? ==> r.1 == Failure(outcome.message)
  {
    WrappedOne(outcome, Success(None));
    ([SignIn(email, password)], Wrapped([outcome], Success(None)))
  }

  // ---------------------------------------------------------------------------
  // registerUser
  // ---------------------------------------------------------------------------

  /** The stored document: the form's details, `complemento || ''`, and the email argument. */
  function EmpresaDocOf(email: string, userData: Perfil, criadoEm: string): (d: EmpresaDoc)
    ensures d.email == email && d.criadoEm == criadoEm
    ensures Truthy(userData.complemento) ==> d.complemento == userData.complemento.value
    ensures !Truthy(userData.complemento) ==> d.complemento == ""
  {
    EmpresaDoc(userData.nome, userData.razaoSocial, userData.cnpj, userData.endereco,
               OrElse(userData.complemento, ""), userData.telefone, email, criadoEm)
  }

  /** The three awaited calls of a registration, in order. */
  function RegisterCalls(email: string, password: string, userData: Perfil, criadoEm: string): seq<Call> {
    [CreateUser(email, password), UpdateDisplayName(userData.nome), StoreCompany(EmpresaDocOf(email, userData, criadoEm))]
  }

  /** registerUser: the calls that ran and the wrapped result; `outcomes` are the three calls' outcomes. */
  function RegisterUser(email: string, password: string, userData: Perfil, criadoEm: string, outcomes: seq<Outcome>): (r: (seq<Call>, Response))
    requires |outcomes| == 3
    ensures 1 <= |r.0| <= 3 && r.0[0] == CreateUser(email, password)
    ensures r.1.Success? <==> r.0 == RegisterCalls(email, password, userData, criadoEm) && outcomes[2] == Returned
    ensures FirstThrown(outcomes).Some? ==> r.1 == Failure(FirstThrown(outcomes).value)
  {
    var calls := RegisterCalls(email, password, userData, criadoEm);
    PerformedStopsAtThrow(calls, outcomes);
    FirstThrownIsFirst(outcomes);
    (Performed(calls, outcomes), Wrapped(outcomes, Success(None)))
  }

  /** A registration stores the company document only once the account exists and is named. */
  lemma RegisterStoresOnlyAfterAccount(email: string, password: string, userData: Perfil, criadoEm: string, outcomes: seq<Outcome>)
    requires |outcomes| == 3
    ensures var (calls, _) := RegisterUser(email, password, userData, criadoEm, outcomes);
      (|calls| == 3 <==> outcomes[0] == Returned && outcomes[1] == Returned)
      && (|calls| == 3 ==> calls[2] == StoreCompany(EmpresaDocOf(email, userData, criadoEm)))
  {
    var calls := RegisterCalls(email, password, userData, criadoEm);
    var c1, o1 := calls[1..], outcomes[1..];
    var c2, o2 := c1[1..], o1[1..];
    assert c2[1..] == [];
    assert |Performed(c2, o2)| == 1;
    assert |Performed(c1, o1)| == if o1[0].Threw? then 1 else 2;
  }

  // ---------------------------------------------------------------------------
  // updateUserPassword
  // ---------------------------------------------------------------------------

  /** The two checks before any call: the passwords must match, then be at least six characters long. */
  function PasswordError(newPassword: string, confirmPassword: string): Option<string> {
    if newPassword != confirmPassword then Some(PasswordMismatch)
    else if |newPassword| < MinPasswordLength then Some(PasswordTooShort)
    else None
  }

  /** The checks accept exactly a matching pair of six or more characters; a mismatch is reported first. */
  lemma PasswordErrorCases(newPassword: string, confirmPassword: string)
    ensures PasswordError(newPassword, confirmPassword).None? <==>
      newPassword == confirmPassword && |newPassword| >= MinPasswordLength
    ensures newPassword != confirmPassword ==> PasswordError(newPassword, confirmPassword) == Some(PasswordMismatch)
    ensures PasswordError(newPassword, confirmPassword) == Some(PasswordTooShort) <==>
      newPassword == confirmPassword && |newPassword| < MinPasswordLength
  {
    assert PasswordMismatch != PasswordTooShort by {
      assert |PasswordMismatch| != |PasswordTooShort|;
    }
  }

  /** updateUserPassword: a failed check returns its message and calls nothing; otherwise one call. */
  function UpdateUserPassword(newPassword: string, confirmPassword: string, outcome: Outcome): (r: (seq<Call>, Response))
    ensures PasswordError(newPassword, confirmPassword).Some? ==>
      r == ([], Failure(PasswordError(newPassword, confirmPassword).value))
    ensures PasswordError(newPassword, confirmPassword).None? ==> r.0 == [UpdatePassword(newPassword)]
    ensures r.1.Success? <==> PasswordError(newPassword, confirmPassword).None? && outcome == Returned
    ensures r.1.Success? ==> r.1.message == Some(PasswordUpdated)
    ensures PasswordError(newPassword, confirmPassword).None? && outcome.Threw? ==> r.1 == Failure(outcome.message)
  {
    match PasswordError(newPassword, confirmPassword)
    case Some(error) => ([], Failure(error))
    case None =>
      WrappedOne(outcome, Success(Some(PasswordUpdated)));
      ([UpdatePassword(newPassword)], Wrapped([outcome], Success(Some(PasswordUpdated))))
  }

  /** A password is changed only to a matching pair of at least six characters, and to the new one. */
  lemma PasswordChangedOnlyWhenValid(newPassword: string, confirmPassword: string, outcome: Outcome)
    ensures var (calls, _) := UpdateUserPassword(newPassword, confirmPassword, outcome);
      forall c :: c in calls ==> c == UpdatePassword(newPassword) && newPassword == confirmPassword && |newPassword| >= MinPasswordLength
  {
    PasswordErrorCases(newPassword, confirmPassword);
  }
}
