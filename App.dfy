/*
 * The application shell: which screen is up (splash, login, sign-up or the app itself),
 * which page of the app is shown, the signed-in user and the delivery whose route is open.
 */
module App {
  import opened Js
  import opened ProfilePage

  datatype Tela = Splash | Login | Cadastro | Main

  /** The shell's state as a value. */
  datatype Screen = Screen(tela: Tela, page: string, usuario: Option<Usuario>, selectedDeliveryId: Option<JsValue>)

  /** What a login reports: the user record of a successful sign-in (None when it has none). */
  datatype LoginResult = LoginResult(usuario: Option<Usuario>)

  /** Everything that changes the shell: the handlers and the callbacks the screens are given. */
  datatype Event =
    | SplashComplete                       // SplashScreen's onComplete
    | NavigateToCadastro                   // Login's onNavigateToCadastro
    | HandleLogin(resultado: LoginResult)  // Login's onLogin
    | Voltar                               // Cadastro's onVoltar
    | HandleCadastro                       // Cadastro's onCadastro
    | Navigate(key: string)                // Header's onNavigate
    | HandleLogout                         // passed to Header and ProfilePage
    | HandleViewRoute(deliveryId: JsValue) // Deliveries' onViewRoute
    | HandleBackFromRotas                  // Rotas' onBack

  const Initial: Screen := Screen(Splash, "relatorios", None, None)

  /** The pages the header links to. */
  const HeaderKeys: seq<string> := ["relatorios", "veiculos", "entregas", "perfil"]

  /** The pages the app renders. */
  const PageKeys: seq<string> := ["relatorios", "entregas", "veiculos", "perfil", "rotas"]

  /** The effect of one event; each handler sets only the fields it names. */
  function Step(s: Screen, e: Event): Screen {
    match e
    case SplashComplete => s.(tela := Login)
    case NavigateToCadastro => s.(tela := Cadastro)
    case HandleLogin(r) => s.(usuario := r.usuario, tela := Main)
    case Voltar => s.(tela := Login)
    case HandleCadastro => s.(tela := Login)
    case Navigate(key) => s.(page := key)
    case HandleLogout => s.(usuario := None, tela := Login)
    case HandleViewRoute(id) => s.(selectedDeliveryId := Some(id), page := "rotas")
    case HandleBackFromRotas => s.(page := "entregas", selectedDeliveryId := None)
  }

  /** An event can fire only while the component offering it is on screen. */
  predicate Enabled(s: Screen, e: Event) {
    match e
    case SplashComplete => s.tela == Splash
    case NavigateToCadastro => s.tela == Login
    case HandleLogin(_) => s.tela == Login
    case Voltar => s.tela == Cadastro
    case HandleCadastro => s.tela == Cadastro
    case Navigate(key) => s.tela == Main && key in HeaderKeys
    case HandleLogout => s.tela == Main
    case HandleViewRoute(_) => s.tela == Main && s.page == "entregas"
    case HandleBackFromRotas => s.tela == Main && s.page == "rotas"
  }

  /** A run of user actions from a state; an action nothing on screen offers has no effect. */
  function Run(s: Screen, es: seq<Event>): Screen
    decreases |es|
  {
    if es == [] then s
    else Run(if Enabled(s, es[0]) then Step(s, es[0]) else s, es[1..])
  }

  /** The component views: one screen, or the header with the pages whose key matches. */
  datatype PageView = DashboardView | DeliveriesView | VehiclesView | ProfileView(usuario: Option<Usuario>) | RotasView(deliveryId: Option<JsValue>)
  datatype View = SplashView | LoginView | CadastroView | AppView(current: string, pages: seq<PageView>)

  /** The pages rendered under the header, each guarded by `page === key`. */
  function Pages(s: Screen): (r: seq<PageView>)
    ensures |r| <= 1
    ensures s.page in PageKeys <==> |r| == 1
    ensures s.page == "perfil" ==> r == [ProfileView(s.usuario)]
    ensures s.page == "rotas" ==> r == [RotasView(s.selectedDeliveryId)]
  {
    (if s.page == "relatorios" then [DashboardView] else [])
    + (if s.page == "entregas" then [DeliveriesView] else [])
    + (if s.page == "veiculos" then [VehiclesView] else [])
    + (if s.page == "perfil" then [ProfileView(s.usuario)] else [])
    + (if s.page == "rotas" then [RotasView(s.selectedDeliveryId)] else [])
  }

  function Render(s: Screen): View {
    match s.tela
    case Splash => SplashView
    case Login => LoginView
    case Cadastro => CadastroView
    case Main => AppView(s.page, Pages(s))
  }

  /**
   * What every reachable state satisfies: the page is one the app renders, no user is held
   * outside the app, and the splash screen is only ever the initial state.
   */
  predicate Inv(s: Screen) {
    && s.page in PageKeys
    && (s.tela != Main ==> s.usuario.None?)
    && (s.tela == Splash ==> s == Initial)
  }

  lemma StepKeepsInv(s: Screen, e: Event)
    requires Inv(s) && Enabled(s, e)
    ensures Inv(Step(s, e))
  {
    if e.Navigate? {
      var i :| 0 <= i < |HeaderKeys| && HeaderKeys[i] == e.key;
      assert e.key == PageKeys[[0, 2, 1, 3][i]];
    }
  }

  lemma {:induction false} RunKeepsInv(s: Screen, es: seq<Event>)
    requires Inv(s)
    ensures Inv(Run(s, es))
    decreases |es|
  {
    if es != [] {
      var t := if Enabled(s, es[0]) then Step(s, es[0]) else s;
      if Enabled(s, es[0]) {
        StepKeepsInv(s, es[0]);
      }
      RunKeepsInv(t, es[1..]);
    }
  }

  /** In every reachable state of the app exactly one page is rendered under the header. */
  lemma ReachableRendersOnePage(es: seq<Event>)
    ensures var s := Run(Initial, es);
      s.tela == Main ==> Render(s).AppView? && |Render(s).pages| == 1
  {
    RunKeepsInv(Initial, es);
  }

  /** The screens move only along these edges, and each edge is taken by the events named. */
  lemma TelaTransitions(s: Screen, e: Event)
    requires Enabled(s, e)
    ensures var t := Step(s, e).tela;
      && (s.tela == Splash ==> t == Login && e == SplashComplete)
      && (s.tela == Login ==> (t == Main && e.HandleLogin?) || (t == Cadastro && e == NavigateToCadastro))
      && (s.tela == Cadastro ==> t == Login && (e == Voltar || e == HandleCadastro))
      && (s.tela == Main ==> (t == Main && e != HandleLogout) || (t == Login && e == HandleLogout))
  {
    match e
    case HandleLogin(_) =>
    case _ =>
  }

  /** Signing in and out: a login enters the app with its user, a logout drops the user and keeps the page. */
  lemma LoginLogout(s: Screen, r: LoginResult)
    requires Inv(s) && s.tela == Login
    ensures var a := Step(s, HandleLogin(r));
      && a.tela == Main && a.usuario == r.usuario && a.page == s.page
      && Step(a, HandleLogout) == s
  {
  }

  class App {
    var tela: Tela
    var page: string
    var usuario: Option<Usuario>
    var selectedDeliveryId: Option<JsValue>

    function State(): Screen
      reads this
    {
      Screen(tela, page, usuario, selectedDeliveryId)
    }

    constructor()
      ensures State() == Initial
    {
      tela := Splash;
      page := "relatorios";
      usuario := None;
      selectedDeliveryId := None;
    }

    method HandleLogin(resultado: LoginResult)
      modifies this
      ensures usuario == resultado.usuario && tela == Main
      ensures page == old(page) && selectedDeliveryId == old(selectedDeliveryId)
      ensures State() == Step(old(State()), Event.HandleLogin(resultado))
    {
      usuario := resultado.usuario;
      tela := Main;
    }

    method HandleCadastro()
      modifies this
      ensures tela == Login
      ensures State() == Step(old(State()), Event.HandleCadastro)
    {
      tela := Login;
    }

    method HandleLogout()
      modifies this
      ensures usuario == None && tela == Login && page == old(page)
      ensures State() == Step(old(State()), Event.HandleLogout)
    {
      usuario := None;
      tela := Login;
    }

    method HandleViewRoute(deliveryId: JsValue)
      modifies this
      ensures selectedDeliveryId == Some(deliveryId) && page == "rotas"
      ensures State() == Step(old(State()), Event.HandleViewRoute(deliveryId))
    {
      selectedDeliveryId := Some(deliveryId);
      page := "rotas";
    }

    method HandleBackFromRotas()
      modifies this
      ensures page == "entregas" && selectedDeliveryId == None
      ensures State() == Step(old(State()), Event.HandleBackFromRotas)
    {
      page := "entregas";
      selectedDeliveryId := None;
    }

    /** The inline callbacks: `setTela('login')`, `setTela('cadastro')`, `setPage(key)`. */
    method SplashComplete()
      modifies this
      ensures State() == Step(old(State()), Event.SplashComplete)
    {
      tela := Login;
    }

    method NavigateToCadastro()
      modifies this
      ensures State() == Step(old(State()), Event.NavigateToCadastro)
    {
      tela := Cadastro;
    }

    method Voltar()
      modifies this
      ensures State() == Step(old(State()), Event.Voltar)
    {
      tela := Login;
    }

    method Navigate(key: string)
      modifies this
      ensures State() == Step(old(State()), Event.Navigate(key))
    {
      page := key;
    }
  }
}
