/** The `App` class of the front end: the element registry, the static
    markup's initial element state, and the two notification handlers that
    write element text, disabled flags and visibility in place. */
module Frontend {
  import opened Wrappers
  import opened Snapshots
  import opened Presentation
  import opened Reconciler

  /** The keys of the selector table. */
  datatype ElementKey = AppContainer | SolPubKey | IcPrincipal | ConnectButton | LoginButton | LogoutButton | ErrorBanner

  /** The selector table: each key is looked up by its element id. */
  function Selector(key: ElementKey): (sel: string)
    ensures |sel| > 1 && sel[0] == '#'
  {
    match key
    case AppContainer => "#app"
    case SolPubKey => "#solPubKey"
    case IcPrincipal => "#icPrincipal"
    case ConnectButton => "#connectButton"
    case LoginButton => "#loginButton"
    case LogoutButton => "#logoutButton"
    case ErrorBanner => "#error"
  }

  /** No two keys share a selector. */
  lemma SelectorsDistinct(a: ElementKey, b: ElementKey)
    requires a != b
    ensures Selector(a) != Selector(b)
  {
  }

  /** No element occurs twice. */
  ghost predicate Distinct(es: seq<Element>)
  {
    forall i, j :: 0 <= i < j < |es| ==> es[i] != es[j]
  }

  /** The part of a DOM element the front end touches. */
  class Element {
    var textContent: string
    var disabled: bool
    var display: string

    constructor (text: string, display: string)
      ensures State() == ElementState(text, false, display)
    {
      textContent := text;
      disabled := false;
      this.display := display;
    }

    function State(): ElementState
      reads this
    {
      ElementState(textContent, disabled, display)
    }
  }

  class App {
    const appContainer: Element
    const solPubKey: Element
    const icPrincipal: Element
    const connectButton: Element
    const loginButton: Element
    const logoutButton: Element
    const error: Element

    /** What the wallet connector's `getWallet()` returns. */
    var wallet: Option<Adapter>
    /** What the sign-in store's `getSnapshot().context` returns. */
    var context: SiwsContext
    /** The adapter last handed to the sign-in manager with `setAdapter`. */
    var boundAdapter: Option<Adapter>

    /** The seven handles are distinct elements. */
    ghost predicate Valid()
    {
      Distinct([appContainer, solPubKey, icPrincipal, connectButton, loginButton, logoutButton, error])
    }

    /** The handles the methods write are pairwise distinct, so a write
        through one leaves the others unchanged. */
    lemma ValidHandles()
      requires Valid()
      ensures appContainer != solPubKey && appContainer != error
      ensures solPubKey != icPrincipal && solPubKey != connectButton && solPubKey != loginButton
      ensures solPubKey != logoutButton && solPubKey != error
      ensures icPrincipal != connectButton && icPrincipal != loginButton && icPrincipal != logoutButton
      ensures icPrincipal != error
      ensures connectButton != loginButton && connectButton != logoutButton && connectButton != error
      ensures loginButton != logoutButton && loginButton != error && logoutButton != error
    {
      var es := [appContainer, solPubKey, icPrincipal, connectButton, loginButton, logoutButton, error];
      assert es[0] != es[1] && es[0] != es[6];
      assert es[1] != es[2] && es[1] != es[3] && es[1] != es[4] && es[1] != es[5] && es[1] != es[6];
      assert es[2] != es[3] && es[2] != es[4] && es[2] != es[5] && es[2] != es[6];
      assert es[3] != es[4] && es[3] != es[5] && es[3] != es[6];
      assert es[4] != es[5] && es[4] != es[6] && es[5] != es[6];
    }

    ghost function Abs(): AppState
      reads this, solPubKey, icPrincipal, connectButton, loginButton, logoutButton, error
    {
      AppState(wallet, context, boundAdapter,
        Ui(solPubKey.State(), icPrincipal.State(), connectButton.State(),
           loginButton.State(), logoutButton.State(), error.State()))
    }

    /** `getElement`: look a key's selector up in the document, failing with
        "Missing element: <selector>" when it is absent. */
    static method GetElement(document: map<string, Element>, key: ElementKey) returns (r: Result<Element, string>)
      ensures r.Success? <==> Selector(key) in document
      ensures r.Success? ==> r.value == document[Selector(key)]
      ensures r.Failure? ==> r.error == "Missing element: " + Selector(key)
    {
      var selector := Selector(key);
      if selector !in document {
        return Failure("Missing element: " + selector);
      }
      return Success(document[selector]);
    }

    /** The selectors of the six elements the markup creates. */
    static function RenderedSelectors(): set<string>
    {
      {Selector(SolPubKey), Selector(IcPrincipal), Selector(ConnectButton),
       Selector(LoginButton), Selector(LogoutButton), Selector(ErrorBanner)}
    }

    /** `renderStaticContent`: the container's markup creates six new, distinct
        elements with their initial text and inline display style; the document
        then finds them by their ids, and every other entry stays as it was. */
    static method RenderStaticContent(document: map<string, Element>) returns (rendered: map<string, Element>)
      ensures rendered.Keys == document.Keys + RenderedSelectors()
      ensures forall sel :: sel in document && sel !in RenderedSelectors() ==> rendered[sel] == document[sel]
      ensures fresh(rendered[Selector(SolPubKey)]) && rendered[Selector(SolPubKey)].State() == MarkupUi().solPubKey
      ensures fresh(rendered[Selector(IcPrincipal)]) && rendered[Selector(IcPrincipal)].State() == MarkupUi().icPrincipal
      ensures fresh(rendered[Selector(ConnectButton)]) && rendered[Selector(ConnectButton)].State() == MarkupUi().connectButton
      ensures fresh(rendered[Selector(LoginButton)]) && rendered[Selector(LoginButton)].State() == MarkupUi().loginButton
      ensures fresh(rendered[Selector(LogoutButton)]) && rendered[Selector(LogoutButton)].State() == MarkupUi().logoutButton
      ensures fresh(rendered[Selector(ErrorBanner)]) && rendered[Selector(ErrorBanner)].State() == MarkupUi().error
      ensures Distinct([rendered[Selector(SolPubKey)], rendered[Selector(IcPrincipal)], rendered[Selector(ConnectButton)],
                        rendered[Selector(LoginButton)], rendered[Selector(LogoutButton)], rendered[Selector(ErrorBanner)]])
    {
      var sol := new Element("", "none");
      var principal := new Element("", "none");
      var connect := new Element("Connect wallet", "");
      var login := new Element("Login", "none");
      var logout := new Element("Logout", "none");
      var err := new Element("", "none");
      rendered := document[Selector(SolPubKey) := sol][Selector(IcPrincipal) := principal]
        [Selector(ConnectButton) := connect][Selector(LoginButton) := login]
        [Selector(LogoutButton) := logout][Selector(ErrorBanner) := err];
      assert rendered[Selector(SolPubKey)] == sol;
      assert rendered[Selector(IcPrincipal)] == principal;
      assert rendered[Selector(ConnectButton)] == connect;
      assert rendered[Selector(LoginButton)] == login;
      assert rendered[Selector(LogoutButton)] == logout;
      assert rendered[Selector(ErrorBanner)] == err;
    }

    /** The constructor after the container was found: render the markup,
        look up the six elements, then refresh. No notification fires while
        subscribing. */
    constructor (container: Element, document: map<string, Element>, wallet: Option<Adapter>, ctx: SiwsContext)
      ensures Valid() && appContainer == container
      ensures fresh(solPubKey) && fresh(icPrincipal) && fresh(connectButton)
      ensures fresh(loginButton) && fresh(logoutButton) && fresh(error)
      ensures Abs() == Initial(wallet, ctx)
    {
      var rendered := RenderStaticContent(document);
      var sol := GetElement(rendered, SolPubKey);
      var principal := GetElement(rendered, IcPrincipal);
      var connect := GetElement(rendered, ConnectButton);
      var login := GetElement(rendered, LoginButton);
      var logout := GetElement(rendered, LogoutButton);
      var err := GetElement(rendered, ErrorBanner);
      appContainer := container;
      solPubKey := sol.value;
      icPrincipal := principal.value;
      connectButton := connect.value;
      loginButton := login.value;
      logoutButton := logout.value;
      error := err.value;
      this.wallet := wallet;
      context := ctx;
      boundAdapter := None;
      ghost var es := [sol.value, principal.value, connect.value, login.value, logout.value, err.value];
      assert es[0] != es[1] && es[0] != es[2] && es[0] != es[3] && es[0] != es[4] && es[0] != es[5];
      assert es[1] != es[2] && es[1] != es[3] && es[1] != es[4] && es[1] != es[5];
      assert es[2] != es[3] && es[2] != es[4] && es[2] != es[5];
      assert es[3] != es[4] && es[3] != es[5] && es[4] != es[5];
      new;
      RefreshUi();
    }

    /** `new App()`: find the container or fail with the missing selector. */
    static method Start(document: map<string, Element>, wallet: Option<Adapter>, ctx: SiwsContext)
      returns (r: Result<App, string>)
      ensures r.Failure? <==> Selector(AppContainer) !in document
      ensures r.Failure? ==> r.error == "Missing element: #app"
      ensures r.Success? ==> fresh(r.value) && r.value.Valid()
      ensures r.Success? ==> r.value.appContainer == document[Selector(AppContainer)]
      ensures r.Success? ==> r.value.Abs() == Initial(wallet, ctx)
    {
      var container := GetElement(document, AppContainer);
      if container.Failure? {
        return Failure(container.error);
      }
      var app := new App(container.value, document, wallet, ctx);
      return Success(app);
    }

    /** `setDisplay`: only the display style changes. */
    method SetDisplay(el: Element, show: bool)
      modifies el
      ensures el.State() == old(el.State()).(display := DisplayValue(show))
    {
      el.display := DisplayValue(show);
    }

    method ToggleIcPrincipal()
      requires Valid()
      modifies icPrincipal
      ensures icPrincipal.State() == ShowTruncated(old(icPrincipal.State()), PrincipalText(context.identity))
    {
      var identity := context.identity;
      if identity.Some? {
        var id := identity.value.principal;
        icPrincipal.textContent := Slice(id, 0, 4) + "..." + Slice(id, -4, |id|);
        SetDisplay(icPrincipal, true);
      } else {
        SetDisplay(icPrincipal, false);
      }
    }

    method ToggleSolPubKey()
      requires Valid()
      modifies solPubKey
      ensures solPubKey.State() == ShowTruncated(old(solPubKey.State()), PublicKeyText(wallet))
    {
      var adapter := wallet;
      if adapter.Some? && adapter.value.publicKey.Some? {
        var addr := adapter.value.publicKey.value;
        solPubKey.textContent := Slice(addr, 0, 4) + "..." + Slice(addr, -4, |addr|);
        SetDisplay(solPubKey, true);
      } else {
        SetDisplay(solPubKey, false);
      }
    }

    method ToggleLoginLogout()
      requires Valid()
      modifies connectButton, loginButton, logoutButton
      ensures connectButton.State() == old(connectButton.State()).(display := DisplayValue(wallet.None?))
      ensures loginButton.State()
              == old(loginButton.State()).(display := DisplayValue(wallet.Some? && context.identity.None?))
      ensures logoutButton.State()
              == old(logoutButton.State()).(display := DisplayValue(wallet.Some? && context.identity.Some?))
    {
      ValidHandles();
      var adapter := wallet;
      var identity := context.identity;
      SetDisplay(connectButton, adapter.None?);
      SetDisplay(loginButton, adapter.Some? && identity.None?);
      SetDisplay(logoutButton, adapter.Some? && identity.Some?);
    }

    /** `refreshUi`: never writes the login label, its disabled flag or the banner. */
    method RefreshUi()
      requires Valid()
      modifies solPubKey, icPrincipal, connectButton, loginButton, logoutButton
      ensures Abs() == Refreshed(old(Abs()))
      ensures ActionsDisplayed(Abs().ui) == 1
    {
      ValidHandles();
      ToggleIcPrincipal();
      ToggleLoginLogout();
      ToggleSolPubKey();
      ExactlyOneAction(Abs());
    }

    /** The wallet connector's change callback. */
    method OnWalletChange(adapter: Option<Adapter>)
      requires Valid()
      modifies this, solPubKey, icPrincipal, connectButton, loginButton, logoutButton
      ensures Abs() == AfterWalletChange(old(Abs()), adapter)
      ensures loginButton.textContent == old(loginButton.textContent)
      ensures loginButton.disabled == old(loginButton.disabled)
      ensures adapter.None? ==> boundAdapter == old(boundAdapter)
    {
      wallet := adapter;
      if adapter.Some? {
        boundAdapter := adapter;
      }
      RefreshUi();
    }

    /** The sign-in store's subscription callback. */
    method OnSiwsState(ctx: SiwsContext)
      requires Valid()
      modifies this, solPubKey, icPrincipal, connectButton, loginButton, logoutButton, error
      ensures Abs() == AfterSiwsState(old(Abs()), ctx)
      ensures loginButton.disabled <==> loginButton.textContent != "Login"
      ensures error.textContent == ErrorMessage(ctx) && (Displayed(error.State()) <==> ErrorMessage(ctx) != "")
    {
      ValidHandles();
      context := ctx;
      var b := LoginButtonFor(ctx);
      loginButton.textContent := b.text;
      loginButton.disabled := b.disabled;
      var message := ErrorMessage(ctx);
      SetDisplay(error, message != "");
      error.textContent := message;
      RefreshUi();
    }
  }
}
