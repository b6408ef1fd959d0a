/** The front end's element state as values, and the effect of its two
    notification handlers as functions of that state. The `App` class in
    module Frontend is proved against these functions; the lemmas here say
    what any history of notifications leaves on screen. */
module Reconciler {
  import opened Wrappers
  import opened Snapshots
  import opened Presentation

  /** What the front end reads and writes of one DOM element. */
  datatype ElementState = ElementState(textContent: string, disabled: bool, display: string)

  /** The six elements the front end updates. */
  datatype Ui = Ui(
    solPubKey: ElementState,
    icPrincipal: ElementState,
    connectButton: ElementState,
    loginButton: ElementState,
    logoutButton: ElementState,
    error: ElementState)

  /** The element state together with the snapshots of the two external
      sources and the adapter last handed to the sign-in manager. */
  datatype AppState = AppState(
    wallet: Option<Adapter>,
    context: SiwsContext,
    boundAdapter: Option<Adapter>,
    ui: Ui)

  /** `setDisplay`: the inline display style that shows or hides an element. */
  function DisplayValue(show: bool): (d: string)
    ensures d == "" <==> show
    ensures d == "none" <==> !show
  {
    if show then "" else "none"
  }

  /** The elements as the static markup creates them: only the connect
      button is displayed, each button carries its markup text, and nothing
      is disabled. */
  function MarkupUi(): (ui: Ui)
    ensures Displayed(ui.connectButton)
    ensures !Displayed(ui.solPubKey) && !Displayed(ui.icPrincipal) && !Displayed(ui.loginButton)
    ensures !Displayed(ui.logoutButton) && !Displayed(ui.error)
    ensures ui.connectButton.textContent == "Connect wallet" && ui.loginButton.textContent == "Login"
    ensures ui.logoutButton.textContent == "Logout"
    ensures ui.solPubKey.textContent == ui.icPrincipal.textContent == ui.error.textContent == ""
    ensures !ui.solPubKey.disabled && !ui.icPrincipal.disabled && !ui.connectButton.disabled
    ensures !ui.loginButton.disabled && !ui.logoutButton.disabled && !ui.error.disabled
  {
    Ui(
      ElementState("", false, "none"),
      ElementState("", false, "none"),
      ElementState("Connect wallet", false, ""),
      ElementState("Login", false, "none"),
      ElementState("Logout", false, "none"),
      ElementState("", false, "none"))
  }

  /** The text of the wallet's public key, when the wallet has one. */
  function PublicKeyText(wallet: Option<Adapter>): (r: Option<string>)
    ensures r.Some? <==> wallet.Some? && wallet.value.publicKey.Some?
    ensures r.Some? ==> r == wallet.value.publicKey
  {
    if wallet.Some? && wallet.value.publicKey.Some? then wallet.value.publicKey else None
  }

  /** The text of the identity's principal, when there is an identity. */
  function PrincipalText(identity: Option<Identity>): (r: Option<string>)
    ensures r.Some? <==> identity.Some?
    ensures r.Some? ==> r.value == identity.value.principal
  {
    if identity.Some? then Some(identity.value.principal) else None
  }

  /** `toggleIcPrincipal` and `toggleSolPubKey` on one element: show the
      truncated identifier, or hide the element and leave its old text. */
  function ShowTruncated(e: ElementState, id: Option<string>): (r: ElementState)
    ensures Shows(r, id)
    ensures r.disabled == e.disabled
    ensures id.None? ==> r.textContent == e.textContent
  {
    if id.Some? then e.(textContent := Truncate(id.value), display := DisplayValue(true))
    else e.(display := DisplayValue(false))
  }

  /** The element shows `id` truncated when `id` is present, and is hidden otherwise. */
  predicate Shows(e: ElementState, id: Option<string>)
  {
    e.display == DisplayValue(id.Some?) && (id.Some? ==> e.textContent == Truncate(id.value))
  }

  /** The visibility rules: connect without a wallet, login with a wallet and
      no identity, logout with both, each identifier shown when present. */
  predicate Reconciled(s: AppState)
  {
    var id := s.context.identity;
    && s.ui.connectButton.display == DisplayValue(s.wallet.None?)
    && s.ui.loginButton.display == DisplayValue(s.wallet.Some? && id.None?)
    && s.ui.logoutButton.display == DisplayValue(s.wallet.Some? && id.Some?)
    && Shows(s.ui.icPrincipal, PrincipalText(id))
    && Shows(s.ui.solPubKey, PublicKeyText(s.wallet))
  }

  /** The login button and the error banner agree with the sign-in context. */
  predicate LabelSynced(s: AppState)
  {
    var b, msg := LoginButtonFor(s.context), ErrorMessage(s.context);
    && s.ui.loginButton.textContent == b.text
    && s.ui.loginButton.disabled == b.disabled
    && s.ui.error.textContent == msg
    && s.ui.error.display == DisplayValue(msg != "")
  }

  /** The texts no handler writes keep their markup values. */
  predicate WellFormed(s: AppState)
  {
    s.ui.connectButton.textContent == "Connect wallet" && s.ui.logoutButton.textContent == "Logout"
  }

  predicate Displayed(e: ElementState) { e.display != "none" }

  /** How many of the connect, login and logout buttons are displayed. */
  function ActionsDisplayed(ui: Ui): nat
  {
    (if Displayed(ui.connectButton) then 1 else 0)
    + (if Displayed(ui.loginButton) then 1 else 0)
    + (if Displayed(ui.logoutButton) then 1 else 0)
  }

  /** `refreshUi`: principal, then connect/login/logout, then public key. It
      writes only visibility and the two identifier texts. */
  function Refreshed(s: AppState): (r: AppState)
    ensures Reconciled(r)
    ensures r.wallet == s.wallet && r.context == s.context && r.boundAdapter == s.boundAdapter
    ensures r.ui.connectButton == s.ui.connectButton.(display := r.ui.connectButton.display)
    ensures r.ui.loginButton == s.ui.loginButton.(display := r.ui.loginButton.display)
    ensures r.ui.logoutButton == s.ui.logoutButton.(display := r.ui.logoutButton.display)
    ensures r.ui.error == s.ui.error
    ensures r.ui.icPrincipal.disabled == s.ui.icPrincipal.disabled
    ensures r.ui.solPubKey.disabled == s.ui.solPubKey.disabled
    ensures s.context.identity.None? ==> r.ui.icPrincipal.textContent == s.ui.icPrincipal.textContent
    ensures PublicKeyText(s.wallet).None? ==> r.ui.solPubKey.textContent == s.ui.solPubKey.textContent
  {
    var id := s.context.identity;
    var ui := s.ui.(icPrincipal := ShowTruncated(s.ui.icPrincipal, PrincipalText(id)));
    var ui := ui.(
      connectButton := ui.connectButton.(display := DisplayValue(s.wallet.None?)),
      loginButton := ui.loginButton.(display := DisplayValue(s.wallet.Some? && id.None?)),
      logoutButton := ui.logoutButton.(display := DisplayValue(s.wallet.Some? && id.Some?)));
    var ui := ui.(solPubKey := ShowTruncated(ui.solPubKey, PublicKeyText(s.wallet)));
    s.(ui := ui)
  }

  /** Exactly one of connect, login and logout is displayed, chosen by the
      presence of a wallet and of an identity. */
  lemma ExactlyOneAction(s: AppState)
    requires Reconciled(s)
    ensures ActionsDisplayed(s.ui) == 1
    ensures Displayed(s.ui.connectButton) <==> s.wallet.None?
    ensures Displayed(s.ui.loginButton) <==> s.wallet.Some? && s.context.identity.None?
    ensures Displayed(s.ui.logoutButton) <==> s.wallet.Some? && s.context.identity.Some?
  {
  }

  /** The principal shows iff there is an identity; the address shows iff the
      adapter has a public key, so a keyless adapter shows login and no address. */
  lemma IdentifiersShown(s: AppState)
    requires Reconciled(s)
    ensures Displayed(s.ui.icPrincipal) <==> s.context.identity.Some?
    ensures Displayed(s.ui.solPubKey) <==> s.wallet.Some? && s.wallet.value.publicKey.Some?
    ensures s.wallet.Some? && s.wallet.value.publicKey.None? && s.context.identity.None?
            ==> Displayed(s.ui.loginButton) && !Displayed(s.ui.solPubKey)
  {
  }

  /** The states `refreshUi` leaves alone are exactly the reconciled ones. */
  lemma {:induction false} RefreshFixpoint(s: AppState)
    ensures Refreshed(s) == s <==> Reconciled(s)
  {
    if Reconciled(s) {
      var id := s.context.identity;
      assert ShowTruncated(s.ui.icPrincipal, PrincipalText(id)) == s.ui.icPrincipal;
      assert ShowTruncated(s.ui.solPubKey, PublicKeyText(s.wallet)) == s.ui.solPubKey;
      assert s.ui.connectButton.(display := DisplayValue(s.wallet.None?)) == s.ui.connectButton;
    }
  }

  /** Refreshing twice leaves the same state as refreshing once. */
  lemma RefreshIdempotent(s: AppState)
    ensures Refreshed(Refreshed(s)) == Refreshed(s)
  {
    RefreshFixpoint(Refreshed(s));
  }

  /** A null wallet notification while no wallet is connected changes nothing. */
  lemma WalletNoOp(s: AppState)
    requires Reconciled(s) && s.wallet.None?
    ensures AfterWalletChange(s, None) == s
  {
    RefreshFixpoint(s);
  }

  /** A repeated sign-in notification with the same context changes nothing. */
  lemma SiwsRepeatNoOp(s: AppState, ctx: SiwsContext)
    ensures AfterSiwsState(AfterSiwsState(s, ctx), ctx) == AfterSiwsState(s, ctx)
  {
    var t := AfterSiwsState(s, ctx);
    RefreshFixpoint(t);
  }

  /** The wallet callback: bind a non-null adapter to the sign-in manager,
      then refresh. The wallet source's current wallet is `adapter`. */
  function AfterWalletChange(s: AppState, adapter: Option<Adapter>): (r: AppState)
    ensures Reconciled(r)
    ensures r.wallet == adapter && r.context == s.context
    ensures r.boundAdapter == if adapter.Some? then adapter else s.boundAdapter
    ensures r.ui.connectButton == s.ui.connectButton.(display := r.ui.connectButton.display)
    ensures r.ui.loginButton == s.ui.loginButton.(display := r.ui.loginButton.display)
    ensures r.ui.logoutButton == s.ui.logoutButton.(display := r.ui.logoutButton.display)
    ensures r.ui.error == s.ui.error
    ensures r.ui.icPrincipal.disabled == s.ui.icPrincipal.disabled
    ensures r.ui.solPubKey.disabled == s.ui.solPubKey.disabled
    ensures s.context.identity.None? ==> r.ui.icPrincipal.textContent == s.ui.icPrincipal.textContent
    ensures PublicKeyText(adapter).None? ==> r.ui.solPubKey.textContent == s.ui.solPubKey.textContent
  {
    var bound := if adapter.Some? then adapter else s.boundAdapter;
    Refreshed(s.(wallet := adapter, boundAdapter := bound))
  }

  /** The sign-in callback: label and disable the login button, set the
      error banner, then refresh. The store's current context is `ctx`. */
  function AfterSiwsState(s: AppState, ctx: SiwsContext): (r: AppState)
    ensures Reconciled(r) && LabelSynced(r)
    ensures r.context == ctx && r.wallet == s.wallet && r.boundAdapter == s.boundAdapter
    ensures r.ui.connectButton == s.ui.connectButton.(display := r.ui.connectButton.display)
    ensures r.ui.logoutButton == s.ui.logoutButton.(display := r.ui.logoutButton.display)
    ensures r.ui.icPrincipal.disabled == s.ui.icPrincipal.disabled
    ensures r.ui.solPubKey.disabled == s.ui.solPubKey.disabled
    ensures ctx.identity.None? ==> r.ui.icPrincipal.textContent == s.ui.icPrincipal.textContent
    ensures PublicKeyText(s.wallet).None? ==> r.ui.solPubKey.textContent == s.ui.solPubKey.textContent
  {
    var b := LoginButtonFor(ctx);
    var message := ErrorMessage(ctx);
    var err := s.ui.error.(display := DisplayValue(message != ""));
    var ui := s.ui.(
      loginButton := s.ui.loginButton.(textContent := b.text, disabled := b.disabled),
      error := err.(textContent := message));
    Refreshed(s.(context := ctx, ui := ui))
  }

  /** The state right after construction: the markup, then one refresh. */
  function Initial(wallet: Option<Adapter>, ctx: SiwsContext): (r: AppState)
    ensures Reconciled(r) && WellFormed(r)
    ensures r.wallet == wallet && r.context == ctx && r.boundAdapter == None
    ensures r.ui.loginButton == ElementState("Login", false, DisplayValue(wallet.Some? && ctx.identity.None?))
    ensures r.ui.error == ElementState("", false, "none")
  {
    Refreshed(AppState(wallet, ctx, None, MarkupUi()))
  }

  /** Before the first sign-in notification the button says "Login" and the
      banner is empty, so the start state agrees with the context only when
      the flow is idle and reports no error. */
  lemma InitialSynced(wallet: Option<Adapter>, ctx: SiwsContext)
    ensures LabelSynced(Initial(wallet, ctx)) <==> !Busy(ctx) && ErrorMessage(ctx) == ""
  {
  }

  /** One notification from either source. */
  datatype Notification = WalletChanged(adapter: Option<Adapter>) | SiwsChanged(context: SiwsContext)

  function Deliver(s: AppState, n: Notification): AppState
  {
    match n
    case WalletChanged(adapter) => AfterWalletChange(s, adapter)
    case SiwsChanged(ctx) => AfterSiwsState(s, ctx)
  }

  /** The notifications handled in order, each completing before the next. */
  function DeliverAll(s: AppState, ns: seq<Notification>): AppState
    decreases |ns|
  {
    if ns == [] then s else DeliverAll(Deliver(s, ns[0]), ns[1..])
  }

  /** The adapter of the last wallet notification, or `w` if there was none. */
  function LatestWallet(w: Option<Adapter>, ns: seq<Notification>): Option<Adapter>
    decreases |ns|
  {
    if ns == [] then w
    else if ns[|ns| - 1].WalletChanged? then ns[|ns| - 1].adapter
    else LatestWallet(w, ns[..|ns| - 1])
  }

  /** The context of the last sign-in notification, or `c` if there was none. */
  function LatestContext(c: SiwsContext, ns: seq<Notification>): SiwsContext
    decreases |ns|
  {
    if ns == [] then c
    else if ns[|ns| - 1].SiwsChanged? then ns[|ns| - 1].context
    else LatestContext(c, ns[..|ns| - 1])
  }

  /** The last non-null adapter a wallet notification carried, or `b`. */
  function LatestBinding(b: Option<Adapter>, ns: seq<Notification>): Option<Adapter>
    decreases |ns|
  {
    if ns == [] then b
    else if ns[|ns| - 1].WalletChanged? && ns[|ns| - 1].adapter.Some? then ns[|ns| - 1].adapter
    else LatestBinding(b, ns[..|ns| - 1])
  }

  predicate SeesSiws(ns: seq<Notification>)
  {
    exists i :: 0 <= i < |ns| && ns[i].SiwsChanged?
  }

  /** Handling one more notification extends the history by one step. */
  lemma {:induction false} DeliverAllAppend(s: AppState, ns: seq<Notification>, n: Notification)
    ensures DeliverAll(s, ns + [n]) == Deliver(DeliverAll(s, ns), n)
    decreases |ns|
  {
    if ns == [] {
      assert [] + [n] == [n];
      assert [n][1..] == [];
    } else {
      assert (ns + [n])[0] == ns[0];
      assert (ns + [n])[1..] == ns[1..] + [n];
      DeliverAllAppend(Deliver(s, ns[0]), ns[1..], n);
    }
  }

  /** After any history the snapshots are the latest ones delivered, and the
      sign-in manager holds the last non-null adapter. */
  lemma {:induction false} DeliverAllSnapshots(s: AppState, ns: seq<Notification>)
    ensures DeliverAll(s, ns).wallet == LatestWallet(s.wallet, ns)
    ensures DeliverAll(s, ns).context == LatestContext(s.context, ns)
    ensures DeliverAll(s, ns).boundAdapter == LatestBinding(s.boundAdapter, ns)
    decreases |ns|
  {
    if ns != [] {
      var p, n := ns[..|ns| - 1], ns[|ns| - 1];
      assert ns == p + [n];
      DeliverAllAppend(s, p, n);
      DeliverAllSnapshots(s, p);
    }
  }

  /** Every history keeps the markup texts; a non-empty one leaves the
      visibility reconciled; a synced button and banner stay synced. */
  lemma {:induction false} DeliverAllInvariants(s: AppState, ns: seq<Notification>)
    requires WellFormed(s)
    ensures WellFormed(DeliverAll(s, ns))
    ensures |ns| > 0 ==> Reconciled(DeliverAll(s, ns))
    ensures LabelSynced(s) ==> LabelSynced(DeliverAll(s, ns))
    decreases |ns|
  {
    if ns != [] {
      var p, n := ns[..|ns| - 1], ns[|ns| - 1];
      assert ns == p + [n];
      DeliverAllAppend(s, p, n);
      DeliverAllInvariants(s, p);
    }
  }

  /** Once any sign-in notification has been handled, the login button and the
      error banner agree with the latest context. */
  lemma {:induction false} DeliverAllSyncs(s: AppState, ns: seq<Notification>)
    requires SeesSiws(ns)
    ensures LabelSynced(DeliverAll(s, ns))
    decreases |ns|
  {
    var p, n := ns[..|ns| - 1], ns[|ns| - 1];
    assert ns == p + [n];
    DeliverAllAppend(s, p, n);
    if n.WalletChanged? {
      var i :| 0 <= i < |ns| && ns[i].SiwsChanged?;
      assert p[i] == ns[i];
      DeliverAllSyncs(s, p);
    }
  }

  /** What a user sees of an element: its text, or nothing when hidden. */
  datatype Seen = Hidden | Showing(text: string)

  datatype Screen = Screen(
    address: Seen,
    principal: Seen,
    connect: Seen,
    login: Seen,
    loginDisabled: bool,
    logout: Seen,
    error: Seen)

  function SeenOf(e: ElementState): Seen
  {
    if e.display == "none" then Hidden else Showing(e.textContent)
  }

  function ScreenOf(ui: Ui): Screen
  {
    Screen(SeenOf(ui.solPubKey), SeenOf(ui.icPrincipal), SeenOf(ui.connectButton),
           SeenOf(ui.loginButton), ui.loginButton.disabled, SeenOf(ui.logoutButton), SeenOf(ui.error))
  }

  function SeenIf(show: bool, text: string): Seen
  {
    if show then Showing(text) else Hidden
  }

  /** The screen as a function of the two snapshots alone. */
  function ComputeScreen(wallet: Option<Adapter>, ctx: SiwsContext): Screen
  {
    var key, principal := PublicKeyText(wallet), PrincipalText(ctx.identity);
    var b, msg := LoginButtonFor(ctx), ErrorMessage(ctx);
    Screen(
      if key.Some? then Showing(Truncate(key.value)) else Hidden,
      if principal.Some? then Showing(Truncate(principal.value)) else Hidden,
      SeenIf(wallet.None?, "Connect wallet"),
      SeenIf(wallet.Some? && ctx.identity.None?, b.text),
      b.disabled,
      SeenIf(wallet.Some? && ctx.identity.Some?, "Logout"),
      SeenIf(msg != "", msg))
  }

  /** A reconciled, synced state shows exactly the screen its snapshots determine. */
  lemma ScreenOfSynced(s: AppState)
    requires WellFormed(s) && Reconciled(s) && LabelSynced(s)
    ensures ScreenOf(s.ui) == ComputeScreen(s.wallet, s.context)
  {
  }

  /** Once a sign-in notification has been handled, the screen depends only on
      the latest wallet and the latest context, not on the order or repetition
      of the notifications that led there. */
  lemma ScreenDependsOnlyOnLatest(s: AppState, ns: seq<Notification>)
    requires WellFormed(s) && SeesSiws(ns)
    ensures ScreenOf(DeliverAll(s, ns).ui) == ComputeScreen(LatestWallet(s.wallet, ns), LatestContext(s.context, ns))
  {
    DeliverAllInvariants(s, ns);
    DeliverAllSyncs(s, ns);
    DeliverAllSnapshots(s, ns);
    ScreenOfSynced(DeliverAll(s, ns));
  }

  /** Two histories, from any start states, that end with the same latest
      snapshots show the same screen. */
  lemma OrderIndependent(s1: AppState, ns1: seq<Notification>, s2: AppState, ns2: seq<Notification>)
    requires WellFormed(s1) && SeesSiws(ns1) && WellFormed(s2) && SeesSiws(ns2)
    requires LatestWallet(s1.wallet, ns1) == LatestWallet(s2.wallet, ns2)
    requires LatestContext(s1.context, ns1) == LatestContext(s2.context, ns2)
    ensures ScreenOf(DeliverAll(s1, ns1).ui) == ScreenOf(DeliverAll(s2, ns2).ui)
  {
    ScreenDependsOnlyOnLatest(s1, ns1);
    ScreenDependsOnlyOnLatest(s2, ns2);
  }

  /** A wallet connecting shows login; an identity arriving afterwards swaps
      login for logout. */
  lemma ConnectThenSignIn(s: AppState, adapter: Adapter, ctx: SiwsContext)
    requires s.context.identity.None? && ctx.identity.Some?
    ensures var t := Deliver(s, WalletChanged(Some(adapter)));
            Displayed(t.ui.loginButton) && !Displayed(t.ui.logoutButton) && !Displayed(t.ui.connectButton)
    ensures var u := DeliverAll(s, [WalletChanged(Some(adapter)), SiwsChanged(ctx)]);
            !Displayed(u.ui.loginButton) && Displayed(u.ui.logoutButton) && !Displayed(u.ui.connectButton)
  {
    var t := Deliver(s, WalletChanged(Some(adapter)));
    var ns := [WalletChanged(Some(adapter)), SiwsChanged(ctx)];
    assert ns[1..] == [SiwsChanged(ctx)];
    assert [SiwsChanged(ctx)][1..] == [];
    var u := Deliver(t, SiwsChanged(ctx));
    assert DeliverAll(s, ns) == DeliverAll(t, [SiwsChanged(ctx)]);
    assert DeliverAll(t, [SiwsChanged(ctx)]) == DeliverAll(u, []) == u;
    ExactlyOneAction(u);
  }
}
