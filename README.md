# Sign in with Solana demo front end: UI reconciliation

This project models the `App` class of the demo front end
(`packages/frontend/src/main.ts`). The class mirrors two external
snapshots into six page elements. One snapshot is the wallet adapter from
the Solana wallet connector, which may be absent and may have no public key.
The other is the sign-in-with-Solana store's context: three statuses, two
optional errors and an optional identity. The six elements are the public-key
label, the principal label, the connect, login and logout buttons, and the
error banner.

Layout:

- `wrappers.dfy`: `Option` and `Result`.
- `snapshots.dfy`: the adapter and the sign-in context as datatypes.
- `presentation.dfy`: the pure derivations. These are JavaScript
  `String.prototype.slice`, the four-dots-four truncation, the login button's
  label and disabled flag, and the error banner's message.
- `reconciler.dfy`: the element state as values (`AppState`). The effect of
  `refreshUi` and of the two notification callbacks is written as functions
  of that state. Lemmas about histories of notifications say what ends up on
  screen.
- `frontend.dfy`: the imperative model. An `Element` class holds
  `textContent`, `disabled` and the inline `display` style. The `App` class
  keeps its seven element handles as fields. Its methods write them in place.
  `RefreshUi`, the two callbacks and the constructor state the new state
  (`Abs()`) through the functions in `reconciler.dfy`. `SetDisplay` and the
  three toggles state it element by element. `GetElement` looks a selector up in a document modelled as
  a map, and fails with `Missing element: <selector>`.

The wallet connector's `getWallet()` and the store's `getSnapshot().context`
are modelled as the fields `wallet` and `context` of `App`. A notification
first moves that snapshot and then runs the callback. The adapter handed to
`siws.setAdapter` is recorded in `boundAdapter`.

The model follows the code where its behaviour is easy to misread:

- The error banner is shown when the message is non-empty, not whenever an
  error is present. A present `loginError` with an empty message still takes
  precedence over `prepareLoginError`, because an error object is truthy. The
  banner is then hidden.
- Identifiers shorter than eight characters are not guarded. One of at most
  four characters shows twice, around the dots (`TruncateShort`).
- Only the sign-in callback writes the login label and the banner. Directly
  after construction the label is "Login" whatever the context says
  (`InitialSynced`).

## Model

| member | source | states |
|---|---|---|
| `Presentation.RelativeIndex` | packages/frontend/src/main.ts:168 | the clamped index `slice` uses never exceeds the string's length |
| `Presentation.Slice` | packages/frontend/src/main.ts:168 | `slice` yields the contiguous run of the string from the relative start to the relative end, max(0, to - from) characters long |
| `Presentation.SliceFromStart` | packages/frontend/src/main.ts:168 | `s.slice(0, n)` is the prefix of length min(n, \|s\|) |
| `Presentation.SliceLast` | packages/frontend/src/main.ts:168 | for n > 0, `s.slice(-n)` is the suffix of length min(n, \|s\|) |
| `Presentation.Truncate` | packages/frontend/src/main.ts:168-179 | the displayed identifier is `s[..min(4,\|s\|)] + "..." + s[max(0,\|s\|-4)..]` |
| `Presentation.TruncateLong` | packages/frontend/src/main.ts:168-179 | for \|s\| >= 8 the result has 11 characters, the first four of `s`, three dots, the last four of `s` |
| `Presentation.TruncateShort` | packages/frontend/src/main.ts:168-179 | an identifier of at most four characters appears twice around the dots |
| `Presentation.TruncateExample` | packages/frontend/src/main.ts:168-179 | "Gh7xQ1pLmN9zT3kR" is shown as "Gh7x...T3kR" |
| `Presentation.LoginButtonFor` | packages/frontend/src/main.ts:132-144 | the button is disabled iff its label is not "Login", and the label is "Login" iff no status is preparing, logging in or pending |
| `Presentation.LabelPrecedence` | packages/frontend/src/main.ts:132-143 | first match wins: preparing, then logging in, then signing, then "Login" |
| `Presentation.PreparingOverridesAll` | packages/frontend/src/main.ts:132-134 | while preparing, the button is "Preparing..." and disabled whatever the other fields are |
| `Presentation.Either` | packages/frontend/src/main.ts:146 | the JavaScript or-operator on two possibly-absent error objects: the left one whenever it is present, else the right one |
| `Presentation.ErrorMessage` | packages/frontend/src/main.ts:146 | the message is the login error's when present, else the prepare error's, else empty |
| `Presentation.EmptyLoginErrorWins` | packages/frontend/src/main.ts:146-148 | a present login error with an empty message gives the empty message, even when a prepare error is present |
| `Reconciler.DisplayValue` | packages/frontend/src/main.ts:161 | the display style is "" exactly when shown and "none" exactly when hidden |
| `Reconciler.MarkupUi` | packages/frontend/src/main.ts:84-89 | in the markup only the connect button is displayed, the buttons carry "Connect wallet", "Login" and "Logout", the other texts are empty and nothing is disabled |
| `Reconciler.PublicKeyText` | packages/frontend/src/main.ts:176-178 | the address text is present iff there is an adapter and it has a public key, and is then that key's text |
| `Reconciler.PrincipalText` | packages/frontend/src/main.ts:165-167 | the principal text is present iff there is an identity, and is then its principal's text |
| `Reconciler.ShowTruncated` | packages/frontend/src/main.ts:164-184 | an identifier label shows the truncated identifier when present and is hidden otherwise, keeping its old text and its disabled flag |
| `Reconciler.Refreshed` | packages/frontend/src/main.ts:154-193 | refreshing reconciles visibility with the snapshots; each button changes only its display, the banner and the snapshots are unchanged, the identifier labels keep their disabled flags, and a hidden identifier keeps its old text |
| `Reconciler.ExactlyOneAction` | packages/frontend/src/main.ts:190-192 | exactly one of connect, login, logout is displayed: connect iff no wallet, login iff wallet and no identity, logout iff both |
| `Reconciler.IdentifiersShown` | packages/frontend/src/main.ts:164-184 | the principal shows iff there is an identity; the address shows iff the adapter has a public key, so a keyless adapter shows login and no address |
| `Reconciler.RefreshFixpoint` | packages/frontend/src/main.ts:154-193 | refreshing leaves a state unchanged iff it is already reconciled |
| `Reconciler.RefreshIdempotent` | packages/frontend/src/main.ts:154-193 | refreshing twice gives the same state as refreshing once |
| `Reconciler.WalletNoOp` | packages/frontend/src/main.ts:112-117 | a null wallet notification while no wallet is connected leaves a reconciled state unchanged |
| `Reconciler.SiwsRepeatNoOp` | packages/frontend/src/main.ts:121-151 | a second sign-in notification with the same context changes nothing |
| `Reconciler.AfterWalletChange` | packages/frontend/src/main.ts:112-117 | a wallet notification rebinds the sign-in adapter only when non-null and reconciles visibility; each button changes only its display, the context and the banner are unchanged, the identifier labels keep their disabled flags, and a hidden identifier keeps its old text |
| `Reconciler.AfterSiwsState` | packages/frontend/src/main.ts:121-151 | a sign-in notification leaves the button and banner in agreement with the new context, reconciles visibility, and keeps the wallet, the binding, the connect and logout buttons apart from their display, the identifier labels' disabled flags and the text of a hidden identifier label |
| `Reconciler.Initial` | packages/frontend/src/main.ts:84-89 | after construction the state is reconciled, no adapter is bound, the login button reads "Login" enabled and the banner is empty and hidden |
| `Reconciler.InitialSynced` | packages/frontend/src/main.ts:44-62 | the start state agrees with the context iff the flow is idle and reports no error |
| `Reconciler.DeliverAllAppend` | packages/frontend/src/main.ts:111-151 | handling notifications one after another: one more notification is one more step |
| `Reconciler.DeliverAllSnapshots` | packages/frontend/src/main.ts:112-117 | after any history the wallet and context are those of the latest notifications, and the bound adapter is the last non-null one |
| `Reconciler.DeliverAllInvariants` | packages/frontend/src/main.ts:111-193 | every history keeps the static button texts, a non-empty one leaves visibility reconciled, and a synced button and banner stay synced |
| `Reconciler.DeliverAllSyncs` | packages/frontend/src/main.ts:121-151 | once any sign-in notification has been handled, the button and banner agree with the latest context |
| `Reconciler.ScreenOfSynced` | packages/frontend/src/main.ts:121-193 | a reconciled, synced state shows exactly the screen its two snapshots determine |
| `Reconciler.ScreenDependsOnlyOnLatest` | packages/frontend/src/main.ts:111-193 | after a history containing a sign-in notification, the screen is a function of the latest wallet and the latest context |
| `Reconciler.OrderIndependent` | packages/frontend/src/main.ts:111-193 | two histories that each contain a sign-in notification and end with the same latest snapshots show the same screen, whatever the interleaving |
| `Reconciler.ConnectThenSignIn` | packages/frontend/src/main.ts:186-193 | connecting a wallet shows login; a later identity swaps it for logout |
| `Frontend.Selector` | packages/frontend/src/main.ts:10-18 | every selector is an id selector |
| `Frontend.SelectorsDistinct` | packages/frontend/src/main.ts:10-18 | no two element keys share a selector |
| `Frontend.App.GetElement` | packages/frontend/src/main.ts:37-41 | succeeds iff the selector is in the document, returning its element; otherwise fails with "Missing element: " and the selector |
| `Frontend.App.RenderStaticContent` | packages/frontend/src/main.ts:84-89 | the markup creates six new, distinct elements with their initial text and display, and leaves the other document entries as they were |
| `Frontend.App.constructor` | packages/frontend/src/main.ts:44-62 | the seven handles are distinct and the element state is the markup followed by one refresh |
| `Frontend.App.Start` | packages/frontend/src/main.ts:37-46 | startup fails with "Missing element: #app" iff the container is absent; otherwise the new app is in its initial state |
| `Frontend.App.SetDisplay` | packages/frontend/src/main.ts:160-162 | only the element's display changes, to "" when shown and "none" when hidden |
| `Frontend.App.ToggleIcPrincipal` | packages/frontend/src/main.ts:164-173 | with an identity the principal label shows the truncated principal; without one it is hidden and keeps its text |
| `Frontend.App.ToggleSolPubKey` | packages/frontend/src/main.ts:175-184 | with a public key the address label shows the truncated key; otherwise it is hidden and keeps its text |
| `Frontend.App.ToggleLoginLogout` | packages/frontend/src/main.ts:186-193 | the three buttons' display follows wallet and identity presence; nothing else changes |
| `Frontend.App.RefreshUi` | packages/frontend/src/main.ts:154-158 | the new element state is the refreshed old one, with exactly one action button displayed |
| `Frontend.App.OnWalletChange` | packages/frontend/src/main.ts:112-117 | the state moves as AfterWalletChange; a null adapter keeps the binding; the login label and its flag are unchanged, and the banner is outside the frame |
| `Frontend.App.OnSiwsState` | packages/frontend/src/main.ts:121-151 | the state moves as AfterSiwsState: the button is disabled iff its label is not "Login", and the banner shows the error message iff it is non-empty |

## Left out

- Click handlers `openMenu`, `login` and `clear` (main.ts:99-109): they call into the wallet connector and the sign-in manager, whose code is not part of this model.
- The sign-in protocol, message signing, canister calls and the store's state machine: the context arrives as one snapshot per notification. Whether `setAdapter` itself triggers a notification is not modelled; `setAdapter` is recorded only as `boundAdapter`.
- The rest of the markup, the logos and the stylesheet (main.ts:1-4, 64-97): only the six elements' initial text and display are kept.
- `packages/frontend/src/state.ts`: a store with one `setAdapter` event that `main.ts` never uses.
- The DOM is a map from selector to element. `querySelector` returning the first match in document order, and `innerHTML` discarding the container's old children, are not modelled.
- Subscriptions and the event loop: each notification is a direct call that completes before the next. Subscribing is assumed not to fire a callback at once, and `getWallet()` is assumed to return the adapter the wallet callback received.
- The text form of keys and principals (`toString`, `toText`): identifiers are taken as strings. JavaScript `slice` counts UTF-16 code units and a Dafny string counts Unicode scalar values; the two agree here because base58 keys and principal text are ASCII. JavaScript truthiness is modelled only where the code relies on it. Adapters, keys, identities and error objects are truthy when present, and a message is falsy only when empty.
- Statuses the code never compares against (success, failure, idle) are included in the datatypes and behave alike.
