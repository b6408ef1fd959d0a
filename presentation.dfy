/** The pure derivations the front end uses when it writes element text:
    the JavaScript `String.prototype.slice` rule, address truncation, the
    login button's label and the error banner's message. */
module Presentation {
  import opened Wrappers
  import opened Snapshots

  function Min(a: int, b: int): int { if a <= b then a else b }

  function Max(a: int, b: int): int { if a <= b then b else a }

  /** The index `slice` uses for an argument `i` on a string of length `len`:
      a negative index counts from the end, and the result is clamped to [0, len]. */
  function RelativeIndex(i: int, len: nat): (r: nat)
    ensures r <= len
  {
    if i < 0 then (if len + i < 0 then 0 else len + i)
    else if i < len then i
    else len
  }

  /** `s.slice(start, end)`: the characters from the relative start up to the
      relative end, or the empty string when the start is not before the end. */
  function Slice(s: string, start: int, end: int): (r: string)
    ensures |r| == Max(0, RelativeIndex(end, |s|) - RelativeIndex(start, |s|))
    ensures forall k :: 0 <= k < |r| ==> RelativeIndex(start, |s|) + k < |s| && r[k] == s[RelativeIndex(start, |s|) + k]
  {
    var from, to := RelativeIndex(start, |s|), RelativeIndex(end, |s|);
    if from < to then s[from..to] else ""
  }

  /** `s.slice(0, n)` is the prefix of length min(n, |s|). */
  lemma SliceFromStart(s: string, n: nat)
    ensures Slice(s, 0, n) == s[..Min(n, |s|)]
  {
  }

  /** `s.slice(-n)` (end defaulting to the length) is the suffix of length min(n, |s|). */
  lemma SliceLast(s: string, n: int)
    requires n > 0
    ensures Slice(s, -n, |s|) == s[Max(0, |s| - n)..]
  {
  }

  /** The shortened form of a principal or a public key: `id.slice(0, 4) + "..." + id.slice(-4)`. */
  function Truncate(id: string): (r: string)
    ensures r == id[..Min(4, |id|)] + "..." + id[Max(0, |id| - 4)..]
  {
    SliceFromStart(id, 4);
    SliceLast(id, 4);
    Slice(id, 0, 4) + "..." + Slice(id, -4, |id|)
  }

  /** An identifier of at least eight characters is shown as its first four
      characters, three dots and its last four, eleven characters in all. */
  lemma TruncateLong(id: string)
    requires |id| >= 8
    ensures |Truncate(id)| == 11
    ensures Truncate(id)[..4] == id[..4]
    ensures Truncate(id)[4..7] == "..."
    ensures Truncate(id)[7..] == id[|id| - 4..]
  {
  }

  /** The code does not guard short identifiers: one of at most four characters
      appears twice, around the dots. */
  lemma TruncateShort(id: string)
    requires |id| <= 4
    ensures Truncate(id) == id + "..." + id
  {
  }

  lemma TruncateExample()
    ensures Truncate("Gh7xQ1pLmN9zT3kR") == "Gh7x...T3kR"
  {
  }

  /** The login button's text and disabled flag after a sign-in notification. */
  datatype LoginButtonState = LoginButtonState(text: string, disabled: bool)

  /** The sign-in flow is in progress: preparing, logging in or waiting for a signature. */
  predicate Busy(ctx: SiwsContext)
  {
    ctx.prepareLoginStatus == Preparing || ctx.loginStatus == LoggingIn || ctx.signMessageStatus == SignPending
  }

  /** The if/else chain over the three statuses; the first match wins. */
  function LoginButtonFor(ctx: SiwsContext): (b: LoginButtonState)
    ensures b.disabled <==> b.text != "Login"
    ensures b.text == "Login" <==> !Busy(ctx)
    ensures b.text in {"Preparing...", "Logging in...", "Signing message...", "Login"}
  {
    if ctx.prepareLoginStatus == Preparing then LoginButtonState("Preparing...", true)
    else if ctx.loginStatus == LoggingIn then LoginButtonState("Logging in...", true)
    else if ctx.signMessageStatus == SignPending then LoginButtonState("Signing message...", true)
    else LoginButtonState("Login", false)
  }

  /** The precedence of the label, stated as a decision table over the statuses. */
  lemma LabelPrecedence(ctx: SiwsContext)
    ensures ctx.prepareLoginStatus == Preparing ==> LoginButtonFor(ctx).text == "Preparing..."
    ensures ctx.prepareLoginStatus != Preparing && ctx.loginStatus == LoggingIn
            ==> LoginButtonFor(ctx).text == "Logging in..."
    ensures ctx.prepareLoginStatus != Preparing && ctx.loginStatus != LoggingIn && ctx.signMessageStatus == SignPending
            ==> LoginButtonFor(ctx).text == "Signing message..."
  {
  }

  /** While preparing, nothing else in the context affects the button. */
  lemma PreparingOverridesAll(c1: SiwsContext, c2: SiwsContext)
    requires c1.prepareLoginStatus == Preparing && c2.prepareLoginStatus == Preparing
    ensures LoginButtonFor(c1) == LoginButtonFor(c2) == LoginButtonState("Preparing...", true)
  {
  }

  /** JavaScript `a || b` on two possibly-undefined objects: an object is truthy. */
  function Either<T>(a: Option<T>, b: Option<T>): (r: Option<T>)
    ensures r.Some? <==> a.Some? || b.Some?
    ensures a.Some? ==> r == a
    ensures a.None? ==> r == b
  {
    if a.Some? then a else b
  }

  /** `(loginError || prepareLoginError)?.message || ""`. */
  function ErrorMessage(ctx: SiwsContext): (m: string)
    ensures ctx.loginError.Some? ==> m == ctx.loginError.value.message
    ensures ctx.loginError.None? && ctx.prepareLoginError.Some? ==> m == ctx.prepareLoginError.value.message
    ensures ctx.loginError.None? && ctx.prepareLoginError.None? ==> m == ""
  {
    match Either(ctx.loginError, ctx.prepareLoginError)
    case Some(e) => if e.message != "" then e.message else ""
    case None => ""
  }

  /** A present login error hides the prepare error even when its own message
      is empty; the message is then empty. */
  lemma EmptyLoginErrorWins(ctx: SiwsContext)
    requires ctx.loginError == Some(SiwsError(""))
    ensures ErrorMessage(ctx) == ""
  {
  }
}
