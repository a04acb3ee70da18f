/**
 * The wallet-selection modal: the in-flight guard around `handleConnect`,
 * the reduction of whatever the connect call throws to a message, the
 * classification of that message into one of four toasts, and the per-button
 * label and disabled rule.
 */
module WalletModal {
  import opened Optional
  import opened Text

  // ---------------------------------------------------------------------------
  // What a failed connect can throw, and the message drawn from it
  // ---------------------------------------------------------------------------

  /**
   * The integers a JavaScript number holds exactly: magnitude at most 2^53.
   * Within this range `String(n)` is the plain decimal numeral.
   */
  type SafeInteger = n: int | -0x20_0000_0000_0000 <= n <= 0x20_0000_0000_0000

  /** A JavaScript value as it can sit in the `message` property of a thrown object. */
  datatype JsValue =
    | JsString(s: string)
    | JsNumber(n: SafeInteger)
    | JsBool(b: bool)
    | JsNull
    | JsUndefined
    | JsObject

  /**
   * A thrown value, by the branches of the catch block: an `Error` instance,
   * a string, a non-null object with a `message` property, `null`, or
   * anything else (a number, `undefined`, an object without `message`, ...).
   */
  datatype Thrown =
    | ErrorInstance(message: string)
    | StringValue(value: string)
    | MessageObject(property: JsValue)
    | NullValue
    | OtherValue

  function DigitChar(d: nat): (c: char)
    requires d < 10
    ensures '0' <= c <= '9' && c as int - '0' as int == d
  {
    "0123456789"[d]
  }

  predicate AllDigits(s: string) {
    forall i :: 0 <= i < |s| ==> '0' <= s[i] <= '9'
  }

  /** The number a string of decimal digits denotes, most significant digit first. */
  ghost function DigitsValue(s: string): nat
    requires AllDigits(s)
  {
    if s == [] then 0 else DigitsValue(s[..|s| - 1]) * 10 + (s[|s| - 1] as int - '0' as int)
  }

  /** The decimal numeral of `n`, without leading zeros. */
  function Decimal(n: nat): (s: string)
    ensures 1 <= |s| && AllDigits(s)
    ensures |s| > 1 ==> s[0] != '0'
    ensures DigitsValue(s) == n
  {
    if n < 10 then
      var s := [DigitChar(n)];
      assert s[..0] == [];
      s
    else
      var high := Decimal(n / 10);
      var s := high + [DigitChar(n % 10)];
      assert s[..|s| - 1] == high;
      s
  }

  /** `String(v)` for the values of `JsValue` (integral numbers only). */
  function Stringify(v: JsValue): (r: string)
    ensures v.JsString? ==> r == v.s
    ensures v.JsNumber? && v.n >= 0 ==>
      && 1 <= |r| && AllDigits(r) && (|r| > 1 ==> r[0] != '0')
      && DigitsValue(r) == v.n
    ensures v.JsNumber? && v.n < 0 ==>
      && 2 <= |r| && r[0] == '-' && AllDigits(r[1..]) && (|r| > 2 ==> r[1] != '0')
      && DigitsValue(r[1..]) == -v.n
  {
    match v
    case JsString(s) => s
    case JsNumber(n) =>
      if n < 0 then
        var digits := Decimal(-n);
        assert ("-" + digits)[1..] == digits;
        "-" + digits
      else Decimal(n)
    case JsBool(b) => if b then "true" else "false"
    case JsNull => "null"
    case JsUndefined => "undefined"
    case JsObject => "[object Object]"
  }

  const FallbackMessage := "Failed to connect"

  /** The message the catch block settles on, starting from "Failed to connect". */
  function ExtractMessage(error: Thrown): (m: string)
    ensures error.ErrorInstance? ==> m == error.message
    ensures error.StringValue? ==> m == error.value
    ensures error.MessageObject? ==> m == Stringify(error.property)
    ensures error.NullValue? || error.OtherValue? ==> m == FallbackMessage
  {
    match error
    case ErrorInstance(msg) => msg
    case StringValue(s) => s
    case MessageObject(v) => Stringify(v)
    case NullValue => FallbackMessage
    case OtherValue => FallbackMessage
  }

  // ---------------------------------------------------------------------------
  // Classification into four toasts
  // ---------------------------------------------------------------------------

  /** The four outcomes of a failed connect, in the order they are tested. */
  datatype Failure = Rejected | TimedOut | NotDetected | Generic(detail: string)

  /**
   * The `includes` chain of the catch block. The first matching substring
   * wins: "rejected", then "timeout", then "not connected" or "not found";
   * anything else is generic and keeps the message.
   */
  function Classify(message: string): (f: Failure)
    ensures f == Rejected <==> Contains(message, "rejected")
    ensures f == TimedOut <==> !Contains(message, "rejected") && Contains(message, "timeout")
    ensures f == NotDetected <==>
      && !Contains(message, "rejected") && !Contains(message, "timeout")
      && (Contains(message, "not connected") || Contains(message, "not found"))
    ensures f.Generic? <==>
      && !Contains(message, "rejected") && !Contains(message, "timeout")
      && !Contains(message, "not connected") && !Contains(message, "not found")
    ensures f.Generic? ==> f.detail == message
  {
    if Includes(message, "rejected") then Rejected
    else if Includes(message, "timeout") then TimedOut
    else if Includes(message, "not connected") || Includes(message, "not found") then NotDetected
    else Generic(message)
  }

  const RejectedText := "Connection rejected by user"
  const TimedOutText := "Connection timed out. Please try again."
  const NotDetectedText := "Wallet extension not detected or not active"
  const GenericPrefix := "Connection failed: "

  /** The text of the error toast for each outcome. */
  function ToastText(f: Failure): string {
    match f
    case Rejected => RejectedText
    case TimedOut => TimedOutText
    case NotDetected => NotDetectedText
    case Generic(detail) => GenericPrefix + detail
  }

  /**
   * Every error toast is one of the three fixed texts or the generic prefix
   * followed by the message, and the text tells the outcome apart: no two
   * outcomes share a text.
   */
  lemma ToastTextIdentifiesFailure(f: Failure, g: Failure)
    ensures ToastText(f) in {RejectedText, TimedOutText, NotDetectedText}
         || (|ToastText(f)| >= |GenericPrefix| && ToastText(f)[..|GenericPrefix|] == GenericPrefix)
    ensures ToastText(f) == ToastText(g) ==> f == g
  {
    if f.Generic? {
      assert ToastText(f)[..|GenericPrefix|] == GenericPrefix;
      assert ToastText(f)[0] == 'C' && ToastText(f)[11] == 'f';
      assert f.detail == ToastText(f)[|GenericPrefix|..];
    }
    if g.Generic? {
      assert ToastText(g)[0] == 'C' && ToastText(g)[11] == 'f';
      assert g.detail == ToastText(g)[|GenericPrefix|..];
    }
  }

  /** The internal timeout race rejects with `new Error("Connection timeout")`. */
  const TimeoutError: Thrown := ErrorInstance("Connection timeout")

  /** The internal timeout is reported as the timed-out toast. */
  lemma TimeoutErrorIsTimedOut()
    ensures Classify(ExtractMessage(TimeoutError)) == TimedOut
    ensures ToastText(Classify(ExtractMessage(TimeoutError))) == TimedOutText
  {
    var m := "Connection timeout";
    assert OccursAt(m, "timeout", 11);
    assert forall i :: 0 <= i < |m| ==> m[i] != 'j';
    MissingCharExcludes(m, "rejected", 2);
  }

  // ---------------------------------------------------------------------------
  // handleConnect
  // ---------------------------------------------------------------------------

  /** How `Promise.race([connectWallet(id), timeout])` settles. */
  datatype Outcome = Connected | Threw(error: Thrown)

  /** What a settled attempt shows: the success toast and closing the modal, or an error toast. */
  datatype Settled = ConnectedAndClosed | ErrorToast(text: string)

  /**
   * What a settled attempt shows: success closes the modal, and a throw shows
   * the toast picked by the first of the `includes` tests that holds.
   */
  function SettledFor(o: Outcome): (s: Settled)
    ensures o.Connected? <==> s == ConnectedAndClosed
    ensures o.Threw? ==>
      var m := ExtractMessage(o.error);
      s == ErrorToast(
        if Contains(m, "rejected") then RejectedText
        else if Contains(m, "timeout") then TimedOutText
        else if Contains(m, "not connected") || Contains(m, "not found") then NotDetectedText
        else GenericPrefix + m)
  {
    match o
    case Connected => ConnectedAndClosed
    case Threw(e) => ErrorToast(ToastText(Classify(ExtractMessage(e))))
  }

  /** JavaScript truthiness of `connecting: string | null`: null and "" are falsy. */
  predicate Truthy(connecting: Option<string>) {
    connecting.Some? && connecting.value != ""
  }

  class Modal {
    /** The id of the wallet being connected, or null. */
    var connecting: Option<string>

    constructor ()
      ensures connecting == None
    {
      connecting := None;
    }

    /**
     * The first half of `handleConnect`: the guard and `setConnecting`.
     * While an attempt is in flight nothing happens and nothing is called.
     */
    method BeginConnect(walletId: string) returns (started: bool)
      modifies this
      ensures started <==> !Truthy(old(connecting))
      ensures connecting == if started then Some(walletId) else old(connecting)
    {
      if Truthy(connecting) {
        return false;
      }
      connecting := Some(walletId);
      started := true;
    }

    /** The second half: report how the race settled, then clear `connecting` in `finally`. */
    method FinishConnect(outcome: Outcome) returns (shown: Settled)
      modifies this
      ensures shown == SettledFor(outcome)
      ensures connecting == None
    {
      match outcome {
        case Connected =>
          shown := ConnectedAndClosed;
        case Threw(e) =>
          var message := ExtractMessage(e);
          shown := ErrorToast(ToastText(Classify(message)));
      }
      connecting := None;
    }

    /**
     * `handleConnect` from click to settlement: ignored while another
     * attempt is in flight, otherwise settled and `connecting` cleared,
     * whichever way the race went.
     */
    method HandleConnect(walletId: string, outcome: Outcome) returns (shown: Option<Settled>)
      modifies this
      ensures Truthy(old(connecting)) ==> shown == None && connecting == old(connecting)
      ensures !Truthy(old(connecting)) ==> shown == Some(SettledFor(outcome)) && connecting == None
    {
      var started := BeginConnect(walletId);
      if !started {
        return None;
      }
      var s := FinishConnect(outcome);
      shown := Some(s);
    }
  }

  // ---------------------------------------------------------------------------
  // The wallet buttons
  // ---------------------------------------------------------------------------

  datatype Wallet = Wallet(id: string, name: string)

  // The connector library's wallet ids.
  const FreighterId := "freighter"
  const AlbedoId := "albedo"
  const LobstrId := "lobstr"

  const Wallets: seq<Wallet> := [
    Wallet(FreighterId, "FREIGHTER WALLET"),
    Wallet(AlbedoId, "ALBEDO WALLET"),
    Wallet(LobstrId, "LOBSTR WALLET")
  ]

  const ConnectingLabel := "CONNECTING..."

  /** The button's caption: "CONNECTING..." for the wallet being connected, its name otherwise. */
  function Label(connecting: Option<string>, w: Wallet): string {
    if connecting == Some(w.id) then ConnectingLabel else w.name
  }

  /** `disabled={!!connecting}`: the same for every button. */
  predicate Disabled(connecting: Option<string>) {
    Truthy(connecting)
  }

  /**
   * While an attempt on a listed wallet is in flight, every button is
   * disabled and exactly that wallet's button reads "CONNECTING...".
   */
  lemma InFlightView(c: Option<string>, i: int, j: int)
    requires 0 <= i < |Wallets| && 0 <= j < |Wallets|
    requires c == Some(Wallets[i].id)
    ensures Disabled(c)
    ensures Label(c, Wallets[j]) == ConnectingLabel <==> j == i
  {
  }

  /** With no attempt in flight, no button is disabled and every one shows its wallet's name. */
  lemma IdleView(j: int)
    requires 0 <= j < |Wallets|
    ensures !Disabled(None) && Label(None, Wallets[j]) == Wallets[j].name
  {
  }

  /**
   * Clicking Freighter, then Albedo while Freighter is still connecting,
   * then letting the first attempt time out, then connecting Albedo.
   */
  method ReplayConnectSession()
    returns (firstStarted: bool, secondClick: Option<Settled>, caption: string, disabled: bool,
             timedOut: Settled, afterTimeout: Option<string>, retry: Option<Settled>)
    ensures firstStarted && secondClick == None
    ensures caption == ConnectingLabel && disabled
    ensures timedOut == ErrorToast(TimedOutText) && afterTimeout == None
    ensures retry == Some(ConnectedAndClosed)
  {
    var modal := new Modal();
    firstStarted := modal.BeginConnect(FreighterId);
    secondClick := modal.HandleConnect(AlbedoId, Connected);
    caption, disabled := Label(modal.connecting, Wallets[0]), Disabled(modal.connecting);
    TimeoutErrorIsTimedOut();
    timedOut := modal.FinishConnect(Threw(TimeoutError));
    afterTimeout := modal.connecting;
    retry := modal.HandleConnect(AlbedoId, Connected);
  }
}
