/** The dial pad of src/components/PhoneInterface.tsx: number formatting and the display handlers. */
module PhoneInterface {
  import opened Chars
  import opened Wrappers
  import Services

  /** At most ten digits are shown. */
  const MaxDigits := 10

  /** The first ten digits of a digit string, `slice(0, 10)`. */
  function FirstTen(d: string): string {
    d[..Min(|d|, MaxDigits)]
  }

  /** A character `formatPhoneNumber` can produce. */
  predicate IsDisplayChar(c: char) {
    IsDigit(c) || c == '(' || c == ')' || c == ' ' || c == '-'
  }

  /**
   * `formatPhoneNumber`: the digits of `value` laid out as `ddd`, `(ddd) ddd` or `(ddd) ddd-dddd`
   * by how many there are, dropping digits past the tenth.
   */
  function FormatPhoneNumber(value: string): (r: string)
    ensures |r| <= MaxDigits + 4
    ensures forall i :: 0 <= i < |r| ==> IsDisplayChar(r[i])
  {
    var d := Digits(value);
    if |d| < 4 then d
    else if |d| < 7 then "(" + d[..3] + ") " + d[3..]
    else "(" + d[..3] + ") " + d[3..6] + "-" + d[6..Min(|d|, MaxDigits)]
  }

  /** A display string the formatter leaves as it is. */
  predicate Formatted(display: string) {
    FormatPhoneNumber(display) == display
  }

  /** The number `handleCall` dials: `+1` and the digits of the display. */
  function DialString(display: string): string {
    "+1" + Digits(display)
  }

  /** `digits.slice(0, -1)`: a prefix of `s`, one character shorter unless `s` is empty. */
  function DropLast(s: string): (r: string)
    ensures r <= s
    ensures |r| == if s == [] then 0 else |s| - 1
  {
    if |s| == 0 then [] else s[..|s| - 1]
  }

  /** Joining two strings with a separator that holds no digit joins their digits. */
  lemma DigitsAcrossSeparator(x: string, sep: string, y: string)
    requires Digits(sep) == []
    ensures Digits(x + sep + y) == Digits(x) + Digits(y)
  {
    DigitsAppend(x, sep);
    DigitsAppend(x + sep, y);
  }

  /** The punctuation of the layouts carries no digit. */
  lemma PunctuationHasNoDigits()
    ensures Digits("(") == [] && Digits(") ") == [] && Digits("-") == []
  {
    DigitsOfNoDigits("(");
    DigitsOfNoDigits(") ");
    DigitsOfNoDigits("-");
  }

  /** A prefix that holds no digit adds none. */
  lemma DigitsAfterPrefix(prefix: string, y: string)
    requires Digits(prefix) == []
    ensures Digits(prefix + y) == Digits(y)
  {
    DigitsAppend(prefix, y);
  }

  /** The digits of the `(ddd) ddd` layout are the two digit groups, in order. */
  lemma DigitsOfShortLayout(a: string, b: string)
    requires AllDigits(a) && AllDigits(b)
    ensures Digits("(" + a + ") " + b) == a + b
  {
    PunctuationHasNoDigits();
    DigitsOfDigits(a);
    DigitsOfDigits(b);
    DigitsAfterPrefix("(", a);
    DigitsAcrossSeparator("(" + a, ") ", b);
  }

  /** The digits of the `(ddd) ddd-dddd` layout are the three digit groups, in order. */
  lemma DigitsOfLongLayout(a: string, b: string, c: string)
    requires AllDigits(a) && AllDigits(b) && AllDigits(c)
    ensures Digits("(" + a + ") " + b + "-" + c) == a + b + c
  {
    PunctuationHasNoDigits();
    DigitsOfShortLayout(a, b);
    DigitsOfDigits(c);
    DigitsAcrossSeparator("(" + a + ") " + b, "-", c);
  }

  /** Stripping non-digits from the formatted string gives the first ten digits of the input, in order. */
  lemma FormatKeepsDigits(value: string)
    ensures Digits(FormatPhoneNumber(value)) == FirstTen(Digits(value))
  {
    var d := Digits(value);
    var n := |d|;
    if n < 4 {
      DigitsOfDigits(d);
    } else if n < 7 {
      DigitsOfShortLayout(d[..3], d[3..]);
      assert d[..3] + d[3..] == d;
    } else {
      var m := Min(n, MaxDigits);
      DigitsOfLongLayout(d[..3], d[3..6], d[6..m]);
      assert d[..3] + d[3..6] + d[6..m] == d[..m];
    }
  }

  /** The formatted string depends only on the digits of the input. */
  lemma FormatDependsOnlyOnDigits(value: string)
    ensures FormatPhoneNumber(value) == FormatPhoneNumber(Digits(value))
  {
    DigitsIdempotent(value);
  }

  /** Formatting an already formatted string returns it unchanged. */
  lemma FormatIdempotent(value: string)
    ensures Formatted(FormatPhoneNumber(value))
  {
    var d := Digits(value);
    var e := Digits(FormatPhoneNumber(value));
    FormatKeepsDigits(value);
    assert e == FirstTen(d);
    if |d| >= 7 {
      var m := Min(|d|, MaxDigits);
      assert |e| == m && Min(|e|, MaxDigits) == m;
      assert e[..3] == d[..3] && e[3..6] == d[3..6] && e[6..m] == d[6..m];
    }
  }

  /** A formatted display holds at most ten digits. */
  lemma FormattedHoldsAtMostTen(display: string)
    requires Formatted(display)
    ensures |Digits(display)| <= MaxDigits
  {
    FormatKeepsDigits(display);
  }

  /** Formatting a digit string of at most ten digits keeps exactly those digits. */
  lemma FormatShortDigits(d: string)
    requires AllDigits(d) && |d| <= MaxDigits
    ensures Digits(FormatPhoneNumber(d)) == d
  {
    FormatKeepsDigits(d);
    DigitsOfDigits(d);
  }

  /** The number dialled is `+1` followed by digits only, and formatting those digits gives the display back. */
  lemma DialStringRoundTrip(display: string)
    requires Formatted(display)
    ensures StartsWith(DialString(display), "+1")
    ensures AllDigits(DialString(display)[2..])
    ensures DialString(display)[2..] == Digits(display)
    ensures FormatPhoneNumber(DialString(display)[2..]) == display
  {
    assert DialString(display)[2..] == Digits(display);
    FormatDependsOnlyOnDigits(display);
  }

  /** `*` and `#` carry no digit, so entering one on a formatted display leaves it unchanged. */
  lemma SymbolKeyIgnored(display: string, key: string)
    requires Formatted(display)
    requires key == "*" || key == "#"
    ensures FormatPhoneNumber(display + key) == display
  {
    DigitsAppend(display, key);
    assert Digits(key) == [];
    assert Digits(display + key) == Digits(display);
    FormatDependsOnlyOnDigits(display);
    FormatDependsOnlyOnDigits(display + key);
  }

  /** The state of the PhoneInterface component: the formatted display, the call flag and the status line. */
  class Dialer {
    var phoneNumber: string
    var isCallActive: bool
    var callStatus: string

    /** The display is always formatted, so it never holds more than ten digits. */
    predicate Valid()
      reads this
    {
      Formatted(phoneNumber)
    }

    constructor ()
      ensures Valid()
      ensures phoneNumber == "" && !isCallActive && callStatus == ""
    {
      phoneNumber := "";
      isCallActive := false;
      callStatus := "";
    }

    /**
     * `handleNumberInput`: appends the key and reformats, but only while the display holds fewer
     * than ten digits. A digit key then adds exactly that digit.
     */
    method NumberInput(key: string)
      requires Valid()
      modifies this`phoneNumber
      ensures Valid()
      ensures |Digits(phoneNumber)| <= MaxDigits
      ensures phoneNumber == if |Digits(old(phoneNumber))| < MaxDigits
                             then FormatPhoneNumber(old(phoneNumber) + key)
                             else old(phoneNumber)
      ensures |Digits(old(phoneNumber))| < MaxDigits && |key| == 1 && IsDigit(key[0]) ==>
                Digits(phoneNumber) == Digits(old(phoneNumber)) + key
      ensures key == "*" || key == "#" ==> phoneNumber == old(phoneNumber)
    {
      ghost var before := phoneNumber;
      if |Digits(phoneNumber)| < MaxDigits {
        if key == "*" || key == "#" {
          SymbolKeyIgnored(phoneNumber, key);
        }
        if |key| == 1 && IsDigit(key[0]) {
          DigitsAppend(phoneNumber, key);
          DigitsOfDigits(key);
          FormatKeepsDigits(phoneNumber + key);
        }
        FormatIdempotent(phoneNumber + key);
        phoneNumber := FormatPhoneNumber(phoneNumber + key);
      }
      FormattedHoldsAtMostTen(phoneNumber);
    }

    /** `handleBackspace`: drops the last digit and reformats; an empty display stays empty. */
    method Backspace()
      requires Valid()
      modifies this`phoneNumber
      ensures Valid()
      ensures Digits(phoneNumber) == DropLast(Digits(old(phoneNumber)))
      ensures |Digits(old(phoneNumber))| > 0 ==> |Digits(phoneNumber)| == |Digits(old(phoneNumber))| - 1
      ensures old(phoneNumber) == "" ==> phoneNumber == ""
    {
      var digits := Digits(phoneNumber);
      var newDigits := DropLast(digits);
      FormattedHoldsAtMostTen(phoneNumber);
      FormatShortDigits(newDigits);
      FormatIdempotent(newDigits);
      phoneNumber := FormatPhoneNumber(newDigits);
    }

    /** `handleClear`: empties the display. */
    method Clear()
      requires Valid()
      modifies this`phoneNumber
      ensures Valid()
      ensures phoneNumber == ""
    {
      phoneNumber := "";
    }

    /**
     * `handleCall`: with a connection and a non-empty display, marks the call active and dials
     * `+1` and the display's digits; a thrown `makeCall` marks it inactive again.
     */
    method HandleCall(isConnected: bool, service: Services.TwilioService, connect: Services.ConnectOutcome)
      returns (dialed: Option<string>)
      requires Valid() && service.Valid()
      requires connect.Connected? ==> connect.call !in service.listened
      modifies this`isCallActive, this`callStatus, service
      ensures Valid() && service.Valid()
      ensures dialed.None? <==> !isConnected || phoneNumber == ""
      ensures dialed.None? ==> unchanged(service) && isCallActive == old(isCallActive) && callStatus == old(callStatus)
      ensures dialed.Some? ==> dialed.value == DialString(phoneNumber)
      ensures dialed.Some? && !old(service.hasDevice) ==> unchanged(service)
      ensures dialed.Some? && old(service.hasDevice) ==>
                service.effects == old(service.effects) + old(service.Notify(Services.Connecting))
                                   + [Services.Command(Services.Connect(dialed.value, service.credentials.phoneNumber))]
                                   + (if connect.ConnectFailed? then old(service.Notify(Services.Failed)) else [])
      ensures dialed.Some? ==>
                var placed := old(service.hasDevice) && connect.Connected?;
                && isCallActive == placed
                && callStatus == (if placed then "Connected" else "Call failed")
                && service.currentCall == (if placed then Some(connect.call) else old(service.currentCall))
                && service.listened == old(service.listened) + (if placed then {connect.call} else {})
      ensures service.hasDevice == old(service.hasDevice)
      ensures service.hasStatusCallback == old(service.hasStatusCallback)
      ensures service.hasIncomingCallback == old(service.hasIncomingCallback)
    {
      if !isConnected || phoneNumber == "" {
        return None;
      }
      isCallActive := true;
      callStatus := "Connecting...";
      var cleanNumber := Digits(phoneNumber);
      dialed := Some("+1" + cleanNumber);
      var result := service.MakeCall("+1" + cleanNumber, connect);
      if result.Done? {
        callStatus := "Connected";
      } else {
        callStatus := "Call failed";
        isCallActive := false;
      }
    }

    /** `handleHangup`: hangs up through the service and resets the call flag and status line. */
    method HandleHangup(service: Services.TwilioService)
      requires Valid() && service.Valid()
      modifies this`isCallActive, this`callStatus, service
      ensures Valid() && service.Valid()
      ensures !isCallActive && callStatus == ""
      ensures service.currentCall == None
      ensures old(service.currentCall).Some? ==>
                service.effects == old(service.effects) + [Services.Command(Services.Disconnect(old(service.currentCall).value))]
                                   + old(service.Notify(Services.Ended))
      ensures old(service.currentCall).None? ==> unchanged(service)
      ensures service.hasDevice == old(service.hasDevice) && service.listened == old(service.listened)
      ensures service.hasStatusCallback == old(service.hasStatusCallback)
      ensures service.hasIncomingCallback == old(service.hasIncomingCallback)
    {
      service.Hangup();
      isCallActive := false;
      callStatus := "";
    }
  }
}
