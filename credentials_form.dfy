/** The credentials form of src/components/CredentialsForm.tsx: submit validation and phone auto-format. */
module CredentialsForm {
  import opened Chars
  import Services

  const FillAllFieldsAlert := "Please fill in all fields"
  const AccountSidAlert := "Account SID should start with \"AC\""
  const PhonePrefixAlert := "Phone number should start with \"+\" and include country code"

  /** What `String.prototype.trim` strips: the ECMAScript WhiteSpace and LineTerminator characters. */
  predicate IsTrimmable(c: char) {
    || c == '\t' || c == '\n' || c == '\U{000B}' || c == '\U{000C}' || c == '\r' || c == ' '
    || c == '\U{00A0}' || c == '\U{1680}' || ('\U{2000}' <= c <= '\U{200A}')
    || c == '\U{2028}' || c == '\U{2029}' || c == '\U{202F}' || c == '\U{205F}'
    || c == '\U{3000}' || c == '\U{FEFF}'
  }

  /** Leading trimmable characters removed: a suffix of `s`, everything cut off trimmable. */
  function TrimStart(s: string): (r: string)
    ensures |r| <= |s| && r == s[|s| - |r|..]
    ensures r == [] || !IsTrimmable(r[0])
    ensures forall i :: 0 <= i < |s| - |r| ==> IsTrimmable(s[i])
  {
    if s != [] && IsTrimmable(s[0]) then TrimStart(s[1..]) else s
  }

  /** Trailing trimmable characters removed: a prefix of `s`, everything cut off trimmable. */
  function TrimEnd(s: string): (r: string)
    ensures |r| <= |s| && r == s[..|r|]
    ensures r == [] || !IsTrimmable(r[|r| - 1])
    ensures forall i :: |r| <= i < |s| ==> IsTrimmable(s[i])
  {
    if s != [] && IsTrimmable(s[|s| - 1]) then TrimEnd(s[..|s| - 1]) else s
  }

  /** `trim()`. */
  function Trim(s: string): string {
    TrimEnd(TrimStart(s))
  }

  /** A string that neither starts nor ends with a trimmable character. */
  predicate Trimmed(s: string) {
    s == [] || (!IsTrimmable(s[0]) && !IsTrimmable(s[|s| - 1]))
  }

  /** The trimmed string is an infix of the input, with nothing trimmable at either end. */
  lemma TrimIsInfix(s: string)
    ensures Trimmed(Trim(s))
    ensures exists i, j :: 0 <= i <= j <= |s| && Trim(s) == s[i..j]
  {
    var t := TrimStart(s);
    var r := TrimEnd(t);
    var i := |s| - |t|;
    assert r == s[i..i + |r|];
    if r != [] {
      assert r[0] == t[0];
    }
  }

  /** Trimming leaves a trimmed string as it is, so trimming is idempotent. */
  lemma TrimFixesTrimmed(s: string)
    requires Trimmed(s)
    ensures Trim(s) == s
  {
  }

  lemma TrimIdempotent(s: string)
    ensures Trim(Trim(s)) == Trim(s)
  {
    TrimIsInfix(s);
    TrimFixesTrimmed(Trim(s));
  }

  /** Trimming keeps a prefix that holds nothing trimmable. */
  lemma TrimKeepsPrefix(s: string, prefix: string)
    requires StartsWith(s, prefix)
    requires forall k :: 0 <= k < |prefix| ==> !IsTrimmable(prefix[k])
    ensures StartsWith(Trim(s), prefix)
  {
    if prefix != [] {
      assert !IsTrimmable(s[0]);
      assert TrimStart(s) == s;
      var r := TrimEnd(s);
      assert !IsTrimmable(s[|prefix| - 1]);
      assert |prefix| <= |r|;
      assert r[..|prefix|] == s[..|prefix|];
    }
  }

  /** What submitting the form does: hand the credentials to `onConnect`, or raise an alert. */
  datatype SubmitResult = Connect(credentials: Services.Credentials) | Alert(message: string)

  /**
   * `handleSubmit`: the checks run on the values as typed, in order (all fields filled, the SID
   * starts with `AC`, the number starts with `+`) and the first failure raises its alert; only
   * the trimmed values reach `onConnect`.
   */
  function Submit(accountSid: string, authToken: string, phoneNumber: string): (r: SubmitResult)
    ensures r.Connect? <==>
              && accountSid != "" && authToken != "" && phoneNumber != ""
              && StartsWith(accountSid, "AC") && StartsWith(phoneNumber, "+")
    ensures r.Connect? ==> r.credentials == Services.Credentials(Trim(accountSid), Trim(authToken), Trim(phoneNumber))
    ensures accountSid == "" || authToken == "" || phoneNumber == "" ==> r == Alert(FillAllFieldsAlert)
    ensures accountSid != "" && authToken != "" && phoneNumber != "" && !StartsWith(accountSid, "AC") ==>
              r == Alert(AccountSidAlert)
    ensures (accountSid != "" && authToken != "" && phoneNumber != "" && StartsWith(accountSid, "AC")
             && !StartsWith(phoneNumber, "+")) ==> r == Alert(PhonePrefixAlert)
  {
    if accountSid == "" || authToken == "" || phoneNumber == "" then Alert(FillAllFieldsAlert)
    else if !StartsWith(accountSid, "AC") then Alert(AccountSidAlert)
    else if !StartsWith(phoneNumber, "+") then Alert(PhonePrefixAlert)
    else Connect(Services.Credentials(Trim(accountSid), Trim(authToken), Trim(phoneNumber)))
  }

  /** The prefixes checked before trimming survive it: what reaches `onConnect` still starts with `AC` and `+`. */
  lemma SubmittedPrefixesSurviveTrim(accountSid: string, phoneNumber: string)
    requires StartsWith(accountSid, "AC") && StartsWith(phoneNumber, "+")
    ensures StartsWith(Trim(accountSid), "AC")
    ensures StartsWith(Trim(phoneNumber), "+")
  {
    TrimKeepsPrefix(accountSid, "AC");
    TrimKeepsPrefix(phoneNumber, "+");
  }

  /**
   * The non-empty check sees the untrimmed token, so a token made only of whitespace passes it
   * and reaches `onConnect` as the empty string.
   */
  lemma BlankTokenSubmittedEmpty(accountSid: string, authToken: string, phoneNumber: string)
    requires StartsWith(accountSid, "AC") && StartsWith(phoneNumber, "+")
    requires authToken != "" && forall i :: 0 <= i < |authToken| ==> IsTrimmable(authToken[i])
    ensures Submit(accountSid, authToken, phoneNumber).Connect?
    ensures Submit(accountSid, authToken, phoneNumber).credentials.authToken == ""
  {
    assert TrimStart(authToken) == [];
  }

  /** A character the phone field keeps: `[\d+]`. */
  predicate IsPhoneChar(c: char) {
    IsDigit(c) || c == '+'
  }

  /** `value.replace(/[^\d+]/g, '')`: the digits and plus signs of `value`, in order. */
  function PhoneChars(value: string): (r: string)
    ensures |r| <= |value|
    ensures forall i :: 0 <= i < |r| ==> IsPhoneChar(r[i])
  {
    if value == [] then []
    else (if IsPhoneChar(value[0]) then [value[0]] else []) + PhoneChars(value[1..])
  }

  /** `handlePhoneNumberChange`: keep digits and `+`, and put a `+` in front of a non-empty result that lacks one. */
  function FormatPhoneInput(value: string): (r: string)
    ensures forall i :: 0 <= i < |r| ==> IsPhoneChar(r[i])
    ensures r == [] || r[0] == '+'
    ensures r == PhoneChars(value) || r == "+" + PhoneChars(value)
  {
    var formatted := PhoneChars(value);
    if !StartsWith(formatted, "+") && |formatted| > 0 then "+" + formatted else formatted
  }

  lemma {:induction false} PhoneCharsKeepsDigits(value: string)
    ensures Digits(PhoneChars(value)) == Digits(value)
  {
    if value != [] {
      PhoneCharsKeepsDigits(value[1..]);
      DigitsAppend(if IsPhoneChar(value[0]) then [value[0]] else [], PhoneChars(value[1..]));
    }
  }

  lemma {:induction false} PhoneCharsOfPhoneChars(value: string)
    requires forall i :: 0 <= i < |value| ==> IsPhoneChar(value[i])
    ensures PhoneChars(value) == value
  {
    if value != [] {
      PhoneCharsOfPhoneChars(value[1..]);
    }
  }

  lemma {:induction false} PhoneCharsEmpty(value: string)
    ensures PhoneChars(value) == [] <==> forall i :: 0 <= i < |value| ==> !IsPhoneChar(value[i])
  {
    if value != [] {
      PhoneCharsEmpty(value[1..]);
      if !IsPhoneChar(value[0]) && (forall i :: 0 <= i < |value| - 1 ==> !IsPhoneChar(value[1..][i])) {
        assert forall i :: 0 <= i < |value| ==> !IsPhoneChar(value[i]) by {
          forall i | 0 <= i < |value| ensures !IsPhoneChar(value[i]) {
            if i > 0 { assert value[i] == value[1..][i - 1]; }
          }
        }
      }
    }
  }

  /** The auto-format keeps the input's digits, in order, and adds nothing else but a leading `+`. */
  lemma FormatPhoneInputKeepsDigits(value: string)
    ensures Digits(FormatPhoneInput(value)) == Digits(value)
  {
    PhoneCharsKeepsDigits(value);
    DigitsAppend("+", PhoneChars(value));
  }

  /** Formatting the phone field twice is formatting it once. */
  lemma FormatPhoneInputIdempotent(value: string)
    ensures FormatPhoneInput(FormatPhoneInput(value)) == FormatPhoneInput(value)
  {
    PhoneCharsOfPhoneChars(FormatPhoneInput(value));
  }

  /** The field becomes empty exactly when the input has no digit and no `+`. */
  lemma FormatPhoneInputEmpty(value: string)
    ensures FormatPhoneInput(value) == [] <==> forall i :: 0 <= i < |value| ==> !IsPhoneChar(value[i])
  {
    PhoneCharsEmpty(value);
  }

  /** A phone field kept by the auto-format never triggers the `+` alert. */
  lemma FormattedPhoneNeverAlertsPrefix(accountSid: string, authToken: string, phoneNumber: string)
    requires FormatPhoneInput(phoneNumber) == phoneNumber
    ensures Submit(accountSid, authToken, phoneNumber) != Alert(PhonePrefixAlert)
  {
    assert phoneNumber != "" ==> StartsWith(phoneNumber, "+");
  }

  /** The three fields of the form; the phone field is only ever written through the auto-format. */
  class Form {
    var accountSid: string
    var authToken: string
    var phoneNumber: string

    predicate Valid()
      reads this
    {
      FormatPhoneInput(phoneNumber) == phoneNumber
    }

    constructor ()
      ensures Valid()
      ensures accountSid == "" && authToken == "" && phoneNumber == ""
    {
      accountSid, authToken, phoneNumber := "", "", "";
    }

    method ChangeAccountSid(value: string)
      requires Valid()
      modifies this`accountSid
      ensures Valid() && accountSid == value
    {
      accountSid := value;
    }

    method ChangeAuthToken(value: string)
      requires Valid()
      modifies this`authToken
      ensures Valid() && authToken == value
    {
      authToken := value;
    }

    /** `handlePhoneNumberChange`: stores the auto-formatted value. */
    method ChangePhoneNumber(value: string)
      requires Valid()
      modifies this`phoneNumber
      ensures Valid()
      ensures phoneNumber == FormatPhoneInput(value)
    {
      FormatPhoneInputIdempotent(value);
      phoneNumber := FormatPhoneInput(value);
    }

    /** `handleSubmit` on the current fields; with the phone field formatted, the `+` alert cannot fire. */
    method HandleSubmit() returns (r: SubmitResult)
      requires Valid()
      ensures r == Submit(accountSid, authToken, phoneNumber)
      ensures r != Alert(PhonePrefixAlert)
    {
      FormattedPhoneNeverAlertsPrefix(accountSid, authToken, phoneNumber);
      r := Submit(accountSid, authToken, phoneNumber);
    }
  }
}
