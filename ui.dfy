/** `UIManager`'s logic: the email and phone shape checks, the required-field validation loop,
    the product modal's quantity input, and the popularity star count. */
module Ui {
  import opened Wrappers
  import opened Seqs
  import opened Text

  /** A character of the class `[^\s@]`. */
  predicate EmailChar(c: char) { !IsSpace(c) && c != '@' }

  predicate AllEmailChars(s: string) { forall i | 0 <= i < |s| :: EmailChar(s[i]) }

  /** `email` splits at `at` and `dot` into `[^\s@]+ @ [^\s@]+ . [^\s@]+`. */
  predicate EmailSplit(email: string, at: nat, dot: nat) {
    && 0 < at && at + 1 < dot && dot + 1 < |email|
    && email[at] == '@' && email[dot] == '.'
    && AllEmailChars(email[..at])
    && AllEmailChars(email[at + 1..dot])
    && AllEmailChars(email[dot + 1..])
  }

  /** `/^[^\s@]+@[^\s@]+\.[^\s@]+$/.test(email)`: an accepted address has an '@' and at least
      five characters. */
  predicate IsValidEmail(email: string)
    ensures IsValidEmail(email) ==> |email| >= 5 && '@' in email
  {
    exists at: nat, dot: nat | at < dot < |email| :: EmailSplit(email, at, dot)
  }

  /** The same check read character by character: no whitespace anywhere, exactly one '@', not
      in first position, and a '.' after it that is neither right after the '@' nor last. */
  predicate EmailScan(email: string) {
    match IndexOf(email, '@')
    case None => false
    case Some(at) =>
      && 0 < at
      && (forall k | 0 <= k < |email| :: !IsSpace(email[k]))
      && (forall k | at < k < |email| :: email[k] != '@')
      && exists dot | at + 1 < dot < |email| - 1 :: email[dot] == '.'
  }

  lemma EmailScanIff(email: string)
    ensures IsValidEmail(email) <==> EmailScan(email)
  {
    if IsValidEmail(email) {
      var at: nat, dot: nat :| at < dot < |email| && EmailSplit(email, at, dot);
      forall k | 0 <= k < |email| && k != at ensures EmailChar(email[k]) {
        if k < at {
          assert email[..at][k] == email[k];
        } else if at < k < dot {
          assert email[at + 1..dot][k - at - 1] == email[k];
        } else if k > dot {
          assert email[dot + 1..][k - dot - 1] == email[k];
        }
      }
      assert '@' !in email[..at];
      assert IndexOf(email, '@') == Some(at);
    }
    if EmailScan(email) {
      var at := IndexOf(email, '@').value;
      var dot :| at + 1 < dot < |email| - 1 && email[dot] == '.';
      assert forall k | 0 <= k < at :: email[k] != '@' by {
        forall k | 0 <= k < at ensures email[k] != '@' {
          assert email[..at][k] == email[k];
        }
      }
      assert EmailSplit(email, at, dot);
    }
  }

  /** A character of the class `[\d\s\-\+\(\)]`. */
  predicate PhoneChar(c: char) {
    IsDigit(c) || IsSpace(c) || c == '-' || c == '+' || c == '(' || c == ')'
  }

  /** `/^[\d\s\-\+\(\)]{7,}$/.test(phone)`; a phone number is exactly what the left-to-right
      matcher `PhoneRun` accepts from the start. */
  predicate IsValidPhone(phone: string)
    ensures IsValidPhone(phone) <==> PhoneRun(phone, 0)
  {
    PhoneRunIff(phone, 0);
    |phone| >= 7 && forall i | 0 <= i < |phone| :: PhoneChar(phone[i])
  }

  /** The pattern read left to right, as a regular-expression matcher runs it: `n` characters of
      the class matched so far, and the rest must be of the class too, with at least seven in all
      by the end of the text. */
  function PhoneRun(s: string, n: nat): (ok: bool)
    ensures ok ==> n + |s| >= 7
    decreases |s|
  {
    if s == [] then n >= 7 else PhoneChar(s[0]) && PhoneRun(s[1..], n + 1)
  }

  lemma {:induction false} PhoneRunIff(s: string, n: nat)
    ensures PhoneRun(s, n) <==> n + |s| >= 7 && forall i | 0 <= i < |s| :: PhoneChar(s[i])
    decreases |s|
  {
    if s != [] {
      PhoneRunIff(s[1..], n + 1);
      assert forall i | 1 <= i < |s| :: s[i] == s[1..][i - 1];
    }
  }

  /** The checkout form's own placeholder passes; a short number or a letter does not. */
  lemma PhoneExamples()
    ensures IsValidPhone("+234 800 000 0000")
  {
    var placeholder := "+234 800 000 0000";
    assert forall i | 0 <= i < |placeholder| :: PhoneChar(placeholder[i]);
  }

  lemma PhoneCounterExamples()
    ensures !IsValidPhone("080-12")
    ensures !IsValidPhone("0803 12A 4567")
  {
    var letter := "0803 12A 4567";
    assert !PhoneChar(letter[7]);
  }

  /** The `type` attribute of a form control. */
  datatype FieldType = Text | Tel | Email | TextArea

  /** A required control of a form: its name, placeholder, type and current value. */
  datatype Field = Field(name: string, placeholder: string, fieldType: FieldType, value: string)

  /** The error state of a control's `.form-group`: the `error` class and the error text. */
  datatype GroupState = GroupState(hasError: bool, errorText: string)

  /** The text `validateForm` shows for a failing field, or `None` when the field passes. */
  function FieldError(f: Field): (e: Option<string>)
    ensures e.None? <==>
      && !IsBlank(f.value)
      && (f.fieldType == Email ==> IsValidEmail(f.value))
      && (f.fieldType == Tel ==> IsValidPhone(f.value))
  {
    if IsBlank(f.value) then Some((if f.placeholder != "" then f.placeholder else f.name) + " is required")
    else if f.fieldType == Email && !IsValidEmail(f.value) then Some("Invalid email address")
    else if f.fieldType == Tel && !IsValidPhone(f.value) then Some("Invalid phone number")
    else None
  }

  /** A group after validation: flagged with the error text, or unflagged with its old text. */
  function Marked(g: GroupState, e: Option<string>): GroupState {
    match e
    case Some(msg) => GroupState(true, msg)
    case None => g.(hasError := false)
  }

  /** `validateForm`: examines every required field, with no early exit, flagging each failing
      one and clearing the flag (but not the text) of each passing one. */
  method ValidateForm(fields: seq<Field>, groups: array<GroupState>) returns (isValid: bool)
    requires groups.Length == |fields|
    modifies groups
    ensures isValid <==> forall i | 0 <= i < |fields| :: FieldError(fields[i]).None?
    ensures forall i | 0 <= i < |fields| :: groups[i] == Marked(old(groups[i]), FieldError(fields[i]))
  {
    isValid := true;
    var i := 0;
    while i < |fields|
      invariant 0 <= i <= |fields|
      invariant isValid <==> forall k | 0 <= k < i :: FieldError(fields[k]).None?
      invariant forall k | 0 <= k < i :: groups[k] == Marked(old(groups[k]), FieldError(fields[k]))
      invariant forall k | i <= k < |fields| :: groups[k] == old(groups[k])
    {
      var field := fields[i];
      if IsBlank(field.value) {
        var caption := if field.placeholder != "" then field.placeholder else field.name;
        groups[i] := GroupState(true, caption + " is required");
        isValid := false;
      } else if field.fieldType == Email && !IsValidEmail(field.value) {
        groups[i] := GroupState(true, "Invalid email address");
        isValid := false;
      } else if field.fieldType == Tel && !IsValidPhone(field.value) {
        groups[i] := GroupState(true, "Invalid phone number");
        isValid := false;
      } else {
        groups[i] := groups[i].(hasError := false);
      }
      i := i + 1;
    }
  }

  /** The modal's quantity input as `parseInt` reads it. */
  datatype Reading = NaN | Num(n: int)

  /** Within the bounds the input declares (`min="1" max="99"`). */
  predicate InRange(r: Reading) { r.Num? && 1 <= r.n <= 99 }

  /** `Math.min(parseInt(input.value) + 1, 99)`; `NaN` stays `NaN`. */
  function Incremented(r: Reading): Reading {
    match r
    case NaN => NaN
    case Num(n) => Num(if n + 1 < 99 then n + 1 else 99)
  }

  /** `Math.max(parseInt(input.value) - 1, 1)`; `NaN` stays `NaN`. */
  function Decremented(r: Reading): Reading {
    match r
    case NaN => NaN
    case Num(n) => Num(if n - 1 > 1 then n - 1 else 1)
  }

  /** The + and − buttons keep a value in 1..99 there, moving it by one except at the ends, and
      bring any typed number back within one of those bounds. */
  lemma ClampsKeepRange(r: Reading)
    ensures InRange(r) ==> InRange(Incremented(r)) && InRange(Decremented(r))
    ensures InRange(r) && r.n < 99 ==> Incremented(r) == Num(r.n + 1)
    ensures InRange(r) && r.n > 1 ==> Decremented(r) == Num(r.n - 1)
    ensures r.Num? ==> Incremented(r).n <= 99 && Decremented(r).n >= 1
  {
  }

  /** `parseInt(input.value) || 1`: the parsed number, or 1 for `NaN` and for 0. */
  function GetModalQuantity(r: Reading): (q: int)
    ensures q != 0
    ensures r.Num? && r.n != 0 ==> q == r.n
    ensures r.NaN? ==> q == 1
  {
    match r
    case NaN => 1
    case Num(n) => if n == 0 then 1 else n
  }

  /** A number typed into the input reaches the cart unchanged, even a negative one. */
  lemma ModalQuantityCanBeNegative()
    ensures GetModalQuantity(Num(-3)) == -3
  {
  }

  /** The quantity within the bounds the input declares: values below 1 (and `NaN`) become 1,
      values above 99 become 99. */
  function ClampedModalQuantity(r: Reading): (q: int)
    ensures 1 <= q <= 99
    ensures 1 <= GetModalQuantity(r) <= 99 ==> q == GetModalQuantity(r)
  {
    match r
    case NaN => 1
    case Num(n) => if n < 1 then 1 else if n > 99 then 99 else n
  }

  /** The product modal's `#modalQuantity` input. */
  class QuantityInput {
    var value: Reading

    /** Rendered with `value="1"`. */
    constructor ()
      ensures value == Num(1)
    {
      value := Num(1);
    }

    method Increment()
      modifies this
      ensures value == Incremented(old(value))
    {
      value := Incremented(value);
    }

    method Decrement()
      modifies this
      ensures value == Decremented(old(value))
    {
      value := Decremented(value);
    }
  }

  /** `Math.round(popularityScore / 20)`: the nearest whole number of stars, halves rounded up. */
  function StarCount(score: int): (n: int)
    ensures 20 * n - 10 <= score < 20 * n + 10
  {
    (score + 10) / 20
  }

  /** Catalog scores 0..100 give 0 to 5 stars, and a higher score never gives fewer. */
  lemma StarsInRange(score: int, other: int)
    requires 0 <= score <= 100
    ensures 0 <= StarCount(score) <= 5
    ensures score <= other ==> StarCount(score) <= StarCount(other)
  {
  }
}
