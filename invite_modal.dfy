/** The invite dialog of the challenge pages: the email and phone validators (the two
    regular expressions of the component, written as checks on the string), the validation
    messages and the submit handler around the optional `onInvite` callback. */
module InviteModal {
  import opened Wrappers
  import opened Text
  import opened ApiErrors

  /** `[^\s@]`: one character of the email regex's three runs. */
  predicate EmailRunChar(c: char) {
    c != '@' && !IsWhitespace(c)
  }

  predicate EmailRun(s: string) {
    s != [] && forall k :: 0 <= k < |s| ==> EmailRunChar(s[k])
  }

  /** `/^[^\s@]+@[^\s@]+\.[^\s@]+$/.test(v)`, decided left to right: the part before the
      first `@` is a run, and the rest is a run holding a dot that is neither its first nor
      its last character. */
  function IsEmail(v: string): (r: bool)
    ensures r ==> |v| >= 5 && v[0] != '@' && v[|v| - 1] != '@'
  {
    var at := FindChar(v, '@');
    at.Some? && EmailRun(v[..at.value]) && EmailRun(v[at.value + 1..])
    && exists k :: at.value + 1 < k < |v| - 1 && v[k] == '.'
  }

  /** The index of the first `c` in `s`. */
  function FindChar(s: string, c: char): (r: Option<nat>)
    ensures r.None? <==> c !in s
    ensures r.Some? ==> r.value < |s| && s[r.value] == c && c !in s[..r.value]
  {
    if s == [] then None
    else if s[0] == c then Some(0)
    else
      var r := FindChar(s[1..], c);
      if r.None? then None
      else
        assert s[..r.value + 1] == [s[0]] + s[1..][..r.value];
        Some(r.value + 1)
  }

  /** `FindChar` finds the first occurrence. */
  lemma {:induction false} FindCharAt(s: string, c: char, i: nat)
    requires i < |s| && s[i] == c && c !in s[..i]
    ensures FindChar(s, c) == Some(i)
  {
    if i > 0 {
      assert s[0] == s[..i][0];
      assert s[1..][..i - 1] == s[1..i];
      assert forall m :: 0 <= m < i - 1 ==> s[1..i][m] == s[..i][m + 1];
      FindCharAt(s[1..], c, i - 1);
    }
  }

  /** The language of the email regex, stated as the regex reads: `v` is `a + "@" + b +
      "." + d` with `a`, `b` and `d` non-empty runs free of white space and `@`. */
  predicate EmailShape(v: string) {
    exists i, k :: 0 < i && i + 1 < k < |v| - 1 && v[i] == '@' && v[k] == '.'
                   && EmailRun(v[..i]) && EmailRun(v[i + 1..k]) && EmailRun(v[k + 1..])
  }

  /** A run's pieces are runs. */
  lemma EmailRunSlice(s: string, i: nat, j: nat)
    requires EmailRun(s) && i < j <= |s|
    ensures EmailRun(s[i..j])
  {
    forall m | 0 <= m < j - i ensures EmailRunChar(s[i..j][m]) {
      assert s[i..j][m] == s[i + m];
    }
  }

  /** What the check accepts is in the regex's language. */
  lemma IsEmailSound(v: string)
    requires IsEmail(v)
    ensures EmailShape(v)
  {
    var i := FindChar(v, '@').value;
    var k :| i + 1 < k < |v| - 1 && v[k] == '.';
    var rest := v[i + 1..];
    EmailRunSlice(rest, 0, k - i - 1);
    EmailRunSlice(rest, k - i, |rest|);
    assert v[i + 1..k] == rest[0..k - i - 1];
    assert v[k + 1..] == rest[k - i..|rest|];
  }

  /** Everything in the regex's language is accepted by the check. */
  lemma IsEmailComplete(v: string)
    requires EmailShape(v)
    ensures IsEmail(v)
  {
    var i, k :| 0 < i && i + 1 < k < |v| - 1 && v[i] == '@' && v[k] == '.'
                && EmailRun(v[..i]) && EmailRun(v[i + 1..k]) && EmailRun(v[k + 1..]);
    assert '@' !in v[..i] by {
      forall m | 0 <= m < i ensures v[..i][m] != '@' { assert EmailRunChar(v[..i][m]); }
    }
    FindCharAt(v, '@', i);
    var rest := v[i + 1..];
    forall m | 0 <= m < |rest| ensures EmailRunChar(rest[m]) {
      if i + 1 + m < k {
        assert rest[m] == v[i + 1..k][m];
      } else if i + 1 + m > k {
        assert rest[m] == v[k + 1..][m - (k - i)];
      }
    }
    assert FindChar(v, '@') == Some(i) && EmailRun(v[..i]) && EmailRun(rest);
    assert i + 1 < k < |v| - 1 && v[k] == '.';
  }

  /** The left-to-right check accepts exactly the strings of the regex's language. */
  lemma IsEmailIff(v: string)
    ensures IsEmail(v) <==> EmailShape(v)
  {
    if IsEmail(v) { IsEmailSound(v); }
    if EmailShape(v) { IsEmailComplete(v); }
  }

  /** An accepted email has exactly one `@`, and no white space at all. */
  lemma EmailHasOneAt(v: string)
    requires IsEmail(v)
    ensures exists i :: 0 <= i < |v| && v[i] == '@' && forall j :: 0 <= j < |v| && j != i ==> v[j] != '@'
    ensures forall j :: 0 <= j < |v| ==> !IsWhitespace(v[j])
  {
    var i := FindChar(v, '@').value;
    forall j | 0 <= j < |v| && j != i ensures v[j] != '@' && !IsWhitespace(v[j]) {
      if j < i {
        assert v[..i][j] == v[j];
      } else {
        assert v[i + 1..][j - i - 1] == v[j];
      }
    }
  }

  /** Any three runs joined as `a@b.d` form an accepted address. */
  lemma EmailOfParts(a: string, b: string, d: string)
    requires EmailRun(a) && EmailRun(b) && EmailRun(d)
    ensures IsEmail(a + "@" + b + "." + d)
  {
    var v := a + "@" + b + "." + d;
    var i, k := |a|, |a| + 1 + |b|;
    assert v[..i] == a && v[i + 1..k] == b && v[k + 1..] == d;
    assert v[i] == '@' && v[k] == '.';
    IsEmailComplete(v);
  }

  /** An address holding two `@` is refused. */
  lemma EmailRefusesTwoAts(v: string, i: nat, j: nat)
    requires i < j < |v| && v[i] == '@' && v[j] == '@'
    ensures !IsEmail(v)
  {
    if IsEmail(v) {
      EmailHasOneAt(v);
    }
  }

  /** An address starting with `@` (an empty local part) is refused. */
  lemma EmailNeedsLocalPart(v: string)
    requires |v| > 0 && v[0] == '@'
    ensures !IsEmail(v)
  {
    if IsEmail(v) {
      IsEmailSound(v);
    }
  }

  /** `\d{lo,hi}`. */
  predicate DigitRun(s: string, lo: nat, hi: nat) {
    lo <= |s| <= hi && forall k :: 0 <= k < |s| ==> IsDigit(s[k])
  }

  /** `[- ]?`. */
  predicate OptSeparator(s: string) {
    s == "" || s == "-" || s == " "
  }

  /** `(?:\+?\d{1,3}[- ]?)?`: the optional country code. */
  predicate CountryCode(s: string) {
    s == "" || exists a, b :: 0 <= a <= 1 && a <= b <= |s| && (a == 1 ==> s[0] == '+')
                              && DigitRun(s[a..b], 1, 3) && OptSeparator(s[b..])
  }

  /** `(?:\(?\d{2,4}\)?[- ]?)?`: the optional area code; each parenthesis is optional on
      its own. */
  predicate AreaCode(s: string) {
    s == "" || exists a, b, c :: 0 <= a <= 1 && a <= b <= c <= |s| && c <= b + 1
                                 && (a == 1 ==> s[0] == '(') && DigitRun(s[a..b], 2, 4)
                                 && (c == b + 1 ==> s[b] == ')') && OptSeparator(s[c..])
  }

  /** `\d{3,4}[- ]?\d{3,4}`: the subscriber number. */
  predicate Subscriber(s: string) {
    exists a, b :: 0 <= a <= b <= |s| && b <= a + 1 && DigitRun(s[..a], 3, 4)
                   && OptSeparator(s[a..b]) && DigitRun(s[b..], 3, 4)
  }

  /** `/^(?:\+?\d{1,3}[- ]?)?(?:\(?\d{2,4}\)?[- ]?)?\d{3,4}[- ]?\d{3,4}$/.test(v)`: `v` splits
      into a country code, an area code and a subscriber number. */
  function IsPhone(v: string): (r: bool)
    ensures r ==> 6 <= |v| <= 21
  {
    var r := exists i, j :: 0 <= i <= j <= |v| && CountryCode(v[..i]) && AreaCode(v[i..j]) && Subscriber(v[j..]);
    assert r ==> 6 <= |v| <= 21 by {
      if r {
        var i, j :| 0 <= i <= j <= |v| && CountryCode(v[..i]) && AreaCode(v[i..j]) && Subscriber(v[j..]);
        PartsLength(v[..i], v[i..j], v[j..]);
        assert v == v[..i] + v[i..j] + v[j..];
      }
    }
    r
  }

  /** The lengths the three parts of the phone pattern allow: 0 to 5, 0 to 7 and 6 to 9. */
  lemma PartsLength(c: string, d: string, s: string)
    requires CountryCode(c) && AreaCode(d) && Subscriber(s)
    ensures |c| <= 5 && |d| <= 7 && 6 <= |s| <= 9
  {
    var a, b :| 0 <= a <= b <= |s| && b <= a + 1 && DigitRun(s[..a], 3, 4)
                && OptSeparator(s[a..b]) && DigitRun(s[b..], 3, 4);
    if c != "" {
      var a1, b1 :| 0 <= a1 <= 1 && a1 <= b1 <= |c| && (a1 == 1 ==> c[0] == '+')
                    && DigitRun(c[a1..b1], 1, 3) && OptSeparator(c[b1..]);
    }
    if d != "" {
      var a2, b2, c2 :| 0 <= a2 <= 1 && a2 <= b2 <= c2 <= |d| && c2 <= b2 + 1
                        && (a2 == 1 ==> d[0] == '(') && DigitRun(d[a2..b2], 2, 4)
                        && (c2 == b2 + 1 ==> d[b2] == ')') && OptSeparator(d[c2..]);
    }
  }

  /** A plain local number and one with a country code and an area code are accepted. */
  lemma PhoneExamples()
    ensures IsPhone("5551234")
    ensures IsPhone("+1 555 123 4567")
  {
    var s := "5551234";
    assert s[..3] == "555" && DigitRun(s[..3], 3, 4);
    assert s[3..3] == "" && OptSeparator(s[3..3]);
    assert s[3..] == "1234" && DigitRun(s[3..], 3, 4);
    assert Subscriber(s);
    assert s[..0] == "" && s[0..0] == "" && s[0..] == s;
    assert CountryCode(s[..0]) && AreaCode(s[0..0]) && Subscriber(s[0..]);
    var t := "+1 555 123 4567";
    var c := t[..3];
    assert c == "+1 " && c[0] == '+';
    assert c[1..2] == "1" && DigitRun(c[1..2], 1, 3);
    assert c[2..] == " " && OptSeparator(c[2..]);
    assert CountryCode(c);
    var d := t[3..7];
    assert d == "555 ";
    assert d[0..3] == "555" && DigitRun(d[0..3], 2, 4);
    assert d[3..] == " " && OptSeparator(d[3..]);
    assert AreaCode(d);
    var u := t[7..];
    assert u == "123 4567";
    assert u[..3] == "123" && DigitRun(u[..3], 3, 4);
    assert u[3..4] == " " && OptSeparator(u[3..4]);
    assert u[4..] == "4567" && DigitRun(u[4..], 3, 4);
    assert Subscriber(u);
    assert CountryCode(t[..3]) && AreaCode(t[3..7]) && Subscriber(t[7..]);
  }

  datatype InviteMethod = ByEmail | ByPhone

  const EmailRequired := "Email is required."
  const InvalidEmail := "Please enter a valid email address."
  const PhoneRequired := "Phone number is required."
  const InvalidPhone := "Please enter a valid phone number (you can include country code)."
  const SendFailed := "Failed to send invitation. Please try again."

  /** `validate()`: the message for the active method's trimmed input, or `None`. */
  function Validate(inviteMethod: InviteMethod, email: string, phone: string): (r: Option<string>)
    ensures inviteMethod == ByEmail ==>
              && (Trim(email) == "" <==> r == Some(EmailRequired))
              && (r == Some(InvalidEmail) <==> Trim(email) != "" && !IsEmail(Trim(email)))
              && (r.None? <==> IsEmail(Trim(email)))
    ensures inviteMethod == ByPhone ==>
              && (Trim(phone) == "" <==> r == Some(PhoneRequired))
              && (r == Some(InvalidPhone) <==> Trim(phone) != "" && !IsPhone(Trim(phone)))
              && (r.None? <==> Trim(phone) != "" && IsPhone(Trim(phone)))
  {
    match inviteMethod
    case ByEmail =>
      var v := Trim(email);
      if v == "" then Some(EmailRequired) else if !IsEmail(v) then Some(InvalidEmail) else None
    case ByPhone =>
      var v := Trim(phone);
      if v == "" then Some(PhoneRequired) else if !IsPhone(v) then Some(InvalidPhone) else None
  }

  /** `{ challengeId, method, value }` passed to `onInvite`. */
  datatype InvitePayload = InvitePayload(challengeId: Option<int>, inviteMethod: InviteMethod, value: string)

  /** The success text of a sent invitation. */
  function SuccessMessage(inviteMethod: InviteMethod, value: string): (r: string)
    ensures inviteMethod == ByEmail ==> r == "Invitation sent to " + value + "."
    ensures inviteMethod == ByPhone ==> r == "Invitation SMS sent to " + value + "."
  {
    if inviteMethod == ByEmail then "Invitation sent to " + value + "." else "Invitation SMS sent to " + value + "."
  }

  /** The dialog state. */
  class InviteUserModal {
    var inviteMethod: InviteMethod
    var email: string
    var phone: string
    var isLoading: bool
    var error: Option<string>
    var success: Option<string>

    constructor ()
      ensures inviteMethod == ByEmail && email == "" && phone == ""
      ensures !isLoading && error.None? && success.None?
    {
      inviteMethod, email, phone := ByEmail, "", "";
      isLoading, error, success := false, None, None;
    }

    /** The trimmed input of the active method. */
    function ActiveValue(): (r: string)
      reads this
      ensures NoWhitespaceEnds(r)
    {
      if inviteMethod == ByEmail then Trim(email) else Trim(phone)
    }

    /** `handleSubmit`: `onInvite` is `None` when the prop is absent, and otherwise how the
        awaited callback settles. Returns the payload passed to it, if it was called. */
    method HandleSubmit(challengeId: Option<int>, onInvite: Option<Call<()>>) returns (sent: Option<InvitePayload>)
      modifies this`isLoading, this`error, this`success
      ensures var refusal := Validate(inviteMethod, email, phone);
              && (refusal.Some? ==> (sent.None? && error == refusal && success.None?
                                     && isLoading == old(isLoading)))
              && (refusal.None? ==> (!isLoading
                                     && (onInvite.Some? <==> sent == Some(InvitePayload(challengeId, inviteMethod, ActiveValue())))
                                     && (onInvite.None? ==> sent.None?)))
      ensures sent.Some? ==> sent.value.value != "" && NoWhitespaceEnds(sent.value.value)
      ensures Validate(inviteMethod, email, phone).None? && (onInvite.None? || onInvite.value.Resolved?) ==>
                success == Some(SuccessMessage(inviteMethod, ActiveValue())) && error.None?
      ensures Validate(inviteMethod, email, phone).None? && onInvite.Some? && onInvite.value.Rejected? ==>
                success.None? && error == Some(MessageFieldOr(onInvite.value.error, SendFailed))
    {
      error, success, sent := None, None, None;
      var validationError := Validate(inviteMethod, email, phone);
      if validationError.Some? {
        error := validationError;
        return;
      }
      var value := if inviteMethod == ByEmail then Trim(email) else Trim(phone);
      isLoading := true;
      if onInvite.Some? {
        sent := Some(InvitePayload(challengeId, inviteMethod, value));
      }
      if onInvite.Some? && onInvite.value.Rejected? {
        error := Some(MessageFieldOr(onInvite.value.error, SendFailed));
      } else {
        success := Some(SuccessMessage(inviteMethod, value));
      }
      isLoading := false;
    }
  }
}
