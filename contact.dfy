/**
 * The contact form: required-field validation after trimming, the unanchored email
 * pattern `\S+@\S+\.\S+`, clearing a field's error on edit, and submission.
 */
module Contact {
  import opened Wrappers

  /**
   * JavaScript whitespace, the set both `String.prototype.trim` and the regular
   * expression class `\s` use (section 12.2 and 12.3 of ECMA-262).
   */
  predicate IsSpace(c: char) {
    c == ' ' || c == '\t' || c == '\n' || c == '\U{000B}' || c == '\U{000C}' || c == '\r'
    || c == '\U{00A0}' || c == '\U{1680}' || ('\U{2000}' <= c <= '\U{200A}')
    || c == '\U{2028}' || c == '\U{2029}' || c == '\U{202F}' || c == '\U{205F}'
    || c == '\U{3000}' || c == '\U{FEFF}'
  }

  /** Every character is whitespace (the empty string included). */
  ghost predicate Blank(s: string) {
    forall k :: 0 <= k < |s| ==> IsSpace(s[k])
  }

  /** Drops leading whitespace. */
  function TrimStart(s: string): (r: string)
    ensures |r| <= |s|
  {
    if |s| > 0 && IsSpace(s[0]) then TrimStart(s[1..]) else s
  }

  /** Drops trailing whitespace. */
  function TrimEnd(s: string): (r: string)
    ensures |r| <= |s|
  {
    if |s| > 0 && IsSpace(s[|s| - 1]) then TrimEnd(s[..|s| - 1]) else s
  }

  /** `s.trim()`. */
  function Trim(s: string): string {
    TrimEnd(TrimStart(s))
  }

  /** What `TrimStart` removes is all whitespace and what it keeps starts with none. */
  lemma {:induction false} TrimStartDropsLeadingSpace(s: string)
    ensures var r := TrimStart(s);
            && r == s[|s| - |r|..]
            && (r == [] || !IsSpace(r[0]))
            && forall k :: 0 <= k < |s| - |r| ==> IsSpace(s[k])
  {
    if |s| > 0 && IsSpace(s[0]) {
      TrimStartDropsLeadingSpace(s[1..]);
      var r := TrimStart(s);
      forall k | 0 <= k < |s| - |r|
        ensures IsSpace(s[k])
      {
        if k > 0 {
          assert s[k] == s[1..][k - 1];
        }
      }
    }
  }

  /** What `TrimEnd` removes is all whitespace and what it keeps ends with none. */
  lemma {:induction false} TrimEndDropsTrailingSpace(s: string)
    ensures var r := TrimEnd(s);
            && r == s[..|r|]
            && (r == [] || !IsSpace(r[|r| - 1]))
            && forall k :: |r| <= k < |s| ==> IsSpace(s[k])
  {
    if |s| > 0 && IsSpace(s[|s| - 1]) {
      TrimEndDropsTrailingSpace(s[..|s| - 1]);
      var r := TrimEnd(s);
      forall k | |r| <= k < |s|
        ensures IsSpace(s[k])
      {
        if k < |s| - 1 {
          assert s[k] == s[..|s| - 1][k];
        }
      }
    }
  }

  /** A field counts as missing exactly when it is nothing but whitespace. */
  lemma {:induction false} TrimEmptyIffBlank(s: string)
    ensures Trim(s) == [] <==> Blank(s)
  {
    var t := TrimStart(s);
    TrimStartDropsLeadingSpace(s);
    TrimEndDropsTrailingSpace(t);
    if Trim(s) == [] {
      assert TrimEnd(t) == [];
      assert t == [];
    } else {
      var r := Trim(s);
      assert r[0] == t[0];
      assert s[|s| - |t|] == t[0];
    }
  }

  /** A non-empty run of non-whitespace characters, what `\S+` matches. */
  predicate Word(x: string) {
    |x| > 0 && forall k :: 0 <= k < |x| ==> !IsSpace(x[k])
  }

  predicate OccursAt(s: string, lo: int, w: string) {
    0 <= lo && lo + |w| <= |s| && s[lo..lo + |w|] == w
  }

  /** The text `x@y.z`. */
  function Address(x: string, y: string, z: string): string {
    x + "@" + y + "." + z
  }

  /** The regular expression `\S+@\S+\.\S+` matches some substring of `s`. */
  ghost predicate PatternMatches(s: string) {
    exists x: string, y: string, z: string, lo: int ::
      Word(x) && Word(y) && Word(z) && OccursAt(s, lo, Address(x, y, z))
  }

  /**
   * The check the form runs: an '@' with a non-space before it, a '.' at least two
   * places later with a non-space after it, and no whitespace in between.
   */
  predicate EmailLooksValid(s: string) {
    exists at: int, dot: int | 0 < at && at + 1 < dot && dot + 1 < |s| ::
      s[at] == '@' && s[dot] == '.' && !HasSpaceIn(s, at - 1, dot + 2)
  }

  predicate HasSpaceIn(s: string, lo: int, hi: int)
    requires 0 <= lo <= hi <= |s|
  {
    exists k | lo <= k < hi :: IsSpace(s[k])
  }

  /** Where each character of `x@y.z` comes from. */
  lemma AddressAt(x: string, y: string, z: string, k: int)
    requires 0 <= k < |x| + |y| + |z| + 2
    ensures |Address(x, y, z)| == |x| + |y| + |z| + 2
    ensures k < |x| ==> Address(x, y, z)[k] == x[k]
    ensures k == |x| ==> Address(x, y, z)[k] == '@'
    ensures |x| < k < |x| + 1 + |y| ==> Address(x, y, z)[k] == y[k - |x| - 1]
    ensures k == |x| + 1 + |y| ==> Address(x, y, z)[k] == '.'
    ensures |x| + 1 + |y| < k ==> Address(x, y, z)[k] == z[k - |x| - |y| - 2]
  {
  }

  /** A window the form accepts spells out a match of the pattern. */
  lemma WindowIsMatch(s: string, at: int, dot: int)
    requires 0 < at && at + 1 < dot && dot + 1 < |s|
    requires s[at] == '@' && s[dot] == '.' && !HasSpaceIn(s, at - 1, dot + 2)
    ensures PatternMatches(s)
  {
    var x, y, z := s[at - 1..at], s[at + 1..dot], s[dot + 1..dot + 2];
    var w := Address(x, y, z);
    AddressAt(x, y, z, 0);
    assert Word(x) && Word(z);
    assert Word(y) by {
      forall k | 0 <= k < |y| ensures !IsSpace(y[k]) {
        assert y[k] == s[at + 1 + k];
      }
    }
    forall k | 0 <= k < |w|
      ensures s[at - 1 + k] == w[k]
    {
      AddressAt(x, y, z, k);
    }
    assert s[at - 1..dot + 2] == w;
    assert OccursAt(s, at - 1, w);
  }

  /** A match of the pattern contains a window the form accepts. */
  lemma MatchHasWindow(s: string, x: string, y: string, z: string, lo: int)
    requires Word(x) && Word(y) && Word(z) && OccursAt(s, lo, Address(x, y, z))
    ensures EmailLooksValid(s)
  {
    var w := Address(x, y, z);
    var at := lo + |x|;
    var dot := at + 1 + |y|;
    AddressAt(x, y, z, |x|);
    AddressAt(x, y, z, |x| + 1 + |y|);
    assert s[at] == w[at - lo];
    assert s[dot] == w[dot - lo];
    forall k | at - 1 <= k < dot + 2
      ensures !IsSpace(s[k])
    {
      assert s[k] == w[k - lo];
      AddressAt(x, y, z, k - lo);
    }
    assert !HasSpaceIn(s, at - 1, dot + 2);
  }

  /** The window check is exactly the regular expression's unanchored match. */
  lemma EmailCheckMatchesPattern(s: string)
    ensures EmailLooksValid(s) <==> PatternMatches(s)
  {
    if EmailLooksValid(s) {
      var at: int, dot: int :| 0 < at && at + 1 < dot && dot + 1 < |s| &&
        s[at] == '@' && s[dot] == '.' && !HasSpaceIn(s, at - 1, dot + 2);
      WindowIsMatch(s, at, dot);
    }
    if PatternMatches(s) {
      var x: string, y: string, z: string, lo: int :|
        Word(x) && Word(y) && Word(z) && OccursAt(s, lo, Address(x, y, z));
      MatchHasWindow(s, x, y, z, lo);
    }
  }

  /** The form's inputs that go through `handleChange`. */
  datatype Field = Name | Email | Phone | Subject | Message

  const NameRequired: string := "Name is required"
  const EmailRequired: string := "Email is required"
  const EmailInvalid: string := "Email is invalid"
  const MessageRequired: string := "Message is required"

  /** The name's error, if any. */
  function NameError(name: string): Option<string> {
    if Trim(name) == [] then Some(NameRequired) else None
  }

  /** The email's error, if any: required when blank, otherwise invalid if the check fails. */
  function EmailError(email: string): Option<string> {
    if Trim(email) == [] then Some(EmailRequired)
    else if !EmailLooksValid(email) then Some(EmailInvalid)
    else None
  }

  /** The message's error, if any. */
  function MessageError(message: string): Option<string> {
    if Trim(message) == [] then Some(MessageRequired) else None
  }

  /** Adds `key` to the map when there is an error for it. */
  function WithError(m: map<Field, string>, key: Field, e: Option<string>): map<Field, string> {
    if e.Some? then m[key := e.value] else m
  }

  /** The error map `validate` produces for the current name, email and message. */
  function ValidationErrors(name: string, email: string, message: string): (r: map<Field, string>)
    ensures r.Keys <= {Name, Email, Message}
  {
    WithError(WithError(WithError(map[], Name, NameError(name)), Email, EmailError(email)),
              Message, MessageError(message))
  }

  /**
   * Which fields get which message: name and message exactly when blank, the email
   * "required" when blank and "invalid" when the pattern matches nowhere in it.
   */
  lemma ValidationErrorsExactly(name: string, email: string, message: string)
    ensures var r := ValidationErrors(name, email, message);
            && (Name in r <==> Blank(name))
            && (Name in r ==> r[Name] == NameRequired)
            && (Email in r <==> Blank(email) || !PatternMatches(email))
            && (Email in r && Blank(email) ==> r[Email] == EmailRequired)
            && (Email in r && !Blank(email) ==> r[Email] == EmailInvalid)
            && (Message in r <==> Blank(message))
            && (Message in r ==> r[Message] == MessageRequired)
  {
    TrimEmptyIffBlank(name);
    TrimEmptyIffBlank(email);
    TrimEmptyIffBlank(message);
    EmailCheckMatchesPattern(email);
  }

  /** The form passes exactly when all three required fields are present and the email matches. */
  lemma PassesIffRequiredFieldsPresent(name: string, email: string, message: string)
    ensures ValidationErrors(name, email, message) == map[] <==>
            !Blank(name) && !Blank(email) && PatternMatches(email) && !Blank(message)
  {
    var r := ValidationErrors(name, email, message);
    ValidationErrorsExactly(name, email, message);
    if r != map[] {
      var f :| f in r;
      assert f == Name || f == Email || f == Message;
    } else {
      assert Name !in r && Email !in r && Message !in r;
    }
  }

  class ContactForm {
    var name: string
    var email: string
    var phone: string
    var subject: string
    var message: string
    /** The attached file, by name; none when nothing is attached. */
    var file: Option<string>
    var errors: map<Field, string>
    var submitSuccess: bool

    constructor ()
      ensures name == "" && email == "" && phone == "" && subject == "" && message == ""
      ensures file == None && errors == map[] && !submitSuccess
    {
      name, email, phone, subject, message := "", "", "", "", "";
      file := None;
      errors := map[];
      submitSuccess := false;
    }

    /** Builds the error map check by check; passes exactly when it is empty. */
    method Validate() returns (ok: bool)
      modifies this
      ensures errors == ValidationErrors(name, email, message)
      ensures ok <==> errors == map[]
      ensures name == old(name) && email == old(email) && phone == old(phone)
      ensures subject == old(subject) && message == old(message) && file == old(file)
      ensures submitSuccess == old(submitSuccess)
    {
      var newErrors: map<Field, string> := map[];
      if Trim(name) == [] {
        newErrors := newErrors[Name := NameRequired];
      }
      assert newErrors == WithError(map[], Name, NameError(name));
      ghost var afterName := newErrors;
      if Trim(email) == [] {
        newErrors := newErrors[Email := EmailRequired];
      } else if !EmailLooksValid(email) {
        newErrors := newErrors[Email := EmailInvalid];
      }
      assert newErrors == WithError(afterName, Email, EmailError(email));
      ghost var afterEmail := newErrors;
      if Trim(message) == [] {
        newErrors := newErrors[Message := MessageRequired];
      }
      assert newErrors == WithError(afterEmail, Message, MessageError(message));
      errors := newErrors;
      ok := |errors| == 0;
      assert ok <==> errors == map[] by {
        if |errors| == 0 {
          assert errors.Keys == {};
        }
      }
    }

    /** Stores the edited value; an error shown for that field is blanked, no other changes. */
    method HandleChange(field: Field, value: string)
      modifies this
      ensures field == Name ==> name == value
      ensures field != Name ==> name == old(name)
      ensures field == Email ==> email == value
      ensures field != Email ==> email == old(email)
      ensures field == Phone ==> phone == value
      ensures field != Phone ==> phone == old(phone)
      ensures field == Subject ==> subject == value
      ensures field != Subject ==> subject == old(subject)
      ensures field == Message ==> message == value
      ensures field != Message ==> message == old(message)
      ensures file == old(file) && submitSuccess == old(submitSuccess)
      ensures errors.Keys == old(errors).Keys
      ensures forall f :: f in errors && f != field ==> errors[f] == old(errors)[f]
      ensures field in errors ==> errors[field] == ""
    {
      match field {
        case Name => name := value;
        case Email => email := value;
        case Phone => phone := value;
        case Subject => subject := value;
        case Message => message := value;
      }
      if field in errors && errors[field] != "" {
        errors := errors[field := ""];
      }
    }

    /** Takes the first chosen file, if any; an empty choice leaves the old one. */
    method HandleFileChange(chosen: seq<string>)
      modifies this
      ensures |chosen| > 0 ==> file == Some(chosen[0])
      ensures |chosen| == 0 ==> file == old(file)
      ensures name == old(name) && email == old(email) && phone == old(phone)
      ensures subject == old(subject) && message == old(message)
      ensures errors == old(errors) && submitSuccess == old(submitSuccess)
    {
      if |chosen| > 0 {
        file := Some(chosen[0]);
      }
    }

    /** Submits only a valid form; a submitted form is cleared and shows its thank-you note. */
    method HandleSubmit() returns (sent: bool)
      modifies this
      ensures errors == ValidationErrors(old(name), old(email), old(message))
      ensures sent <==> errors == map[]
      ensures sent ==> submitSuccess && name == "" && email == "" && phone == ""
                       && subject == "" && message == "" && file == None
      ensures !sent ==> submitSuccess == old(submitSuccess) && name == old(name)
                        && email == old(email) && phone == old(phone)
                        && subject == old(subject) && message == old(message) && file == old(file)
    {
      sent := Validate();
      if !sent {
        return;
      }
      submitSuccess := true;
      name, email, phone, subject, message := "", "", "", "", "";
      file := None;
    }
  }
}
