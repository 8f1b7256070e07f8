/**
 * The new-task form of the frontend: the phone-number formatter, the field validation
 * with its two regular expressions, and the input handler.
 */
module NewTaskForm {
  import opened Basics
  import opened Text

  // ----- Phone formatting -----

  /** `value.replace(/\D/g, "")`: the ASCII digits of `s`, in order. */
  function DigitsOf(s: string): (d: string)
    ensures |d| <= |s| && AllDigits(d)
    ensures AllDigits(s) ==> d == s
  {
    if s == [] then []
    else (if IsDigit(s[0]) then [s[0]] else []) + DigitsOf(s[1..])
  }

  lemma {:induction false} DigitsOfAppend(a: string, b: string)
    ensures DigitsOf(a + b) == DigitsOf(a) + DigitsOf(b)
  {
    if a == [] {
      assert a + b == b;
    } else {
      assert (a + b)[1..] == a[1..] + b;
      DigitsOfAppend(a[1..], b);
    }
  }

  function Min(a: int, b: int): int { if a <= b then a else b }

  /** The layout of a digit string: "(ddd) ddd-dddd", filled as far as the digits go. */
  function Layout(d: string): (r: string)
    requires AllDigits(d)
  {
    if |d| >= 6 then "(" + d[..3] + ") " + d[3..6] + "-" + d[6..Min(|d|, 10)]
    else if |d| >= 3 then "(" + d[..3] + ") " + d[3..]
    else d
  }

  /**
   * `formatPhoneNumber`: the layout of the value's digits. It keeps the first ten
   * digits, in order, and is never longer than the field's 14-character limit.
   */
  function FormatPhone(value: string): (r: string)
    ensures DigitsOf(r) == DigitsOf(value)[..Min(|DigitsOf(value)|, 10)]
    ensures |r| <= 14
  {
    var d := DigitsOf(value);
    LayoutDigits(d);
    Layout(d)
  }

  /** The digits of a layout are the first ten digits laid out. */
  lemma LayoutDigits(d: string)
    requires AllDigits(d)
    ensures DigitsOf(Layout(d)) == d[..Min(|d|, 10)]
    ensures |Layout(d)| <= 14
  {
    if |d| >= 6 {
      var a, b, c := d[..3], d[3..6], d[6..Min(|d|, 10)];
      DigitsOfFullLayout(a, b, c);
      assert d[..Min(|d|, 10)] == a + b + c;
    } else if |d| >= 3 {
      var a, b := d[..3], d[3..];
      DigitsOfPartLayout(a, b);
      assert d == a + b;
    }
  }

  lemma DigitsOfPunctuation()
    ensures DigitsOf("(") == [] && DigitsOf(") ") == [] && DigitsOf("-") == []
  {
    assert DigitsOf(") "[1..]) == [];
  }

  lemma DigitsOfFullLayout(a: string, b: string, c: string)
    requires AllDigits(a) && AllDigits(b) && AllDigits(c)
    ensures DigitsOf("(" + a + ") " + b + "-" + c) == a + b + c
  {
    var head := "(" + a + ") " + b;
    DigitsOfPartLayout(a, b);
    DigitsOfPunctuation();
    DigitsOfAppend(head, "-");
    assert DigitsOf(head + "-") == a + b;
    DigitsOfAppend(head + "-", c);
    assert DigitsOf(c) == c;
  }

  lemma DigitsOfPartLayout(a: string, b: string)
    requires AllDigits(a) && AllDigits(b)
    ensures DigitsOf("(" + a + ") " + b) == a + b
  {
    var x1 := "(" + a;
    var x2 := x1 + ") ";
    DigitsOfPunctuation();
    DigitsOfAppend("(", a);
    assert DigitsOf(x1) == a;
    DigitsOfAppend(x1, ") ");
    assert DigitsOf(x2) == a;
    DigitsOfAppend(x2, b);
    assert DigitsOf(b) == b;
  }

  /** The layout reads only the first ten digits. */
  lemma LayoutFirstTen(d: string)
    requires AllDigits(d)
    ensures Layout(d[..Min(|d|, 10)]) == Layout(d)
  {
    var e := d[..Min(|d|, 10)];
    if |d| >= 6 {
      assert e[..3] == d[..3] && e[3..6] == d[3..6] && e[6..Min(|e|, 10)] == d[6..Min(|d|, 10)];
    } else {
      assert e == d;
    }
  }

  /** Formatting formatted output changes nothing. */
  lemma FormatPhoneIdempotent(value: string)
    ensures FormatPhone(FormatPhone(value)) == FormatPhone(value)
  {
    var d := DigitsOf(value);
    LayoutFirstTen(d);
  }

  // ----- Regular expressions -----

  /** The pieces of an anchored regular expression without alternation or repetition. */
  datatype Token = AtStart | AtEnd | Digits(count: nat) | Char(c: char) | Space

  /** Whether `p` matches `s` from position `i` on. */
  function MatchAt(p: seq<Token>, s: string, i: nat): bool
    requires i <= |s|
    decreases |p|
  {
    if p == [] then true
    else match p[0]
      case AtStart => i == 0 && MatchAt(p[1..], s, i)
      case AtEnd => i == |s| && MatchAt(p[1..], s, i)
      case Digits(n) => i + n <= |s| && AllDigits(s[i..i + n]) && MatchAt(p[1..], s, i + n)
      case Char(c) => i < |s| && s[i] == c && MatchAt(p[1..], s, i + 1)
      case Space => i < |s| && IsSpace(s[i]) && MatchAt(p[1..], s, i + 1)
  }

  /** `RegExp.prototype.test`: a match starting anywhere. */
  predicate Test(p: seq<Token>, s: string) {
    exists i :: 0 <= i <= |s| && MatchAt(p, s, i)
  }

  /** The phone pattern as written: `^`, two end anchors, three digits, two end anchors, … */
  const PHONE_AS_WRITTEN: seq<Token> :=
    [AtStart, AtEnd, AtEnd, Digits(3), AtEnd, AtEnd, Space, Digits(3), Char('-'), Digits(4), AtEnd]

  /** The phone pattern the message describes: "(555) 123-4567". */
  const PHONE_INTENDED: seq<Token> :=
    [AtStart, Char('('), Digits(3), Char(')'), Space, Digits(3), Char('-'), Digits(4), AtEnd]

  /** An end anchor followed by digits never matches: the digits would lie past the end. */
  lemma EndBeforeDigits(q: seq<Token>, s: string, i: nat)
    requires i <= |s|
    ensures !MatchAt([AtEnd, Digits(3)] + q, s, i)
  {
    var p := [AtEnd, Digits(3)] + q;
    assert p[1..] == [Digits(3)] + q;
  }

  /** No string matches the phone pattern as written: an end anchor precedes three digits. */
  lemma PhoneAsWrittenNeverMatches(s: string)
    ensures !Test(PHONE_AS_WRITTEN, s)
  {
    var p := PHONE_AS_WRITTEN;
    var q := p[4..];
    assert p[1..] == [AtEnd] + ([AtEnd, Digits(3)] + q);
    assert p[2..] == [AtEnd, Digits(3)] + q;
    forall i | 0 <= i <= |s| ensures !MatchAt(p, s, i) {
      EndBeforeDigits(q, s, i);
    }
  }

  /** A fourteen-character string laid out as "(ddd) ddd-dddd" matches the intended pattern. */
  lemma MatchesIntended(s: string)
    requires |s| == 14 && s[0] == '(' && s[4] == ')' && IsSpace(s[5]) && s[9] == '-'
    requires AllDigits(s[1..4]) && AllDigits(s[6..9]) && AllDigits(s[10..14])
    ensures MatchAt(PHONE_INTENDED, s, 0)
  {
    var p := PHONE_INTENDED;
    assert MatchAt(p[8..], s, 14);
    assert MatchAt(p[7..], s, 10);
    assert MatchAt(p[6..], s, 9);
    assert MatchAt(p[5..], s, 6);
    MatchesIntendedHead(s);
  }

  lemma MatchesIntendedHead(s: string)
    requires |s| == 14 && s[0] == '(' && s[4] == ')' && IsSpace(s[5]) && AllDigits(s[1..4])
    requires MatchAt(PHONE_INTENDED[5..], s, 6)
    ensures MatchAt(PHONE_INTENDED, s, 0)
  {
    var p := PHONE_INTENDED;
    assert MatchAt(p[4..], s, 5);
    assert MatchAt(p[3..], s, 4);
    assert MatchAt(p[2..], s, 1);
    assert MatchAt(p[1..], s, 0);
  }

  /** With ten digits or more the layout is complete. */
  lemma LayoutComplete(d: string)
    requires AllDigits(d) && |d| >= 10
    ensures var s := Layout(d);
      && |s| == 14 && s[0] == '(' && s[4] == ')' && s[5] == ' ' && s[9] == '-'
      && s[1..4] == d[..3] && s[6..9] == d[3..6] && s[10..14] == d[6..10]
      && AllDigits(s[1..4]) && AllDigits(s[6..9]) && AllDigits(s[10..14])
  {
    var a, b, c := d[..3], d[3..6], d[6..10];
    var s := Layout(d);
    assert s == "(" + a + ") " + b + "-" + c;
    DigitsSlice(d, 0, 3);
    DigitsSlice(d, 3, 6);
    DigitsSlice(d, 6, 10);
  }

  lemma DigitsSlice(d: string, i: nat, j: nat)
    requires AllDigits(d) && i <= j <= |d|
    ensures AllDigits(d[i..j])
  {
    assert forall k :: 0 <= k < j - i ==> d[i..j][k] == d[i + k];
  }

  /** Any input carrying at least ten digits formats into a match of the intended pattern. */
  lemma FormattedPhoneMatchesIntended(value: string)
    requires |DigitsOf(value)| >= 10
    ensures Test(PHONE_INTENDED, FormatPhone(value))
  {
    var d := DigitsOf(value);
    var s := FormatPhone(value);
    LayoutComplete(d);
    MatchesIntended(s);
  }

  /**
   * The email pattern `^[^\s@]+@[^\s@]+\.[^\s@]+$`: no white space, exactly one `@`
   * with text before it, and a dot after it with text on both sides.
   */
  predicate ValidEmail(s: string) {
    && (forall k :: 0 <= k < |s| ==> !IsSpace(s[k]))
    && exists i, j ::
      && 0 < i && i + 1 < j < |s| - 1 && s[i] == '@' && s[j] == '.'
      && forall k :: 0 <= k < |s| && k != i ==> s[k] != '@'
  }

  // ----- Validation -----

  datatype Field =
    | CustomerName | PhoneNumber | Email | LaptopMake | LaptopModel
    | SerialNumber | IssueDescription | UrgencyLevel | CurrentLocation

  datatype FormData = FormData(
    customerName: string, phoneNumber: string, email: string, laptopMake: string,
    laptopModel: string, serialNumber: string, issueDescription: string,
    urgencyLevel: string, currentLocation: string)
  {
    function Get(field: Field): string {
      match field
      case CustomerName => customerName
      case PhoneNumber => phoneNumber
      case Email => email
      case LaptopMake => laptopMake
      case LaptopModel => laptopModel
      case SerialNumber => serialNumber
      case IssueDescription => issueDescription
      case UrgencyLevel => urgencyLevel
      case CurrentLocation => currentLocation
    }

    /** `{...prev, [field]: value}`: that field set, every other field kept. */
    function Set(field: Field, value: string): (f: FormData)
      ensures f.Get(field) == value
      ensures forall g :: g != field ==> f.Get(g) == Get(g)
    {
      match field
      case CustomerName => this.(customerName := value)
      case PhoneNumber => this.(phoneNumber := value)
      case Email => this.(email := value)
      case LaptopMake => this.(laptopMake := value)
      case LaptopModel => this.(laptopModel := value)
      case SerialNumber => this.(serialNumber := value)
      case IssueDescription => this.(issueDescription := value)
      case UrgencyLevel => this.(urgencyLevel := value)
      case CurrentLocation => this.(currentLocation := value)
    }
  }

  const MIN_DESCRIPTION: nat := 10

  /** The messages `validateForm` records. */
  datatype Message =
    | NameRequired | PhoneRequired | PhoneFormat | EmailInvalid | SerialRequired
    | DescriptionRequired | DescriptionShort | UrgencyRequired | LocationRequired
  {
    function Text(): string {
      match this
      case NameRequired => "Customer name is required"
      case PhoneRequired => "Phone number is required"
      case PhoneFormat => "Phone number must be in format (555) 123-4567"
      case EmailInvalid => "Please enter a valid email address"
      case SerialRequired => "Laptop serial number is required"
      case DescriptionRequired => "Issue description is required"
      case DescriptionShort => "Issue description must be at least 10 characters"
      case UrgencyRequired => "Please select an urgency level"
      case LocationRequired => "Please select a current location"
    }
  }

  /** The outcome of every test `validateForm` makes, computed once. */
  datatype Checks = Checks(
    nameBlank: bool, phoneBlank: bool, phoneMatches: bool, emailBlank: bool, emailValid: bool,
    serialBlank: bool, descriptionBlank: bool, descriptionShort: bool,
    urgencyEmpty: bool, locationEmpty: bool)

  function ChecksOf(f: FormData, phone: seq<Token>): Checks {
    Checks(
      Trim(f.customerName) == [], Trim(f.phoneNumber) == [], Test(phone, f.phoneNumber),
      Trim(f.email) == [], ValidEmail(f.email), Trim(f.serialNumber) == [],
      Trim(f.issueDescription) == [], |Trim(f.issueDescription)| < MIN_DESCRIPTION,
      f.urgencyLevel == [], f.currentLocation == [])
  }

  /** The `FormErrors` object: at most one message per field. */
  datatype FormErrors = FormErrors(
    customerName: Option<Message>, phoneNumber: Option<Message>, email: Option<Message>,
    laptopMake: Option<Message>, laptopModel: Option<Message>, serialNumber: Option<Message>,
    issueDescription: Option<Message>, urgencyLevel: Option<Message>, currentLocation: Option<Message>)
  {
    function Get(field: Field): Option<Message> {
      match field
      case CustomerName => customerName
      case PhoneNumber => phoneNumber
      case Email => email
      case LaptopMake => laptopMake
      case LaptopModel => laptopModel
      case SerialNumber => serialNumber
      case IssueDescription => issueDescription
      case UrgencyLevel => urgencyLevel
      case CurrentLocation => currentLocation
    }

    /** `{...prev, [field]: undefined}`: that field's message gone, every other kept. */
    function Clear(field: Field): (e: FormErrors)
      ensures e.Get(field).None?
      ensures forall g :: g != field ==> e.Get(g) == Get(g)
    {
      match field
      case CustomerName => this.(customerName := None)
      case PhoneNumber => this.(phoneNumber := None)
      case Email => this.(email := None)
      case LaptopMake => this.(laptopMake := None)
      case LaptopModel => this.(laptopModel := None)
      case SerialNumber => this.(serialNumber := None)
      case IssueDescription => this.(issueDescription := None)
      case UrgencyLevel => this.(urgencyLevel := None)
      case CurrentLocation => this.(currentLocation := None)
    }

    /** `Object.keys(errors).length === 0`, for an object built by `validateForm`. */
    predicate Empty() {
      && customerName.None? && phoneNumber.None? && email.None? && laptopMake.None? && laptopModel.None?
      && serialNumber.None? && issueDescription.None? && urgencyLevel.None? && currentLocation.None?
    }
  }

  const NO_ERRORS: FormErrors := FormErrors(None, None, None, None, None, None, None, None, None)

  /**
   * The errors `validateForm` records from the outcome of its tests: each field is in
   * error exactly when its rule fails, make and model never are, and the form passes
   * exactly when every rule holds.
   */
  function ErrorsOf(c: Checks): (e: FormErrors)
    ensures e.customerName.Some? <==> c.nameBlank
    ensures e.phoneNumber.Some? <==> c.phoneBlank || !c.phoneMatches
    ensures e.email.Some? <==> !c.emailBlank && !c.emailValid
    ensures e.serialNumber.Some? <==> c.serialBlank
    ensures e.issueDescription.Some? <==> c.descriptionBlank || c.descriptionShort
    ensures e.urgencyLevel.Some? <==> c.urgencyEmpty
    ensures e.currentLocation.Some? <==> c.locationEmpty
    ensures e.laptopMake.None? && e.laptopModel.None?
    ensures e.issueDescription.Some? ==>
      e.issueDescription.value == if c.descriptionBlank then DescriptionRequired else DescriptionShort
    ensures e.phoneNumber.Some? ==> e.phoneNumber.value == if c.phoneBlank then PhoneRequired else PhoneFormat
    ensures e.Empty() <==>
      && !c.nameBlank && !c.phoneBlank && c.phoneMatches && (c.emailBlank || c.emailValid)
      && !c.serialBlank && !c.descriptionBlank && !c.descriptionShort && !c.urgencyEmpty && !c.locationEmpty
  {
    FormErrors(
      Flag(c.nameBlank, NameRequired),
      Flag(c.phoneBlank, PhoneRequired).Or(Flag(!c.phoneMatches, PhoneFormat)),
      Flag(!c.emailBlank && !c.emailValid, EmailInvalid),
      None,
      None,
      Flag(c.serialBlank, SerialRequired),
      Flag(c.descriptionBlank, DescriptionRequired).Or(Flag(c.descriptionShort, DescriptionShort)),
      Flag(c.urgencyEmpty, UrgencyRequired),
      Flag(c.locationEmpty, LocationRequired))
  }

  lemma UnfoldErrorsOf(c: Checks)
    ensures ErrorsOf(c) == FormErrors(
      Flag(c.nameBlank, NameRequired),
      Flag(c.phoneBlank, PhoneRequired).Or(Flag(!c.phoneMatches, PhoneFormat)),
      Flag(!c.emailBlank && !c.emailValid, EmailInvalid),
      None, None,
      Flag(c.serialBlank, SerialRequired),
      Flag(c.descriptionBlank, DescriptionRequired).Or(Flag(c.descriptionShort, DescriptionShort)),
      Flag(c.urgencyEmpty, UrgencyRequired),
      Flag(c.locationEmpty, LocationRequired))
  {
  }

  /** A rule's message when it fails. */
  function Flag(fails: bool, m: Message): (r: Option<Message>)
    ensures r.Some? <==> fails
    ensures r.Some? ==> r.value == m
  {
    if fails then Some(m) else None
  }

  /** As written, every form is refused: the phone field is always in error. */
  lemma AsWrittenRejectsEveryForm(f: FormData)
    ensures ErrorsOf(ChecksOf(f, PHONE_AS_WRITTEN)).phoneNumber.Some?
    ensures !ErrorsOf(ChecksOf(f, PHONE_AS_WRITTEN)).Empty()
  {
    PhoneAsWrittenNeverMatches(f.phoneNumber);
  }

  /** With the intended pattern a phone that went through the formatter with ten digits passes. */
  lemma IntendedAcceptsFormattedPhone(f: FormData, typed: string)
    requires |DigitsOf(typed)| >= 10 && f.phoneNumber == FormatPhone(typed)
    ensures ErrorsOf(ChecksOf(f, PHONE_INTENDED)).phoneNumber.None?
  {
    FormattedPhoneMatchesIntended(typed);
    var s := f.phoneNumber;
    assert s[0] == '(' && !IsSpace(s[0]);
    assert Trim(s) != [] by {
      TrimEmpty(s);
    }
  }

  /** The successive recording of `validateForm`, one rule after the other. */
  method RecordErrors(c: Checks) returns (e: FormErrors)
    ensures e == ErrorsOf(c)
  {
    var name := Flag(c.nameBlank, NameRequired);
    var phone := Flag(c.phoneBlank, PhoneRequired).Or(Flag(!c.phoneMatches, PhoneFormat));
    var email := Flag(!c.emailBlank && !c.emailValid, EmailInvalid);
    var serial := Flag(c.serialBlank, SerialRequired);
    var description := Flag(c.descriptionBlank, DescriptionRequired).Or(Flag(c.descriptionShort, DescriptionShort));
    var urgency := Flag(c.urgencyEmpty, UrgencyRequired);
    e := NO_ERRORS;
    if c.nameBlank {
      e := e.(customerName := Some(NameRequired));
    }
    assert e == FormErrors(name, None, None, None, None, None, None, None, None);
    if c.phoneBlank {
      e := e.(phoneNumber := Some(PhoneRequired));
    } else if !c.phoneMatches {
      e := e.(phoneNumber := Some(PhoneFormat));
    }
    assert e == FormErrors(name, phone, None, None, None, None, None, None, None);
    if !c.emailBlank && !c.emailValid {
      e := e.(email := Some(EmailInvalid));
    }
    assert e == FormErrors(name, phone, email, None, None, None, None, None, None);
    if c.serialBlank {
      e := e.(serialNumber := Some(SerialRequired));
    }
    assert e == FormErrors(name, phone, email, None, None, serial, None, None, None);
    if c.descriptionBlank {
      e := e.(issueDescription := Some(DescriptionRequired));
    } else if c.descriptionShort {
      e := e.(issueDescription := Some(DescriptionShort));
    }
    assert e == FormErrors(name, phone, email, None, None, serial, description, None, None);
    if c.urgencyEmpty {
      e := e.(urgencyLevel := Some(UrgencyRequired));
    }
    assert e == FormErrors(name, phone, email, None, None, serial, description, urgency, None);
    if c.locationEmpty {
      e := e.(currentLocation := Some(LocationRequired));
    }
    UnfoldErrorsOf(c);
  }

  /** The form's state: the field values and the errors shown under them. */
  class FormState {
    var form: FormData
    var errors: FormErrors

    constructor ()
      ensures form == FormData("", "", "", "", "", "", "", "", "front-desk-intake") && errors == NO_ERRORS
    {
      form := FormData("", "", "", "", "", "", "", "", "front-desk-intake");
      errors := NO_ERRORS;
    }

    /**
     * `validateForm`: every test evaluated, the errors recorded afresh, and the form
     * valid exactly when none was.
     */
    method ValidateForm(phone: seq<Token>) returns (ok: bool)
      modifies this
      ensures form == old(form) && errors == ErrorsOf(ChecksOf(form, phone))
      ensures ok <==> errors.Empty()
    {
      errors := RecordErrors(ChecksOf(form, phone));
      ok := errors.Empty();
    }

    /**
     * `handleInputChange`: the field takes the value (a phone number formatted first)
     * and only that field's error is cleared.
     */
    method HandleInputChange(field: Field, value: string)
      modifies this
      ensures form == old(form).Set(field, if field == PhoneNumber then FormatPhone(value) else value)
      ensures errors == old(errors).Clear(field)
    {
      var v := if field == PhoneNumber then FormatPhone(value) else value;
      form := form.Set(field, v);
      if errors.Get(field).Some? {
        errors := errors.Clear(field);
      }
    }
  }
}
