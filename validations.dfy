/**
 * The input schemas of lib/validations.ts. Each schema is a function from the
 * loosely typed input to either the typed record or the list of issues Zod
 * reports, one per failing field, in the schema's key order.
 */
module Validations {
  import opened Wrappers
  import opened Calendar
  import opened Domain
  import NumberParse
  import Digits

  /** One member of a JSON object or form: absent, present but not a string, or a string. */
  datatype RawField = Missing | NonString | Str(s: string)

  /** The four members `createTransactionSchema` reads. */
  datatype RawTransaction = RawTransaction(amount: RawField, description: RawField, kind: RawField, date: RawField)

  /** What `parse` is handed: a JSON object, or any other JSON value. */
  datatype Payload = NotAnObject | Object(fields: RawTransaction)

  /** The path of an issue: the whole value, or one member. */
  datatype FieldName = Root | AmountField | DescriptionField | TypeField | DateField | NameField | EmailField | PasswordField

  datatype Issue = Issue(path: FieldName, message: string)

  /** The output of `createTransactionSchema`: the amount is a number and the date a date. */
  datatype ValidatedTransaction = ValidatedTransaction(amount: real, description: string, kind: TxType, date: CalendarDate)

  datatype LoginData = LoginData(email: string, password: string)

  datatype RegisterData = RegisterData(name: string, email: string, password: string)

  const MaxDescriptionLength: nat := 255
  const MinPasswordLength: nat := 6
  const MinNameLength: nat := 2

  const RequiredMessage := "Required"
  const ExpectedStringMessage := "Expected string"
  const ExpectedObjectMessage := "Expected object"
  const AmountMessage := "Amount must be a positive number"
  const PositiveAmountMessage := "Amount must be greater than 0"
  const DescriptionRequiredMessage := "Description is required"
  const DescriptionTooLongMessage := "Description must be less than 255 characters"
  const ExpectedEnumMessage := "Expected 'INCOME' | 'EXPENSE'"
  const DateMessage := "Invalid date format"
  const InvalidDateMessage := "Invalid date"
  const EmailMessage := "Invalid email address"
  const PasswordMessage := "Password must be at least 6 characters"
  const NameMessage := "Name must be at least 2 characters"

  /** Zod's message for a string outside the enum; it quotes the received value. */
  function EnumMessage(received: string): string {
    "Invalid enum value. Expected 'INCOME' | 'EXPENSE', received '" + received + "'"
  }

  /** `z.string()`, the check every string member passes first. */
  function AsString(f: RawField): (r: Result<string, string>)
    ensures r.Ok? <==> f.Str?
    ensures r.Ok? ==> r.value == f.s
  {
    match f
    case Missing => Err(RequiredMessage)
    case NonString => Err(ExpectedStringMessage)
    case Str(s) => Ok(s)
  }

  /** `amount`: a string whose `Number(val)` is not NaN and is above 0, turned into that number. */
  function CheckAmount(f: RawField): (r: Result<real, string>)
    ensures r.Ok? <==> f.Str? && NumberParse.ParseNumber(f.s).Some? && NumberParse.ParseNumber(f.s).value > 0.0
    ensures r.Ok? ==> r.value == NumberParse.ParseNumber(f.s).value && r.value > 0.0
    ensures f.Str? && r.Err? ==> r.error == AmountMessage
  {
    match AsString(f)
    case Err(m) => Err(m)
    case Ok(s) =>
      match NumberParse.ParseNumber(s)
      case Some(v) => if v > 0.0 then Ok(v) else Err(AmountMessage)
      case None => Err(AmountMessage)
  }

  /** `description`: `.min(1)` then `.max(255)`; the string passes through unchanged. */
  function CheckDescription(f: RawField): (r: Result<string, string>)
    ensures r.Ok? <==> f.Str? && 1 <= |f.s| <= MaxDescriptionLength
    ensures r.Ok? ==> r.value == f.s
  {
    match AsString(f)
    case Err(m) => Err(m)
    case Ok(s) =>
      if |s| < 1 then Err(DescriptionRequiredMessage)
      else if |s| > MaxDescriptionLength then Err(DescriptionTooLongMessage)
      else Ok(s)
  }

  /** `type`: `z.enum(["INCOME", "EXPENSE"])`. */
  function CheckType(f: RawField): (r: Result<TxType, string>)
    ensures r.Ok? <==> f.Str? && (f.s == TypeName(Income) || f.s == TypeName(Expense))
    ensures r.Ok? ==> f == Str(TypeName(r.value))
  {
    match f
    case Missing => Err(RequiredMessage)
    case NonString => Err(ExpectedEnumMessage)
    case Str(s) =>
      if s == "INCOME" then Ok(Income)
      else if s == "EXPENSE" then Ok(Expense)
      else Err(EnumMessage(s))
  }

  /** `date`: a string `Date.parse` accepts, turned into that date. */
  function CheckDate(f: RawField): (r: Result<CalendarDate, string>)
    ensures r.Ok? <==> f.Str? && ParseDate(f.s).Some?
    ensures r.Ok? ==> r.value == ParseDate(f.s).value && ValidDate(r.value)
    ensures f.Str? && r.Err? ==> r.error == DateMessage
  {
    match AsString(f)
    case Err(m) => Err(m)
    case Ok(s) =>
      match ParseDate(s)
      case Some(d) => Ok(d)
      case None => Err(DateMessage)
  }

  /** The issue a failed member check contributes (none when it passed). */
  function IssuesOf<T>(path: FieldName, r: Result<T, string>): (issues: seq<Issue>)
    ensures |issues| <= 1
    ensures issues != [] <==> r.Err?
    ensures issues != [] ==> issues[0] == Issue(path, r.error)
    ensures Paths(issues) == if r.Err? then {path} else {}
  {
    if r.Err? then [Issue(path, r.error)] else []
  }

  /** The members of an object that fail their check. */
  function FailingFields(raw: RawTransaction): (s: set<FieldName>)
    ensures s == {} <==> CheckAmount(raw.amount).Ok? && CheckDescription(raw.description).Ok?
                         && CheckType(raw.kind).Ok? && CheckDate(raw.date).Ok?
  {
    (if CheckAmount(raw.amount).Err? then {AmountField} else {})
    + (if CheckDescription(raw.description).Err? then {DescriptionField} else {})
    + (if CheckType(raw.kind).Err? then {TypeField} else {})
    + (if CheckDate(raw.date).Err? then {DateField} else {})
  }

  function Paths(issues: seq<Issue>): set<FieldName> {
    set i | 0 <= i < |issues| :: issues[i].path
  }

  /**
   * `createTransactionSchema.parse` on an object: every member is checked,
   * and the object is accepted only when all four pass.
   */
  function ParseFields(raw: RawTransaction): (r: Result<ValidatedTransaction, seq<Issue>>)
    ensures r.Ok? <==> FailingFields(raw) == {}
    ensures r.Ok? ==> r.value.amount > 0.0 && ValidDate(r.value.date)
    ensures r.Ok? ==> raw.amount.Str? && NumberParse.ParseNumber(raw.amount.s).Some?
                      && r.value.amount == NumberParse.ParseNumber(raw.amount.s).value
    ensures r.Ok? ==> raw.date.Str? && ParseDate(raw.date.s).Some? && r.value.date == ParseDate(raw.date.s).value
    ensures r.Ok? ==> r.value.description == raw.description.s && TypeName(r.value.kind) == raw.kind.s
    ensures r.Err? ==> Paths(r.error) == FailingFields(raw)
  {
    var a, d, k, t := CheckAmount(raw.amount), CheckDescription(raw.description), CheckType(raw.kind), CheckDate(raw.date);
    if a.Ok? && d.Ok? && k.Ok? && t.Ok? then
      Ok(ValidatedTransaction(a.value, d.value, k.value, t.value))
    else
      var issues := IssuesOf(AmountField, a) + IssuesOf(DescriptionField, d) + IssuesOf(TypeField, k) + IssuesOf(DateField, t);
      PathsOfFour(IssuesOf(AmountField, a), IssuesOf(DescriptionField, d), IssuesOf(TypeField, k), IssuesOf(DateField, t));
      Err(issues)
  }

  lemma PathsOfFour(a: seq<Issue>, d: seq<Issue>, k: seq<Issue>, t: seq<Issue>)
    ensures Paths(a + d + k + t) == Paths(a) + Paths(d) + Paths(k) + Paths(t)
  {
    var all := a + d + k + t;
    forall p | p in Paths(all) ensures p in Paths(a) + Paths(d) + Paths(k) + Paths(t) {
      var i :| 0 <= i < |all| && all[i].path == p;
      if i < |a| {
        assert a[i] == all[i];
      } else if i < |a| + |d| {
        assert d[i - |a|] == all[i];
      } else if i < |a| + |d| + |k| {
        assert k[i - |a| - |d|] == all[i];
      } else {
        assert t[i - |a| - |d| - |k|] == all[i];
      }
    }
    forall p | p in Paths(a) + Paths(d) + Paths(k) + Paths(t) ensures p in Paths(all) {
      if p in Paths(a) {
        var i :| 0 <= i < |a| && a[i].path == p;
        assert all[i] == a[i];
      } else if p in Paths(d) {
        var i :| 0 <= i < |d| && d[i].path == p;
        assert all[|a| + i] == d[i];
      } else if p in Paths(k) {
        var i :| 0 <= i < |k| && k[i].path == p;
        assert all[|a| + |d| + i] == k[i];
      } else {
        var i :| 0 <= i < |t| && t[i].path == p;
        assert all[|a| + |d| + |k| + i] == t[i];
      }
    }
  }

  /** `createTransactionSchema.parse` on any JSON value. */
  function CreateTransactionSchema(p: Payload): (r: Result<ValidatedTransaction, seq<Issue>>)
    ensures p.NotAnObject? ==> r == Err([Issue(Root, ExpectedObjectMessage)])
    ensures p.Object? ==> r == ParseFields(p.fields)
    ensures r.Err? ==> r.error != []
  {
    match p
    case NotAnObject => Err([Issue(Root, ExpectedObjectMessage)])
    case Object(raw) =>
      var r := ParseFields(raw);
      assert r.Err? ==> FailingFields(raw) != {};
      r
  }

  /**
   * `transactionSchema`, the shape of a stored transaction: a positive number,
   * a description of 1 to 255 characters and a real date (the type is already
   * one of the two enum values).
   */
  function TransactionSchema(v: ValidatedTransaction): (r: Result<ValidatedTransaction, seq<Issue>>)
    ensures r.Ok? <==> v.amount > 0.0 && 1 <= |v.description| <= MaxDescriptionLength && RealDay(v.date)
    ensures r.Ok? ==> r.value == v
    ensures r.Err? ==> r.error != []
  {
    var issues :=
      (if v.amount > 0.0 then [] else [Issue(AmountField, PositiveAmountMessage)])
      + (if |v.description| < 1 then [Issue(DescriptionField, DescriptionRequiredMessage)]
         else if |v.description| > MaxDescriptionLength then [Issue(DescriptionField, DescriptionTooLongMessage)]
         else [])
      + (if RealDay(v.date) then [] else [Issue(DateField, InvalidDateMessage)]);
    if issues == [] then Ok(v) else Err(issues)
  }

  /** `z.string().min(n, message)`. */
  function CheckMinLength(f: RawField, n: nat, message: string): (r: Result<string, string>)
    ensures r.Ok? <==> f.Str? && |f.s| >= n
    ensures r.Ok? ==> r.value == f.s
  {
    match AsString(f)
    case Err(m) => Err(m)
    case Ok(s) => if |s| >= n then Ok(s) else Err(message)
  }

  /** `z.string().email(...)`; the address grammar itself is the parameter `isEmail`. */
  function CheckEmail(f: RawField, isEmail: string -> bool): (r: Result<string, string>)
    ensures r.Ok? <==> f.Str? && isEmail(f.s)
    ensures r.Ok? ==> r.value == f.s
  {
    match AsString(f)
    case Err(m) => Err(m)
    case Ok(s) => if isEmail(s) then Ok(s) else Err(EmailMessage)
  }

  /** `loginSchema`: an email address and a password of at least 6 characters. */
  function LoginSchema(email: RawField, password: RawField, isEmail: string -> bool): (r: Result<LoginData, seq<Issue>>)
    ensures r.Ok? <==> email.Str? && isEmail(email.s) && password.Str? && |password.s| >= MinPasswordLength
    ensures r.Ok? ==> r.value == LoginData(email.s, password.s)
    ensures r.Err? ==> r.error != []
  {
    var e, p := CheckEmail(email, isEmail), CheckMinLength(password, MinPasswordLength, PasswordMessage);
    if e.Ok? && p.Ok? then Ok(LoginData(e.value, p.value))
    else Err(IssuesOf(EmailField, e) + IssuesOf(PasswordField, p))
  }

  /** `registerSchema`: a name of at least 2 characters, then the login members. */
  function RegisterSchema(name: RawField, email: RawField, password: RawField, isEmail: string -> bool): (r: Result<RegisterData, seq<Issue>>)
    ensures r.Ok? <==> name.Str? && |name.s| >= MinNameLength && LoginSchema(email, password, isEmail).Ok?
    ensures r.Ok? ==> r.value == RegisterData(name.s, email.s, password.s)
    ensures r.Err? ==> r.error != []
  {
    var n, e, p := CheckMinLength(name, MinNameLength, NameMessage), CheckEmail(email, isEmail), CheckMinLength(password, MinPasswordLength, PasswordMessage);
    if n.Ok? && e.Ok? && p.Ok? then Ok(RegisterData(n.value, e.value, p.value))
    else Err(IssuesOf(NameField, n) + IssuesOf(EmailField, e) + IssuesOf(PasswordField, p))
  }

  // Properties of the transaction schemas.

  /** Anything `createTransactionSchema` produces is a well-formed `transactionSchema` record. */
  lemma CreatedSatisfiesTransactionSchema(p: Payload)
    requires CreateTransactionSchema(p).Ok?
    ensures TransactionSchema(CreateTransactionSchema(p).value) == Ok(CreateTransactionSchema(p).value)
  {
  }

  /** "0", "0.00" and "" are numbers, but not positive ones: all rejected. */
  lemma ZeroAmountsRejected()
    ensures CheckAmount(Str("0")) == Err(AmountMessage)
    ensures CheckAmount(Str("0.00")) == Err(AmountMessage)
    ensures CheckAmount(Str("")) == Err(AmountMessage)
  {
    NotPositiveRejected("");
    NumberParse.ZeroReadsAsZero();
    NotPositiveRejected("0");
    NotPositiveRejected("0.00");
  }

  /** A number that is not above 0 is rejected with the amount message. */
  lemma NotPositiveRejected(s: string)
    requires NumberParse.ParseNumber(s).Some? && NumberParse.ParseNumber(s).value <= 0.0
    ensures CheckAmount(Str(s)) == Err(AmountMessage)
  {
  }

  /** No amount written with a leading minus sign is accepted. */
  lemma NegativeAmountRejected(s: string)
    ensures CheckAmount(Str("-" + s)) == Err(AmountMessage)
  {
    NumberParse.NegatedNotPositive(s);
  }

  /** An amount holding a character other than a digit or a point (a leading sign aside) is NaN, so it is rejected. */
  lemma NonNumericAmountRejected(s: string, i: nat)
    requires i < |s| && !Digits.IsDigit(s[i]) && s[i] != '.'
    requires i == 0 ==> s[i] != '+' && s[i] != '-'
    ensures CheckAmount(Str(s)) == Err(AmountMessage)
  {
    if s[0] == '+' || s[0] == '-' {
      var t := s[1..];
      assert t[i - 1] == s[i];
      assert NumberParse.ParseUnsigned(t).None?;
    } else {
      assert NumberParse.ParseUnsigned(s).None?;
    }
  }

  /** A positive amount written with two decimals is accepted as exactly that number. */
  lemma CentsAmountAccepted(cents: nat)
    requires cents > 0
    ensures CheckAmount(Str(NumberParse.FormatCents(cents))) == Ok(cents as real / 100.0)
  {
    NumberParse.ParseFormatCents(cents);
  }

  /** The description bounds are exact: "" and 256 characters fail, 1 and 255 pass. */
  lemma DescriptionBoundaries(s: string)
    ensures |s| == 0 ==> CheckDescription(Str(s)) == Err(DescriptionRequiredMessage)
    ensures |s| == MaxDescriptionLength + 1 ==> CheckDescription(Str(s)) == Err(DescriptionTooLongMessage)
    ensures |s| == 1 || |s| == MaxDescriptionLength ==> CheckDescription(Str(s)) == Ok(s)
  {
  }

  /** Every type is accepted under its own name. */
  lemma TypeNameAccepted(k: TxType)
    ensures CheckType(Str(TypeName(k))) == Ok(k)
  {
  }

  /** An accepted date string is the rendering of the date it yields, and every date's rendering is accepted. */
  lemma DateRoundTrip(s: string, d: CalendarDate)
    ensures CheckDate(Str(s)).Ok? ==> FormatDate(CheckDate(Str(s)).value) == s
    ensures ValidDate(d) ==> CheckDate(Str(FormatDate(d))) == Ok(d)
  {
    if CheckDate(Str(s)).Ok? {
      FormatParseDate(s);
    }
    if ValidDate(d) {
      ParseFormatDate(d);
    }
  }

  /** The JSON a client builds from a record with a two-decimal amount parses back to that record. */
  lemma PayloadRoundTrip(cents: nat, description: string, kind: TxType, date: CalendarDate)
    requires cents > 0 && 1 <= |description| <= MaxDescriptionLength && ValidDate(date)
    ensures CreateTransactionSchema(Object(RawTransaction(
              Str(NumberParse.FormatCents(cents)), Str(description), Str(TypeName(kind)), Str(FormatDate(date)))))
         == Ok(ValidatedTransaction(cents as real / 100.0, description, kind, date))
  {
    CentsAmountAccepted(cents);
    TypeNameAccepted(kind);
    ParseFormatDate(date);
  }

  /** One failing member is enough to reject the whole object, and that member is reported. */
  lemma OneBadFieldRejects(raw: RawTransaction, path: FieldName)
    requires path in FailingFields(raw)
    ensures CreateTransactionSchema(Object(raw)).Err?
    ensures exists i :: 0 <= i < |CreateTransactionSchema(Object(raw)).error|
                        && CreateTransactionSchema(Object(raw)).error[i].path == path
  {
    var issues := CreateTransactionSchema(Object(raw)).error;
    assert path in Paths(issues);
  }

  // Properties of the account schemas.

  /** A password shorter than 6 characters fails both account schemas. */
  lemma ShortPasswordRejected(name: RawField, email: RawField, password: string, isEmail: string -> bool)
    requires |password| < MinPasswordLength
    ensures LoginSchema(email, Str(password), isEmail).Err?
    ensures RegisterSchema(name, email, Str(password), isEmail).Err?
  {
  }

  /** A name shorter than 2 characters fails registration whatever else is given. */
  lemma ShortNameRejected(name: string, email: RawField, password: RawField, isEmail: string -> bool)
    requires |name| < MinNameLength
    ensures RegisterSchema(Str(name), email, password, isEmail).Err?
  {
  }

  /** Whoever could register with some credentials can log in with them. */
  lemma RegisteredCanLogIn(name: RawField, email: RawField, password: RawField, isEmail: string -> bool)
    requires RegisterSchema(name, email, password, isEmail).Ok?
    ensures LoginSchema(email, password, isEmail) == Ok(LoginData(email.s, password.s))
  {
  }
}
