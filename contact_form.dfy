/**
 * The contact form's client-side schema: a field-by-field check that reports every
 * failing field with its own message, in field order. Lengths are taken on the raw
 * strings, without trimming. Whether a string is an e-mail address is decided by
 * the validation library; it is a parameter here.
 */
module ContactForm {
  import opened Wrappers

  datatype FormValues = FormValues(
    name: string,
    email: string,
    phone: Option<string>,
    serviceType: string,
    message: string)

  datatype Field = NameField | EmailField | PhoneField | ServiceTypeField | MessageField

  datatype Issue = Issue(field: Field, message: string)

  const NameMessage: string := "Name must be at least 2 characters"
  const EmailMessage: string := "Please enter a valid email address"
  const ServiceTypeMessage: string := "Please select a service type"
  const ContactMessageMessage: string := "Message must be at least 10 characters"

  /** The values the service-type picker offers; the schema itself does not restrict to them. */
  const OfferedServiceTypes: seq<string> := ["repair", "maintenance", "diagnostic", "car-inquiry", "other"]

  /** Whether field `f` of `v` meets its rule; the phone is optional and unconstrained. */
  predicate FieldOk(f: Field, v: FormValues, isEmail: string -> bool)
  {
    match f
    case NameField => |v.name| >= 2
    case EmailField => isEmail(v.email)
    case PhoneField => true
    case ServiceTypeField => |v.serviceType| >= 1
    case MessageField => |v.message| >= 10
  }

  /** The message the schema attaches to a failing field. */
  function MessageFor(f: Field): string
  {
    match f
    case NameField => NameMessage
    case EmailField => EmailMessage
    case PhoneField => ""
    case ServiceTypeField => ServiceTypeMessage
    case MessageField => ContactMessageMessage
  }

  /** The position of a field in the schema's declaration order. */
  function Rank(f: Field): nat
  {
    match f
    case NameField => 0
    case EmailField => 1
    case PhoneField => 2
    case ServiceTypeField => 3
    case MessageField => 4
  }

  /** The issue for `f`, if it fails. */
  function Check(f: Field, v: FormValues, isEmail: string -> bool): seq<Issue>
  {
    if FieldOk(f, v, isEmail) then [] else [Issue(f, MessageFor(f))]
  }

  /** Every failing field's issue, in declaration order. */
  function Issues(v: FormValues, isEmail: string -> bool): seq<Issue>
  {
    Check(NameField, v, isEmail) + Check(EmailField, v, isEmail) + Check(PhoneField, v, isEmail)
      + Check(ServiceTypeField, v, isEmail) + Check(MessageField, v, isEmail)
  }

  /** The fields an issue list names. */
  function FieldsOf(issues: seq<Issue>): set<Field>
  {
    if issues == [] then {} else {issues[0].field} + FieldsOf(issues[1..])
  }

  /** The set of fields that fail, which the form shows all at once. */
  function FailingFields(v: FormValues, isEmail: string -> bool): (fs: set<Field>)
    ensures forall f :: f in fs <==> !FieldOk(f, v, isEmail)
    ensures PhoneField !in fs
  {
    (if FieldOk(NameField, v, isEmail) then {} else {NameField})
    + (if FieldOk(EmailField, v, isEmail) then {} else {EmailField})
    + (if FieldOk(ServiceTypeField, v, isEmail) then {} else {ServiceTypeField})
    + (if FieldOk(MessageField, v, isEmail) then {} else {MessageField})
  }

  /**
   * `contactFormSchema.safeParse`: the values unchanged when every field passes,
   * otherwise the (non-empty) list of issues.
   */
  function Validate(v: FormValues, isEmail: string -> bool): (r: Result<FormValues, seq<Issue>>)
    ensures r.Success? <==> forall f :: FieldOk(f, v, isEmail)
    ensures r.Success? ==> r.value == v
    ensures r.Failure? ==> |r.error| > 0 && forall i :: 0 <= i < |r.error| ==> r.error[i].message == MessageFor(r.error[i].field)
  {
    var issues := Issues(v, isEmail);
    if issues == [] then
      assert forall f :: FieldOk(f, v, isEmail) by {
        forall f ensures FieldOk(f, v, isEmail) {
          if !FieldOk(f, v, isEmail) {
            assert Check(f, v, isEmail) != [];
          }
        }
      }
      Success(v)
    else
      Failure(issues)
  }

  lemma {:induction false} FieldsOfAppend(a: seq<Issue>, b: seq<Issue>)
    ensures FieldsOf(a + b) == FieldsOf(a) + FieldsOf(b)
  {
    if a != [] {
      assert (a + b)[1..] == a[1..] + b;
      FieldsOfAppend(a[1..], b);
    } else {
      assert a + b == b;
    }
  }

  lemma FieldsOfCheck(f: Field, v: FormValues, isEmail: string -> bool)
    ensures FieldsOf(Check(f, v, isEmail)) == if FieldOk(f, v, isEmail) then {} else {f}
  {
  }

  /**
   * A rejected form names exactly the failing fields, each once, in declaration
   * order; the phone is never among them.
   */
  lemma {:induction false} RejectionNamesExactlyFailingFields(v: FormValues, isEmail: string -> bool)
    requires Validate(v, isEmail).Failure?
    ensures FieldsOf(Validate(v, isEmail).error) == FailingFields(v, isEmail)
    ensures PhoneField !in FieldsOf(Validate(v, isEmail).error)
    ensures forall i, j :: 0 <= i < j < |Validate(v, isEmail).error| ==>
      Rank(Validate(v, isEmail).error[i].field) < Rank(Validate(v, isEmail).error[j].field)
  {
    var n, e, p, s, m := Check(NameField, v, isEmail), Check(EmailField, v, isEmail),
      Check(PhoneField, v, isEmail), Check(ServiceTypeField, v, isEmail), Check(MessageField, v, isEmail);
    assert p == [];
    FieldsOfAppend(n, e);
    FieldsOfAppend(n + e, p);
    FieldsOfAppend(n + e + p, s);
    FieldsOfAppend(n + e + p + s, m);
    FieldsOfCheck(NameField, v, isEmail);
    FieldsOfCheck(EmailField, v, isEmail);
    FieldsOfCheck(PhoneField, v, isEmail);
    FieldsOfCheck(ServiceTypeField, v, isEmail);
    FieldsOfCheck(MessageField, v, isEmail);
    var all := n + e + p + s + m;
    forall i, j | 0 <= i < j < |all| ensures Rank(all[i].field) < Rank(all[j].field) {
      assert Rank(all[i].field) < Rank(all[j].field) by {
        if i < |n| {
          assert all[i] == n[i];
        } else if i < |n + e| {
          assert all[i] == e[i - |n|];
          assert j >= |n + e|;
        } else if i < |n + e + p + s| {
          assert all[i] == s[i - |n + e + p|];
          assert j >= |n + e + p + s|;
        }
      }
    }
  }

  /**
   * Lengths count raw characters: blanks alone satisfy the name and message minimums,
   * and any non-empty service type passes, offered by the picker or not.
   */
  lemma NoTrimmingNoClosedSet(isEmail: string -> bool, email: string)
    requires isEmail(email)
    ensures Validate(FormValues("  ", email, None, "x", "          "), isEmail).Success?
    ensures "x" !in OfferedServiceTypes
    ensures forall s :: s in OfferedServiceTypes ==> FieldOk(ServiceTypeField, FormValues("", "", None, s, ""), isEmail)
  {
  }

  /** A well-formed submission is accepted as is. */
  lemma AcceptsExample(isEmail: string -> bool)
    requires isEmail("a@b.com")
    ensures Validate(FormValues("Al", "a@b.com", None, "repair", "My brakes squeal loudly"), isEmail)
      == Success(FormValues("Al", "a@b.com", None, "repair", "My brakes squeal loudly"))
  {
  }

  /** A submission failing four rules names all four, in order, with their messages. */
  lemma RejectsEveryFailingField(isEmail: string -> bool)
    requires !isEmail("bad-email")
    ensures Validate(FormValues("A", "bad-email", None, "", "short"), isEmail)
      == Failure([Issue(NameField, NameMessage), Issue(EmailField, EmailMessage),
                  Issue(ServiceTypeField, ServiceTypeMessage), Issue(MessageField, ContactMessageMessage)])
    ensures FailingFields(FormValues("A", "bad-email", None, "", "short"), isEmail)
      == {NameField, EmailField, ServiceTypeField, MessageField}
  {
    var v := FormValues("A", "bad-email", None, "", "short");
    assert |v.name| == 1 && |v.serviceType| == 0 && |v.message| == 5;
    assert Issues(v, isEmail) == [Issue(NameField, NameMessage), Issue(EmailField, EmailMessage),
                  Issue(ServiceTypeField, ServiceTypeMessage), Issue(MessageField, ContactMessageMessage)];
  }
}
