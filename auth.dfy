/** The pure helpers of the sign-in / sign-up page: contact masking, the
    one-time code, the validation schemas and the resolver that picks one,
    the step titles and the login identifier of a new account. */
module Auth {
  import opened Text

  // ---------------------------------------------------------------
  // maskContact
  // ---------------------------------------------------------------

  /** Index of the first occurrence of `c` in `s`, or `|s|`. */
  function IndexOf(s: string, c: char): (i: nat)
    ensures i <= |s| && c !in s[..i]
    ensures i < |s| ==> s[i] == c
  {
    if s == [] || s[0] == c then 0 else 1 + IndexOf(s[1..], c)
  }

  /** The masked local part of an e-mail address: at most five characters,
      of which only the first and last of a local part longer than two are
      shown; everything else is a `*`, three of them in a row. */
  function MaskLocal(user: string): (m: string)
    ensures |m| == if |user| > 2 then 5 else 3
    ensures m[|m| / 2 - 1..|m| / 2 + 2] == "***"
    ensures forall i :: 0 <= i < |m| && m[i] != '*' ==>
      |user| > 2 && (m[i] == user[0] || m[i] == user[|user| - 1])
    ensures |user| > 2 ==> m[0] == user[0] && m[4] == user[|user| - 1]
  {
    if |user| > 2 then [user[0]] + "***" + [user[|user| - 1]] else "***"
  }

  /** maskContact: an e-mail keeps its first and last local character and
      the segment after the first `@` up to the next one; anything else is
      reduced to its digits, of which only the last four stay visible. */
  function MaskContact(contact: string): (r: string)
    ensures '@' !in contact ==>
      var d := Digits(contact);
      var shown := if |d| < 4 then |d| else 4;
      && |r| == |d|
      && (forall i :: 0 <= i < |d| - shown ==> r[i] == '*')
      && r[|d| - shown..] == d[|d| - shown..]
  {
    if '@' in contact then
      var at := IndexOf(contact, '@');
      var user := contact[..at];
      var rest := contact[at + 1..];
      var domain := rest[..IndexOf(rest, '@')];
      MaskLocal(user) + "@" + domain
    else
      var d := Digits(contact);
      var hidden := if |d| > 4 then |d| - 4 else 0;
      Repeat('*', hidden) + d[hidden..]
  }

  /** Splitting at a known first `@`: the mask is the masked local part,
      `@`, and the text up to the second `@` (or the end). */
  lemma MaskEmail(user: string, domain: string, tail: string)
    requires '@' !in user && '@' !in domain
    requires tail == [] || tail[0] == '@'
    ensures MaskContact(user + "@" + domain + tail) == MaskLocal(user) + "@" + domain
  {
    var c := user + "@" + domain + tail;
    assert c == user + ("@" + domain + tail);
    IndexOfFirst(user, "@" + domain + tail, '@');
    assert '@' in c;
    var rest := c[|user| + 1..];
    assert c[..|user|] == user && rest == domain + tail;
    IndexOfFirst(domain, tail, '@');
    assert rest[..IndexOf(rest, '@')] == domain;
  }

  /** The first `c` of `a + b` is the first of `b` when `a` has none. */
  lemma {:induction false} IndexOfFirst(a: string, b: string, c: char)
    requires c !in a && (b == [] || b[0] == c)
    ensures IndexOf(a + b, c) == |a|
  {
    if a != [] {
      assert (a + b)[1..] == a[1..] + b;
      IndexOfFirst(a[1..], b, c);
    }
  }

  // ---------------------------------------------------------------
  // generateOTP
  // ---------------------------------------------------------------

  /** generateOTP: `Math.floor(1000 + Math.random() * 9000)` is the draw,
      an integer in [1000, 9999]; the code is its decimal rendering. */
  function GenerateOtp(draw: int): (code: string)
    requires 1000 <= draw <= 9999
    ensures |code| == 4 && IsDigits(code) && code[0] != '0'
    ensures DecimalValue(code) == draw
  {
    DecimalRoundTrip(draw);
    DecimalLength(draw, 3);
    DecimalString(draw)
  }

  /** Different draws never give the same code. */
  lemma GenerateOtpInjective(a: int, b: int)
    requires 1000 <= a <= 9999 && 1000 <= b <= 9999
    requires GenerateOtp(a) == GenerateOtp(b)
    ensures a == b
  {
  }

  // ---------------------------------------------------------------
  // Schemas and the resolver table
  // ---------------------------------------------------------------

  datatype Step = Credentials | Otp | Account

  datatype Field = FullName | Contact | Username | Password

  /** step1Schema, step3Schema and loginSchema. */
  datatype Schema = Step1Schema | Step3Schema | LoginSchema

  datatype FormValues = FormValues(fullName: string, contact: string, username: string, password: string)

  /** The resolver: chosen at submit time from the mode and the step. */
  function SchemaFor(isLogin: bool, step: Step): Schema {
    if isLogin then LoginSchema
    else if step == Account then Step3Schema
    else Step1Schema
  }

  /** Each schema's fields with their `min` lengths, in declaration order. */
  function Rules(schema: Schema): seq<(Field, nat)> {
    match schema
    case Step1Schema => [(FullName, 2), (Contact, 5)]
    case Step3Schema => [(FullName, 2), (Contact, 5), (Username, 3), (Password, 6)]
    case LoginSchema => [(Username, 3), (Password, 6)]
  }

  function FieldValue(v: FormValues, f: Field): string {
    match f
    case FullName => v.fullName
    case Contact => v.contact
    case Username => v.username
    case Password => v.password
  }

  /** Rule `k` of `rules` names field `f` and `v` is too short there. */
  predicate Violated(rules: seq<(Field, nat)>, v: FormValues, f: Field, k: int) {
    0 <= k < |rules| && rules[k].0 == f && |FieldValue(v, f)| < rules[k].1
  }

  /** The fields the schema rejects, in declaration order. */
  function Errors(schema: Schema, v: FormValues): seq<Field> {
    ErrorsOf(Rules(schema), v)
  }

  function ErrorsOf(rules: seq<(Field, nat)>, v: FormValues): seq<Field> {
    if rules == [] then []
    else
      var rest := ErrorsOf(rules[1..], v);
      if |FieldValue(v, rules[0].0)| < rules[0].1 then [rules[0].0] + rest else rest
  }

  /** A field is reported exactly when one of its rules is broken. */
  lemma {:induction false} ErrorsOfSpec(rules: seq<(Field, nat)>, v: FormValues, f: Field)
    ensures f in ErrorsOf(rules, v) <==> exists k :: Violated(rules, v, f, k)
  {
    if rules != [] {
      ErrorsOfSpec(rules[1..], v, f);
      if f in ErrorsOf(rules, v) && f !in ErrorsOf(rules[1..], v) {
        assert Violated(rules, v, f, 0);
      }
      if exists k :: Violated(rules[1..], v, f, k) {
        var k :| Violated(rules[1..], v, f, k);
        assert Violated(rules, v, f, k + 1);
      }
      if exists k :: Violated(rules, v, f, k) {
        var k :| Violated(rules, v, f, k);
        if k == 0 {
          assert |FieldValue(v, rules[0].0)| < rules[0].1;
          assert ErrorsOf(rules, v)[0] == f;
        } else {
          assert Violated(rules[1..], v, f, k - 1);
        }
      }
    }
  }

  /** No error at all exactly when every rule is met. */
  lemma {:induction false} ErrorsOfEmpty(rules: seq<(Field, nat)>, v: FormValues)
    ensures ErrorsOf(rules, v) == [] <==>
      forall k :: 0 <= k < |rules| ==> |FieldValue(v, rules[k].0)| >= rules[k].1
  {
    if rules != [] {
      ErrorsOfEmpty(rules[1..], v);
      assert forall k :: 1 <= k < |rules| ==> rules[k] == rules[1..][k - 1];
    }
  }

  predicate Accepts(schema: Schema, v: FormValues) {
    Errors(schema, v) == []
  }

  /** The resolver table, row by row: what a submit must satisfy to pass. */
  lemma ResolverTable(isLogin: bool, step: Step, v: FormValues)
    ensures Accepts(SchemaFor(isLogin, step), v) <==>
      if isLogin then |v.username| >= 3 && |v.password| >= 6
      else if step == Account then
        |v.fullName| >= 2 && |v.contact| >= 5 && |v.username| >= 3 && |v.password| >= 6
      else |v.fullName| >= 2 && |v.contact| >= 5
  {
    var rules := Rules(SchemaFor(isLogin, step));
    ErrorsOfEmpty(rules, v);
    if forall k :: 0 <= k < |rules| ==> |FieldValue(v, rules[k].0)| >= rules[k].1 {
      assert |FieldValue(v, rules[0].0)| >= rules[0].1;
      assert |FieldValue(v, rules[1].0)| >= rules[1].1;
      if |rules| == 4 {
        assert |FieldValue(v, rules[2].0)| >= rules[2].1;
        assert |FieldValue(v, rules[3].0)| >= rules[3].1;
      }
    }
  }

  /** A submit that passes the account-step schema passes the first step's. */
  lemma Step3ExtendsStep1(v: FormValues)
    requires Accepts(Step3Schema, v)
    ensures Accepts(Step1Schema, v)
  {
    ResolverTable(false, Account, v);
    ResolverTable(false, Credentials, v);
  }

  // ---------------------------------------------------------------
  // getStepTitle / getStepDesc
  // ---------------------------------------------------------------

  function StepTitle(isLogin: bool, step: Step): string {
    if isLogin then "Welcome Back"
    else if step == Otp then "Verify OTP"
    else if step == Account then "Final Details"
    else "Create Account"
  }

  /** The heading tells the four screens apart. */
  lemma StepTitleIdentifiesScreen(l1: bool, s1: Step, l2: bool, s2: Step)
    requires StepTitle(l1, s1) == StepTitle(l2, s2)
    ensures l1 == l2 && (l1 || s1 == s2)
  {
  }

  /** The line under the heading; the code step names the masked contact. */
  function StepDesc(isLogin: bool, step: Step, contact: string): string {
    if isLogin then "Continue your language journey"
    else if step == Otp then "Enter the 4-digit code sent to " + MaskContact(contact)
    else if step == Account then "Choose a username and set your password"
    else "Enter your name and contact details"
  }

  // ---------------------------------------------------------------
  // Login identifier of a new account
  // ---------------------------------------------------------------

  const LocalDomain := "@app.local"

  /** The identifier handed to the sign-up call: the contact when it is an
      e-mail, otherwise one made from the username. Always e-mail shaped. */
  function LoginIdentifier(contact: string, username: string): (email: string)
    ensures '@' in email
    ensures '@' in contact ==> email == contact
    ensures '@' !in contact ==>
      |email| == |username| + |LocalDomain| && email[..|username|] == username && email[|username|..] == LocalDomain
  {
    if '@' in contact then contact
    else
      var e := username + LocalDomain;
      assert e[|username|] == '@';
      e
  }
}
