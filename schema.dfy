/** The registration form's validation schema: four fields, each bound to an
    ordered list of rules, each rule bound to one fixed message. A field's
    check reports the message of the first rule that fails; the whole-form
    check asks whether every rule of every field holds. */
module Schema {
  import opened Wrappers
  import opened Text

  // The message dictionary.
  const UsernameRequired := "username is required"
  const UsernameMin := "username must be at least 3 characters"
  const UsernameMax := "username cannot exceed 20 characters"
  const FavLanguageRequired := "favLanguage is required"
  const FavLanguageOptions := "favLanguage must be either javascript or rust"
  const FavFoodRequired := "favFood is required"
  const FavFoodOptions := "favFood must be either broccoli, spaghetti or pizza"
  const AgreementRequired := "agreement is required"
  const AgreementOptions := "agreement must be accepted"

  datatype Field = Username | FavLanguage | FavFood | Agreement

  /** A value an input produces: the text of a text box, radio button or
      select, or the checked state of a checkbox. */
  datatype Value = Str(text: string) | Flag(flag: bool)

  /** Agreement is the one boolean field; the other three hold text. */
  predicate Fits(f: Field, v: Value) {
    v.Flag? <==> f == Agreement
  }

  /** The form's values, always holding all four fields. */
  datatype FormValues = FormValues(username: string, favLanguage: string, favFood: string, agreement: bool)
  {
    function Get(f: Field): (v: Value)
      ensures Fits(f, v)
    {
      match f
      case Username => Str(username)
      case FavLanguage => Str(favLanguage)
      case FavFood => Str(favFood)
      case Agreement => Flag(agreement)
    }

    /** The record with field `f` set to `v` and every other field kept. */
    function With(f: Field, v: Value): (r: FormValues)
      requires Fits(f, v)
      ensures r.Get(f) == v
      ensures forall g :: g != f ==> r.Get(g) == Get(g)
    {
      match f
      case Username => this.(username := v.text)
      case FavLanguage => this.(favLanguage := v.text)
      case FavFood => this.(favFood := v.text)
      case Agreement => this.(agreement := v.flag)
    }
  }

  /** One message per field; the empty string means no error is shown. */
  datatype FieldErrors = FieldErrors(username: string, favLanguage: string, favFood: string, agreement: string)
  {
    function Get(f: Field): string {
      match f
      case Username => username
      case FavLanguage => favLanguage
      case FavFood => favFood
      case Agreement => agreement
    }

    /** The record with field `f`'s message set to `m` and every other kept. */
    function With(f: Field, m: string): (r: FieldErrors)
      ensures r.Get(f) == m
      ensures forall g :: g != f ==> r.Get(g) == Get(g)
    {
      match f
      case Username => this.(username := m)
      case FavLanguage => this.(favLanguage := m)
      case FavFood => this.(favFood := m)
      case Agreement => this.(agreement := m)
    }
  }

  const InitialValues := FormValues("", "", "", false)
  const InitialErrors := FieldErrors("", "", "", "")

  /** A rule of the schema and the message it reports when it fails. */
  datatype Rule =
    | Required(message: string)
    | Min(limit: nat, message: string)
    | Max(limit: nat, message: string)
    | OneOf(options: seq<string>, message: string)
    | IsTrue(message: string)

  /** Whether `v` satisfies `rule`. A required string must be non-empty; a
      boolean is always present, so it always satisfies Required. */
  predicate Passes(rule: Rule, v: Value) {
    match rule
    case Required(_) => v != Str("")
    case Min(n, _) => v.Str? && |v.text| >= n
    case Max(n, _) => v.Str? && |v.text| <= n
    case OneOf(xs, _) => v.Str? && v.text in xs
    case IsTrue(_) => v == Flag(true)
  }

  /** A field's rules, in declaration order, and whether its value is trimmed
      before they are checked. */
  datatype FieldSchema = FieldSchema(trim: bool, rules: seq<Rule>)

  function SchemaOf(f: Field): FieldSchema {
    match f
    case Username =>
      FieldSchema(true, [Required(UsernameRequired), Min(3, UsernameMin), Max(20, UsernameMax)])
    case FavLanguage =>
      FieldSchema(false, [Required(FavLanguageRequired), OneOf(["javascript", "rust"], FavLanguageOptions)])
    case FavFood =>
      FieldSchema(false, [Required(FavFoodRequired), OneOf(["broccoli", "spaghetti", "pizza"], FavFoodOptions)])
    case Agreement =>
      FieldSchema(false, [Required(AgreementOptions), IsTrue(AgreementRequired)])
  }

  /** The value the rules see: trimmed when the field's schema says so. */
  function Cast(f: Field, v: Value): Value {
    if SchemaOf(f).trim && v.Str? then Str(Trim(v.text)) else v
  }

  /** The index of the first rule `v` fails, or `|rules|` when it fails none. */
  function FirstFailingRule(rules: seq<Rule>, v: Value): (k: nat)
    ensures k <= |rules|
    ensures forall j :: 0 <= j < k ==> Passes(rules[j], v)
    ensures k < |rules| ==> !Passes(rules[k], v)
  {
    if rules == [] then 0
    else if !Passes(rules[0], v) then 0
    else 1 + FirstFailingRule(rules[1..], v)
  }

  /** Every rule of field `f` holds of `v`. */
  predicate FieldValid(f: Field, v: Value) {
    var rules := SchemaOf(f).rules;
    forall i :: 0 <= i < |rules| ==> Passes(rules[i], Cast(f, v))
  }

  /** The check of one field: no error, or the message of the first rule, in
      declaration order, that the (cast) value fails. */
  function ValidateField(f: Field, v: Value): (r: Option<string>)
    requires Fits(f, v)
    ensures r.None? <==> FieldValid(f, v)
    ensures r.Some? ==> r.value != ""
  {
    var rules := SchemaOf(f).rules;
    var k := FirstFailingRule(rules, Cast(f, v));
    if k == |rules| then None else Some(rules[k].message)
  }

  /** The text stored in the errors record for a check's answer. */
  function ErrorText(r: Option<string>): string {
    r.GetOr("")
  }

  /** The whole-form check: every field satisfies all of its rules. It passes
      exactly when no single-field check reports an error. */
  function ValidateAll(values: FormValues): (ok: bool)
    ensures ok <==> forall f :: ValidateField(f, values.Get(f)) == None
  {
    && FieldValid(Username, values.Get(Username))
    && FieldValid(FavLanguage, values.Get(FavLanguage))
    && FieldValid(FavFood, values.Get(FavFood))
    && FieldValid(Agreement, values.Get(Agreement))
  }

  /** Username: trimmed first, then required, at least 3, at most 20. */
  lemma UsernameMessages(s: string)
    ensures ValidateField(Username, Str(s)) ==
      var t := Trim(s);
      if t == "" then Some(UsernameRequired)
      else if |t| < 3 then Some(UsernameMin)
      else if |t| > 20 then Some(UsernameMax)
      else None
  {
    var rules := SchemaOf(Username).rules;
    var t := Trim(s);
    var v := Cast(Username, Str(s));
    assert v == Str(t);
    var k := FirstFailingRule(rules, v);
    if t == "" {
      assert !Passes(rules[0], v);
      assert k == 0;
    } else if |t| < 3 {
      assert Passes(rules[0], v) && !Passes(rules[1], v);
      assert k == 1;
    } else if |t| > 20 {
      assert Passes(rules[0], v) && Passes(rules[1], v) && !Passes(rules[2], v);
      assert k == 2;
    } else {
      assert Passes(rules[0], v) && Passes(rules[1], v) && Passes(rules[2], v);
      assert k == 3;
    }
  }

  /** The required message is reported exactly for an all-white-space username. */
  lemma UsernameRequiredIffBlank(s: string)
    ensures ValidateField(Username, Str(s)) == Some(UsernameRequired)
      <==> forall k :: 0 <= k < |s| ==> IsWhitespace(s[k])
  {
    UsernameMessages(s);
    TrimEmptyIff(s);
  }

  /** favLanguage: required, then one of javascript and rust. */
  lemma FavLanguageMessages(s: string)
    ensures ValidateField(FavLanguage, Str(s)) ==
      if s == "" then Some(FavLanguageRequired)
      else if s != "javascript" && s != "rust" then Some(FavLanguageOptions)
      else None
  {
    OneOfMessages(FavLanguage, s);
  }

  /** favFood: required, then one of broccoli, spaghetti and pizza. */
  lemma FavFoodMessages(s: string)
    ensures ValidateField(FavFood, Str(s)) ==
      if s == "" then Some(FavFoodRequired)
      else if s != "broccoli" && s != "spaghetti" && s != "pizza" then Some(FavFoodOptions)
      else None
  {
    OneOfMessages(FavFood, s);
  }

  /** A field checked by Required then OneOf reports the first message for the
      empty string, the second for any other value outside the options, and
      nothing for an option. */
  lemma OneOfMessages(f: Field, s: string)
    requires f == FavLanguage || f == FavFood
    ensures var rules := SchemaOf(f).rules;
      ValidateField(f, Str(s)) ==
        if s == "" then Some(rules[0].message)
        else if s !in rules[1].options then Some(rules[1].message)
        else None
  {
    var rules := SchemaOf(f).rules;
    var v := Cast(f, Str(s));
    assert v == Str(s);
    var k := FirstFailingRule(rules, v);
    if s == "" {
      assert !Passes(rules[0], v);
      assert k == 0;
    } else if s !in rules[1].options {
      assert Passes(rules[0], v) && !Passes(rules[1], v);
      assert k == 1;
    } else {
      assert Passes(rules[0], v) && Passes(rules[1], v);
      assert k == 2;
    }
  }

  /** agreement: false reports the isTrue message ("agreement is required");
      the required rule's message ("agreement must be accepted") is bound to a
      missing value, which a boolean field never has, so it never appears. */
  lemma AgreementMessages(b: bool)
    ensures ValidateField(Agreement, Flag(b)) == if b then None else Some(AgreementRequired)
    ensures ValidateField(Agreement, Flag(b)) != Some(AgreementOptions)
  {
    var rules := SchemaOf(Agreement).rules;
    assert rules[1..] == [IsTrue(AgreementRequired)];
  }

  /** The initial (empty) form fails the whole-form check. */
  lemma InitialValuesInvalid()
    ensures !ValidateAll(InitialValues)
  {
    var v := Cast(Username, InitialValues.Get(Username));
    assert v == Str("");
    assert !Passes(SchemaOf(Username).rules[0], v);
  }

  /** The whole-form check in the rules' own terms: a trimmed username of 3
      to 20 characters, a listed language, a listed food, and agreement. */
  lemma ValidateAllExactly(values: FormValues)
    ensures ValidateAll(values) <==>
      && 3 <= |Trim(values.username)| <= 20
      && (values.favLanguage == "javascript" || values.favLanguage == "rust")
      && (values.favFood == "broccoli" || values.favFood == "spaghetti" || values.favFood == "pizza")
      && values.agreement
  {
    UsernameMessages(values.username);
    FavLanguageMessages(values.favLanguage);
    FavFoodMessages(values.favFood);
    AgreementMessages(values.agreement);
    assert ValidateAll(values) <==>
      && ValidateField(Username, values.Get(Username)) == None
      && ValidateField(FavLanguage, values.Get(FavLanguage)) == None
      && ValidateField(FavFood, values.Get(FavFood)) == None
      && ValidateField(Agreement, values.Get(Agreement)) == None;
  }

  /** A two-letter username fails only its min-length rule and keeps the whole
      form invalid. */
  lemma ShortUsernameForm(values: FormValues)
    requires values == FormValues("ab", "rust", "pizza", true)
    ensures ValidateField(Username, values.Get(Username)) == Some(UsernameMin)
    ensures !ValidateAll(values)
  {
    CleanTrim(values.username);
    UsernameMessages(values.username);
  }

  /** A three-letter username with the other fields filled in is a valid form. */
  lemma ValidForm(values: FormValues)
    requires values == FormValues("abc", "rust", "pizza", true)
    ensures ValidateAll(values)
  {
    CleanTrim(values.username);
    ValidateAllExactly(values);
  }

  lemma CleanTrim(s: string)
    requires s == "ab" || s == "abc"
    ensures Trim(s) == s
  {
    assert !IsWhitespace('a') && !IsWhitespace('b') && !IsWhitespace('c');
    TrimKeepsClean(s);
  }
}
