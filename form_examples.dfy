/** The two rule tables the views hand to the form controller
    (src/components/UserForm.tsx, src/components/PostForm.tsx), with their
    regular expressions written out as predicates, and what the controller
    makes of some values under them. */
module FormExamples {
  import opened Wrappers
  import opened Text
  import opened Types
  import opened UseForm

  predicate IsAsciiAlnum(c: char) {
    'a' <= c <= 'z' || 'A' <= c <= 'Z' || '0' <= c <= '9'
  }

  /** `/^[a-zA-Z0-9._-]+$/` */
  predicate UsernamePattern(s: string)
    ensures UsernamePattern(s) ==> forall i :: 0 <= i < |s| ==> !IsWhiteSpace(s[i]) && s[i] != '@'
    ensures UsernamePattern(s) ==> !IsBlank(s)
  {
    UsernameCharsAreVisible(s);
    |s| > 0 && forall i :: 0 <= i < |s| ==> IsUsernameChar(s[i])
  }

  predicate IsUsernameChar(c: char) {
    IsAsciiAlnum(c) || c == '.' || c == '_' || c == '-'
  }

  /** Letters, digits, `.`, `_` and `-` are neither white space nor `@`, so
      a run of them is not blank. */
  lemma UsernameCharsAreVisible(s: string)
    ensures (forall i :: 0 <= i < |s| ==> IsUsernameChar(s[i])) ==>
              forall i :: 0 <= i < |s| ==> !IsWhiteSpace(s[i]) && s[i] != '@'
    ensures |s| > 0 && (forall i :: 0 <= i < |s| ==> IsUsernameChar(s[i])) ==> !IsBlank(s)
  {
    if forall i :: 0 <= i < |s| ==> IsUsernameChar(s[i]) {
      forall i | 0 <= i < |s|
        ensures !IsWhiteSpace(s[i]) && s[i] != '@'
      {
        assert IsUsernameChar(s[i]);
      }
      if |s| > 0 {
        BlankIffAllWhiteSpace(s);
        assert !IsWhiteSpace(s[0]);
      }
    }
  }

  /** `/^[\d\s()+-]+$/` */
  predicate PhonePattern(s: string)
    ensures PhonePattern(s) ==> forall i :: 0 <= i < |s| ==> !IsAsciiAlnum(s[i]) || IsDigit(s[i])
    ensures |s| > 0 && AllDigits(s) ==> PhonePattern(s)
  {
    |s| > 0 && forall i :: 0 <= i < |s| ==> IsDigit(s[i]) || IsWhiteSpace(s[i]) || s[i] in "()+-"
  }

  /** `[^\s@]+`: a non-empty run without white space or `@`. */
  predicate IsEmailPart(s: string) {
    |s| > 0 && forall i :: 0 <= i < |s| ==> !IsWhiteSpace(s[i]) && s[i] != '@'
  }

  /** `/^[^\s@]+@[^\s@]+\.[^\s@]+$/` */
  predicate EmailPattern(s: string)
    ensures EmailPattern(s) ==> 5 <= |s| && '@' in s && !IsWhiteSpace(s[0]) && s[0] != '@'
  {
    exists at, dot | 0 < at < dot < |s| ::
      s[at] == '@' && s[dot] == '.'
      && IsEmailPart(s[..at]) && IsEmailPart(s[at + 1..dot]) && IsEmailPart(s[dot + 1..])
  }

  /** `[a-zA-Z0-9]([a-zA-Z0-9-]{0,61}[a-zA-Z0-9])?`: 1 to 63 characters,
      letters, digits and hyphens, starting and ending with no hyphen. */
  predicate IsHostLabel(s: string) {
    && 0 < |s| <= 63
    && IsAsciiAlnum(s[0]) && IsAsciiAlnum(s[|s| - 1])
    && forall i :: 0 <= i < |s| ==> IsAsciiAlnum(s[i]) || s[i] == '-'
  }

  /** The index of the first `c` in `s`, or `|s|`. */
  function IndexOf(s: string, c: char): (k: nat)
    ensures k <= |s| && (k < |s| ==> s[k] == c)
    ensures forall i :: 0 <= i < k ==> s[i] != c
  {
    if |s| == 0 || s[0] == c then 0 else 1 + IndexOf(s[1..], c)
  }

  /** `/^L(\.L)*$/` for the label `L` above: dot-separated labels. */
  predicate WebsitePattern(s: string)
    ensures WebsitePattern(s) ==> |s| > 0 && IsAsciiAlnum(s[0]) && IsAsciiAlnum(s[|s| - 1])
    ensures WebsitePattern(s) ==> forall i :: 0 <= i < |s| ==> IsAsciiAlnum(s[i]) || s[i] == '-' || s[i] == '.'
    decreases |s|
  {
    var k := IndexOf(s, '.');
    IsHostLabel(s[..k]) && (k == |s| || WebsitePattern(s[k + 1..]))
  }

  function Rule(required: bool, minLength: Option<int>, maxLength: Option<int>,
                pattern: Option<string -> bool>): ValidationRule
  {
    ValidationRule(required, minLength, maxLength, pattern, None)
  }

  /** The user form's rules: every field but the website is required, the
      name and the username have length bounds, and all but the name have a
      pattern. No rule has a custom check. */
  function UserFormRules(): (rules: Rules)
    ensures rules.Keys == {"name", "username", "email", "phone", "website"}
    ensures forall field :: field in rules ==> (rules[field].required <==> field != "website")
    ensures forall field :: field in rules ==> rules[field].custom.None?
    ensures forall field :: field in rules ==> (rules[field].pattern.None? <==> field == "name")
    ensures rules["name"].minLength == Some(2) && rules["name"].maxLength == Some(50)
    ensures rules["username"].minLength == Some(3) && rules["username"].maxLength == Some(20)
    ensures rules["username"].pattern == Some(UsernamePattern)
    ensures rules["email"].pattern == Some(EmailPattern)
    ensures rules["phone"].pattern == Some(PhonePattern)
    ensures rules["website"].pattern == Some(WebsitePattern)
  {
    map[
      "name" := Rule(true, Some(2), Some(50), None),
      "username" := Rule(true, Some(3), Some(20), Some(UsernamePattern)),
      "email" := Rule(true, None, None, Some(EmailPattern)),
      "phone" := Rule(true, None, None, Some(PhonePattern)),
      "website" := Rule(false, None, None, Some(WebsitePattern))]
  }

  /** The post form's rules: a required title of 5 to 100 characters and a
      required body of 10 to 1000, with no pattern or custom check. */
  function PostFormRules(): (rules: Rules)
    ensures rules.Keys == {"title", "body"}
    ensures forall field :: field in rules ==>
              rules[field].required && rules[field].pattern.None? && rules[field].custom.None?
    ensures rules["title"].minLength == Some(5) && rules["title"].maxLength == Some(100)
    ensures rules["body"].minLength == Some(10) && rules["body"].maxLength == Some(1000)
  {
    map[
      "title" := Rule(true, Some(5), Some(100), None),
      "body" := Rule(true, Some(10), Some(1000), None)]
  }

  /** The user form's initial values when creating a user. */
  function BlankUser(): Values {
    map["name" := "", "username" := "", "email" := "", "phone" := "", "website" := ""]
  }

  /** A username shorter than 3 characters is reported as too short, before
      the pattern is tried. */
  lemma ShortUsernameReportsLength(values: Values, v: string)
    requires !IsBlank(v) && |v| < 3
    ensures ValidateField(UserFormRules(), values["username" := v], "username") ==
            Some(MinLengthMessage("username", 3))
  {
    var vs := values["username" := v];
    assert FieldValue(vs, "username") == v;
    NonBlankCheckOrder(UserFormRules(), vs, "username");
  }

  /** `"ab cd"` has an allowed length but a space the pattern rejects. */
  lemma UsernameWithSpaceIsMalformed(values: Values)
    ensures ValidateField(UserFormRules(), values["username" := "ab cd"], "username") ==
            Some(FormatMessage("username"))
  {
    var vs := values["username" := "ab cd"];
    assert FieldValue(vs, "username") == "ab cd";
    assert !IsBlank("ab cd") by { BlankIffAllWhiteSpace("ab cd"); assert !IsWhiteSpace("ab cd"[0]); }
    assert !UsernamePattern("ab cd") by { assert "ab cd"[2] == ' '; }
    NonBlankCheckOrder(UserFormRules(), vs, "username");
  }

  /** The optional website passes when empty or blank, its pattern unused. */
  lemma EmptyWebsiteIsFine(values: Values)
    ensures ValidateField(UserFormRules(), values["website" := ""], "website") == None
    ensures ValidateField(UserFormRules(), values["website" := "  "], "website") == None
  {
    assert FieldValue(values["website" := ""], "website") == "";
    assert FieldValue(values["website" := "  "], "website") == "  ";
    BlankIffAllWhiteSpace("  ");
  }

  /** A name of spaces is as missing as an empty one. */
  lemma BlankNameIsRequired(values: Values)
    ensures ValidateField(UserFormRules(), values["name" := "   "], "name") ==
            Some(RequiredMessage("name"))
  {
    assert FieldValue(values["name" := "   "], "name") == "   ";
    assert AllWhiteSpace("   ") by {
      forall i | 0 <= i < 3 ensures IsWhiteSpace("   "[i]) { assert "   "[i] == ' '; }
    }
    BlankIffAllWhiteSpace("   ");
  }

  /** Length counts the untrimmed value: `" a"` meets a minimum of 2. */
  lemma LengthIsUntrimmed(values: Values)
    ensures ValidateField(UserFormRules(), values["name" := " a"], "name") == None
  {
    var vs := values["name" := " a"];
    assert FieldValue(vs, "name") == " a";
    assert !IsBlank(" a") by { BlankIffAllWhiteSpace(" a"); assert !IsWhiteSpace(" a"[1]); }
    NonBlankCheckOrder(UserFormRules(), vs, "name");
  }

  /** A post title that is not blank but shorter than 5 characters, such as
      `Hi`, is too short. */
  lemma ShortPostTitle(values: Values, v: string)
    requires !IsBlank(v) && |v| < 5
    ensures ValidateField(PostFormRules(), values["title" := v], "title") ==
            Some(MinLengthMessage("title", 5))
  {
    var vs := values["title" := v];
    assert FieldValue(vs, "title") == v;
    NonBlankCheckOrder(PostFormRules(), vs, "title");
  }

  /** A post body that is not blank and longer than 1000 characters is too
      long. */
  lemma LongPostBody(values: Values, v: string)
    requires !IsBlank(v) && |v| > 1000
    ensures ValidateField(PostFormRules(), values["body" := v], "body") ==
            Some(MaxLengthMessage("body", 1000))
  {
    var vs := values["body" := v];
    assert FieldValue(vs, "body") == v;
    NonBlankCheckOrder(PostFormRules(), vs, "body");
  }

  lemma BlankUserFields()
    ensures BlankUser().Keys == {"name", "username", "email", "phone", "website"}
    ensures forall field :: field in BlankUser() ==> BlankUser()[field] == ""
  {
  }

  /** A blank new-user form reads as valid until it is submitted, and then
      cannot be submitted. */
  lemma BlankUserFormIsValidUntilSubmitted(form: FormController)
    requires form.IsPristine() && form.values == BlankUser() && form.rules == UserFormRules()
    ensures form.IsValid()
    ensures !NoErrors(AllErrors(UserFormRules(), BlankUser()))
  {
    PristineFormReadsValid(form, "name");
  }

  /** Touching an empty required name records the error; typing clears it
      again without validating. */
  method TouchThenType() returns (afterTouch: string, afterTyping: string)
    ensures afterTouch == "name is required"
    ensures afterTyping == ""
  {
    var form := new FormController(BlankUser(), UserFormRules(), true);
    form.SetTouched("name");
    afterTouch := form.errors["name"];
    form.SetValue("name", "B");
    afterTyping := form.errors["name"];
  }

  /** A blank new-user form reads as valid before it is submitted;
      submitting it then calls nothing, touches every field and leaves the
      form invalid. */
  method SubmitBlankUserForm()
    returns (validBefore: bool, called: bool, validAfter: bool, touched: map<string, bool>)
    ensures validBefore && !called && !validAfter
    ensures touched.Keys == {"name", "username", "email", "phone", "website"}
    ensures forall field :: field in touched ==> touched[field]
  {
    var form := new FormController(BlankUser(), UserFormRules(), true);
    BlankUserFormIsValidUntilSubmitted(form);
    validBefore := form.IsValid();
    BlankUserFields();
    called := form.HandleSubmit();
    validAfter := form.IsValid();
    touched := form.touched;
  }
}
