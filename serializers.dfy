/**
 * The serializers of the backend (`backend/api/serializers.py`): sign-up
 * validation and user creation, and the cart totals the cart serializers
 * report.
 */
module Serializers {
  import opened Wrappers
  import Naming

  /** `min_length` of the `password` and `password_confirm` fields. */
  const MinPasswordLength := 6

  /**
   * The messages of DRF's `CharField`: the `blank` error, `MinLengthValidator`'s
   * and `ProhibitNullCharactersValidator`'s.
   */
  const BlankMessage := "This field may not be blank."
  const TooShortMessage := "Ensure this field has at least 6 characters."
  const NullCharacterMessage := "Null characters are not allowed."
  const MismatchMessage := "Passwords do not match"

  datatype SignUpData = SignUpData(email: string, firstName: string, lastName: string, password: string, passwordConfirm: string)

  /** One message of the error dictionary, under the field it belongs to. */
  datatype FieldError = FieldError(field: string, message: string)

  /** Python's `str.isspace` on one character: the whitespace `str.strip()` removes. */
  predicate IsSpace(c: char)
  {
    c == ' ' || '\t' <= c <= '\r' || '\U{1C}' <= c <= '\U{1F}' || c == '\U{85}' || c == '\U{A0}' ||
    c == '\U{1680}' || '\U{2000}' <= c <= '\U{200A}' || c == '\U{2028}' || c == '\U{2029}' ||
    c == '\U{202F}' || c == '\U{205F}' || c == '\U{3000}'
  }

  /** `str(data).strip()`. */
  function Trimmed(s: string): string
  {
    Strip(s, IsSpace)
  }

  /** `data == '' or str(data).strip() == ''`: DRF's test for a blank value. */
  predicate Blank(s: string)
  {
    Trimmed(s) == []
  }

  /** A value is blank exactly when it is empty or every character is whitespace. */
  lemma BlankIsAllSpace(s: string)
    ensures Blank(s) <==> forall i :: 0 <= i < |s| ==> IsSpace(s[i])
  {
    StripEmpty(s, IsSpace);
  }

  /**
   * The messages of the field's validators, in the order `CharField` adds
   * them (`MinLengthValidator`, then `ProhibitNullCharactersValidator`);
   * `run_validators` runs every one and collects the message of each that
   * fails.
   */
  function ValidatorMessages(value: string): seq<string>
  {
    (if |value| < MinPasswordLength then [TooShortMessage] else []) +
    (if '\0' in value then [NullCharacterMessage] else [])
  }

  /**
   * `CharField(min_length=6)` with DRF's defaults `trim_whitespace=True`
   * and `allow_blank=False`: blank input fails with the blank error alone;
   * any other input is trimmed and the validators run on the trimmed text,
   * which is the validated value when none of them fails.
   */
  function ValidatePasswordField(raw: string): (r: Result<string, seq<string>>)
    ensures r == Err([BlankMessage]) <==> Blank(raw)
    ensures r.Err? && TooShortMessage in r.error <==> !Blank(raw) && |Trimmed(raw)| < MinPasswordLength
    ensures r.Err? && NullCharacterMessage in r.error <==> '\0' in Trimmed(raw)
    ensures r.Ok? <==> |Trimmed(raw)| >= MinPasswordLength && '\0' !in Trimmed(raw)
    ensures r.Ok? ==> r.value == Trimmed(raw)
    ensures r.Ok? ==> r.value == [] || (!IsSpace(r.value[0]) && !IsSpace(r.value[|r.value| - 1]))
    ensures r.Err? ==> 1 <= |r.error| <= 2
    ensures r.Err? && |r.error| == 2 ==> r.error == [TooShortMessage, NullCharacterMessage]
  {
    var t := Trimmed(raw);
    if t == [] then Err([BlankMessage])
    else
      var messages := ValidatorMessages(t);
      assert messages != [] ==> messages[0][0] != BlankMessage[0];
      if messages != [] then Err(messages) else Ok(t)
  }

  /** The messages of a failed field, each under the field's name, in order. */
  function FieldErrors(field: string, v: Result<string, seq<string>>): (e: seq<FieldError>)
    ensures v.Ok? ==> e == []
    ensures v.Err? ==> |e| == |v.error| && forall i :: 0 <= i < |e| ==> e[i] == FieldError(field, v.error[i])
  {
    if v.Ok? then [] else seq(|v.error|, i requires 0 <= i < |v.error| => FieldError(field, v.error[i]))
  }

  /** The pairs in the error list are exactly the field's messages under its name. */
  lemma FieldErrorsHas(field: string, v: Result<string, seq<string>>, m: string)
    requires v.Err?
    ensures FieldError(field, m) in FieldErrors(field, v) <==> m in v.error
  {
    var e := FieldErrors(field, v);
    if m in v.error {
      var i :| 0 <= i < |v.error| && v.error[i] == m;
      assert e[i] == FieldError(field, m);
    }
  }

  /**
   * Field validation of the two password fields followed, when both pass,
   * by `SignUpSerializer.validate`, which compares the trimmed values. The
   * error dictionary is given as its (field, message) pairs, the fields in
   * declaration order. The email and name fields are validated by the user
   * model and are not modelled here.
   */
  function ValidateSignUp(d: SignUpData): (r: Result<SignUpData, seq<FieldError>>)
    ensures r.Ok? <==> |Trimmed(d.password)| >= MinPasswordLength && |Trimmed(d.passwordConfirm)| >= MinPasswordLength &&
                       '\0' !in Trimmed(d.password) && '\0' !in Trimmed(d.passwordConfirm) &&
                       Trimmed(d.password) == Trimmed(d.passwordConfirm)
    ensures r.Ok? ==> r.value == d.(password := Trimmed(d.password), passwordConfirm := Trimmed(d.passwordConfirm))
    ensures r.Err? ==> r.error != []
    ensures |Trimmed(d.password)| >= MinPasswordLength && |Trimmed(d.passwordConfirm)| >= MinPasswordLength &&
            '\0' !in Trimmed(d.password) && '\0' !in Trimmed(d.passwordConfirm) &&
            Trimmed(d.password) != Trimmed(d.passwordConfirm) ==>
              r == Err([FieldError("password", MismatchMessage)])
    ensures Blank(d.password) ==> r.Err? && FieldError("password", BlankMessage) in r.error
    ensures Blank(d.passwordConfirm) ==> r.Err? && FieldError("password_confirm", BlankMessage) in r.error
    ensures !Blank(d.password) && |Trimmed(d.password)| < MinPasswordLength ==>
              r.Err? && FieldError("password", TooShortMessage) in r.error
    ensures !Blank(d.passwordConfirm) && |Trimmed(d.passwordConfirm)| < MinPasswordLength ==>
              r.Err? && FieldError("password_confirm", TooShortMessage) in r.error
    ensures '\0' in Trimmed(d.password) ==> r.Err? && FieldError("password", NullCharacterMessage) in r.error
    ensures '\0' in Trimmed(d.passwordConfirm) ==> r.Err? && FieldError("password_confirm", NullCharacterMessage) in r.error
  {
    var password := ValidatePasswordField(d.password);
    var confirm := ValidatePasswordField(d.passwordConfirm);
    var fieldErrors := FieldErrors("password", password) + FieldErrors("password_confirm", confirm);
    if password.Err? || confirm.Err? then
      assert password.Err? ==> FieldErrors("password", password) != [];
      assert confirm.Err? ==> FieldErrors("password_confirm", confirm) != [];
      ValidatorErrorsListed(password, confirm, fieldErrors);
      Err(fieldErrors)
    else if password.value != confirm.value then Err([FieldError("password", MismatchMessage)])
    else Ok(d.(password := password.value, passwordConfirm := confirm.value))
  }

  /** Every message of either field appears in the joined error list under its field. */
  lemma ValidatorErrorsListed(password: Result<string, seq<string>>, confirm: Result<string, seq<string>>, errors: seq<FieldError>)
    requires errors == FieldErrors("password", password) + FieldErrors("password_confirm", confirm)
    ensures password.Err? ==> forall m :: m in password.error ==> FieldError("password", m) in errors
    ensures confirm.Err? ==> forall m :: m in confirm.error ==> FieldError("password_confirm", m) in errors
  {
    if password.Err? {
      forall m | m in password.error
        ensures FieldError("password", m) in errors
      {
        FieldErrorsHas("password", password, m);
      }
    }
    if confirm.Err? {
      forall m | m in confirm.error
        ensures FieldError("password_confirm", m) in errors
      {
        FieldErrorsHas("password_confirm", confirm, m);
      }
    }
  }

  /** Trailing whitespace is trimmed before the comparison: "abcdef " confirms "abcdef". */
  lemma TrailingSpaceConfirms(email: string, firstName: string, lastName: string)
    ensures ValidateSignUp(SignUpData(email, firstName, lastName, "abcdef ", "abcdef")) ==
            Ok(SignUpData(email, firstName, lastName, "abcdef", "abcdef"))
  {
    TrimmedAbcdef();
  }

  lemma TrimmedAbcdef()
    ensures Trimmed("abcdef ") == "abcdef" && Trimmed("abcdef") == "abcdef"
  {
    assert !IsSpace('a') && !IsSpace('f') && IsSpace(' ');
    StripPadded("", "abcdef", " ", IsSpace);
    assert "" + "abcdef" + " " == "abcdef ";
  }

  /** The length test sees the trimmed text: "   abc   " is too short rather than long enough. */
  lemma PaddedShortPasswordTooShort(d: SignUpData, core: string)
    requires |core| == 3 && !IsSpace(core[0]) && !IsSpace(core[2])
    requires d.password == "   " + core + "   "
    ensures ValidateSignUp(d).Err?
    ensures FieldError("password", TooShortMessage) in ValidateSignUp(d).error
  {
    var pad := "   ";
    assert forall i :: 0 <= i < |pad| ==> IsSpace(pad[i]);
    StripPadded(pad, core, pad, IsSpace);
  }

  /** A password of spaces is blank, not too short. */
  lemma SpacesAreBlank(d: SignUpData)
    requires d.password == "   "
    ensures ValidateSignUp(d).Err?
    ensures ValidateSignUp(d).error[0] == FieldError("password", BlankMessage)
  {
    TrimmedSpaces();
  }

  lemma TrimmedSpaces()
    ensures Trimmed("   ") == []
  {
    assert IsSpace(' ');
  }

  /** A NUL inside an otherwise valid password fails both fields with the null-character message alone. */
  lemma NullCharacterRejected(email: string, firstName: string, lastName: string)
    ensures ValidateSignUp(SignUpData(email, firstName, lastName, "abcdef\0", "abcdef\0")) ==
            Err([FieldError("password", NullCharacterMessage), FieldError("password_confirm", NullCharacterMessage)])
  {
    var d := SignUpData(email, firstName, lastName, "abcdef\0", "abcdef\0");
    var v := ValidatePasswordField("abcdef\0");
    NullOnlyField();
    SingleFieldError("password", NullCharacterMessage);
    SingleFieldError("password_confirm", NullCharacterMessage);
    assert ValidateSignUp(d) == Err(FieldErrors("password", v) + FieldErrors("password_confirm", v));
    assert [FieldError("password", NullCharacterMessage)] + [FieldError("password_confirm", NullCharacterMessage)] ==
           [FieldError("password", NullCharacterMessage), FieldError("password_confirm", NullCharacterMessage)];
  }

  lemma NullOnlyField()
    ensures ValidatePasswordField("abcdef\0") == Err([NullCharacterMessage])
  {
    var raw := "abcdef\0";
    TrimmedWithNull();
    assert |raw| == 7;
    assert '\0' in raw by { assert raw[6] == '\0'; }
    assert ValidatorMessages(raw) == [] + [NullCharacterMessage];
    assert [] + [NullCharacterMessage] == [NullCharacterMessage];
  }

  lemma SingleFieldError(field: string, m: string)
    ensures FieldErrors(field, Err([m])) == [FieldError(field, m)]
  {
  }

  lemma TrimmedWithNull()
    ensures Trimmed("abcdef\0") == "abcdef\0"
    ensures Trimmed("ab\0") == "ab\0"
  {
    assert !IsSpace('a') && !IsSpace('\0');
  }

  /** A short password holding a NUL gets both validator messages, in validator order. */
  lemma ShortWithNullGetsBoth()
    ensures ValidatePasswordField("ab\0") == Err([TooShortMessage, NullCharacterMessage])
  {
    TrimmedWithNull();
  }

  /** `email.split('@')[0]`: the text before the first '@', or all of it when there is none. */
  function BaseUsername(email: string): (u: string)
    ensures '@' !in u
    ensures |u| <= |email| && email[..|u|] == u
    ensures |u| < |email| ==> email[|u|] == '@'
  {
    if email == [] then []
    else if email[0] == '@' then []
    else [email[0]] + BaseUsername(email[1..])
  }

  /** The user record `create_user` receives. */
  datatype NewUser = NewUser(username: string, password: string, fields: map<string, string>)

  /**
   * `SignUpSerializer.create`: removes both password keys from the
   * validated data, derives the username from the email and makes it
   * unique against `takenUsernames` by appending 1, 2, … with no separator.
   */
  method Create(validatedData: map<string, string>, takenUsernames: set<string>) returns (user: NewUser)
    requires "password" in validatedData && "password_confirm" in validatedData && "email" in validatedData
    ensures user.password == validatedData["password"]
    ensures user.fields == validatedData - {"password", "password_confirm"}
    ensures "password" !in user.fields && "password_confirm" !in user.fields
    ensures user.username !in takenUsernames
    ensures exists k: nat :: user.username == Naming.Name(BaseUsername(validatedData["email"]), "", k) &&
              forall j :: 0 <= j < k ==> Naming.Name(BaseUsername(validatedData["email"]), "", j) in takenUsernames
  {
    var data := validatedData;
    data := data - {"password_confirm"};
    var password := data["password"];
    data := data - {"password"};
    var email := data["email"];
    var username := Naming.FirstFree(BaseUsername(email), "", takenUsernames);
    user := NewUser(username, password, data);
  }

  /** A cart item as the cart serializers read it: the product's sale price and the quantity. */
  datatype Item = Item(salePrice: real, quantity: int)

  /** `CartItemSerializer.get_sub_total`. */
  function SubTotal(item: Item): real
  {
    item.salePrice * item.quantity as real
  }

  /** `CartSerializer.get_cart_total`: the sum of quantity times sale price. */
  function CartTotal(items: seq<Item>): real
  {
    if items == [] then 0.0 else items[0].quantity as real * items[0].salePrice + CartTotal(items[1..])
  }

  /** `CartStatSerializer.get_total_quantity`: the sum of the quantities. */
  function TotalQuantity(items: seq<Item>): int
  {
    if items == [] then 0 else items[0].quantity + TotalQuantity(items[1..])
  }

  lemma {:induction false} CartTotalAppend(a: seq<Item>, b: seq<Item>)
    ensures CartTotal(a + b) == CartTotal(a) + CartTotal(b)
  {
    if a == [] {
      assert a + b == b;
    } else {
      assert (a + b)[1..] == a[1..] + b;
      CartTotalAppend(a[1..], b);
    }
  }

  lemma {:induction false} TotalQuantityAppend(a: seq<Item>, b: seq<Item>)
    ensures TotalQuantity(a + b) == TotalQuantity(a) + TotalQuantity(b)
  {
    if a == [] {
      assert a + b == b;
    } else {
      assert (a + b)[1..] == a[1..] + b;
      TotalQuantityAppend(a[1..], b);
    }
  }

  /** The cart total is the sum of the line sub-totals the same response reports. */
  lemma {:induction false} CartTotalIsSumOfSubTotals(items: seq<Item>)
    ensures items == [] ==> CartTotal(items) == 0.0
    ensures items != [] ==> CartTotal(items) == SubTotal(items[0]) + CartTotal(items[1..])
  {
  }

  /** With positive quantities and non-negative prices the total is non-negative and the quantity at least the item count. */
  lemma {:induction false} TotalsOfPositiveItems(items: seq<Item>)
    requires forall i :: 0 <= i < |items| ==> items[i].quantity >= 1 && items[i].salePrice >= 0.0
    ensures CartTotal(items) >= 0.0
    ensures TotalQuantity(items) >= |items|
  {
    if items != [] {
      TotalsOfPositiveItems(items[1..]);
    }
  }
}
