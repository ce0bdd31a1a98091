/** The store-profile editor of My Page (`MyPageEdit.jsx`): a form of
    three text fields, a recogniser for Korean mobile numbers, and a
    submit that checks the name, then the address, then the phone before
    it hands on the trimmed values. */
module ProfileEdit {
  import opened Base
  import opened Text

  // ----- the phone recogniser -----

  /** The third digit of a mobile number: 0, 1, 6, 7, 8 or 9. */
  predicate IsCarrierDigit(c: char)
  {
    c == '0' || c == '1' || c == '6' || c == '7' || c == '8' || c == '9'
  }

  /** `phoneRegex.test(s)` for `/^01[016789]-\d{3,4}-\d{4}$/`: "01", a
      carrier digit, a dash, three or four digits, a dash and four digits,
      with nothing else on either side. */
  function PhoneMatches(s: string): (r: bool)
    ensures r ==> Trim(s) == s
  {
    assert (|s| == 12 || |s| == 13) && s[0] == '0' && AllDigits(s[|s| - 4..]) ==> Trim(s) == s by {
      if (|s| == 12 || |s| == 13) && s[0] == '0' && AllDigits(s[|s| - 4..]) {
        assert IsDigit(s[|s| - 4..][3]);
        TrimOfUnpadded(s);
      }
    }
    && (|s| == 12 || |s| == 13)
    && s[0] == '0' && s[1] == '1' && IsCarrierDigit(s[2]) && s[3] == '-'
    && AllDigits(s[4..|s| - 5]) && s[|s| - 5] == '-' && AllDigits(s[|s| - 4..])
  }

  /** The numbers the pattern describes: "01", a carrier digit, and the
      middle and last groups, dash-separated. */
  function Phone(carrier: char, middle: string, last: string): string
  {
    "01" + [carrier] + "-" + middle + "-" + last
  }

  /** Every number built from a carrier digit, three or four digits and
      four digits is recognised ... */
  lemma PhoneOfParts(carrier: char, middle: string, last: string)
    requires IsCarrierDigit(carrier)
    requires (|middle| == 3 || |middle| == 4) && AllDigits(middle)
    requires |last| == 4 && AllDigits(last)
    ensures PhoneMatches(Phone(carrier, middle, last))
  {
    var s := Phone(carrier, middle, last);
    assert s[4..|s| - 5] == middle;
    assert s[|s| - 4..] == last;
  }

  /** ... and everything recognised is such a number. */
  lemma PartsOfPhone(s: string)
    requires PhoneMatches(s)
    ensures exists carrier, middle, last ::
      && IsCarrierDigit(carrier)
      && (|middle| == 3 || |middle| == 4) && AllDigits(middle)
      && |last| == 4 && AllDigits(last)
      && s == Phone(carrier, middle, last)
  {
    var middle, last := s[4..|s| - 5], s[|s| - 4..];
    assert s == Phone(s[2], middle, last);
  }

  /** `isPhoneValid`: the trimmed phone is empty or a mobile number. */
  function IsPhoneValid(phone: string): (r: bool)
    ensures AllSpace(phone) ==> r
    ensures r && !AllSpace(phone) ==> PhoneMatches(Trim(phone))
  {
    TrimEmptyIffAllSpace(phone);
    Trim(phone) == "" || PhoneMatches(Trim(phone))
  }

  // ----- the form -----

  datatype Profile = Profile(name: string, phone: string, address: string)

  /** The store record the form starts from; a missing field is `None`. */
  datatype StoreInfo = StoreInfo(name: Option<string>, phone: Option<string>, address: Option<string>)

  /** The three inputs, by their `name` attribute. */
  datatype FieldName = NameField | PhoneField | AddressField

  const NameRequired := "상호명은 필수입니다."
  const AddressRequired := "주소는 필수입니다."
  const PhoneMalformed := "전화번호 형식이 올바르지 않습니다. 예) 010-1234-5678"
  const LoadFailed := "정보 불러오기에 실패했어요."
  const SaveFailed := "수정 중 오류가 발생했어요."

  /** The form filled from a store record, `""` for every missing field
      (a missing record leaves all three empty). */
  function FormOf(store: Option<StoreInfo>): (f: Profile)
    ensures store.None? ==> f == Profile("", "", "")
    ensures store.Some? ==>
      f == Profile(store.value.name.GetOr(""), store.value.phone.GetOr(""), store.value.address.GetOr(""))
  {
    match store
    case None => Profile("", "", "")
    case Some(s) => Profile(s.name.GetOr(""), s.phone.GetOr(""), s.address.GetOr(""))
  }

  /** `onChange`: one field replaced. */
  function WithField(f: Profile, field: FieldName, value: string): (r: Profile)
    ensures field == NameField ==> r == f.(name := value)
    ensures field == PhoneField ==> r == f.(phone := value)
    ensures field == AddressField ==> r == f.(address := value)
  {
    match field
    case NameField => f.(name := value)
    case PhoneField => f.(phone := value)
    case AddressField => f.(address := value)
  }

  /** What one submit decides on the trimmed fields: the first rule they
      break, or the values to save. */
  function Check(name: string, phone: string, address: string): (r: Result<Profile, string>)
    ensures r.Ok? <==> name != "" && address != "" && (phone == "" || PhoneMatches(phone))
    ensures r.Ok? ==> r.value == Profile(name, phone, address)
    ensures r.Err? ==> r.error in {NameRequired, AddressRequired, PhoneMalformed}
  {
    if name == "" then Err(NameRequired)
    else if address == "" then Err(AddressRequired)
    else if phone != "" && !PhoneMatches(phone) then Err(PhoneMalformed)
    else Ok(Profile(name, phone, address))
  }

  /** The decision of one submit on the form as typed: the name is
      checked first, then the address, then the phone; a form passes
      exactly when its trimmed name and address are not empty and its
      phone is valid, and what passes is the trimmed form. */
  function Validate(f: Profile): (r: Result<Profile, string>)
    ensures r.Ok? <==> Trim(f.name) != "" && Trim(f.address) != "" && IsPhoneValid(f.phone)
    ensures r.Ok? ==> r.value == Profile(Trim(f.name), Trim(f.phone), Trim(f.address))
    ensures Trim(f.name) == "" ==> r == Err(NameRequired)
    ensures Trim(f.name) != "" && Trim(f.address) == "" ==> r == Err(AddressRequired)
    ensures r == Err(PhoneMalformed) <==>
      Trim(f.name) != "" && Trim(f.address) != "" && !IsPhoneValid(f.phone)
  {
    Check(Trim(f.name), Trim(f.phone), Trim(f.address))
  }

  /** The saved values pass again unchanged. */
  lemma ValidateIdempotent(f: Profile)
    requires Validate(f).Ok?
    ensures Validate(Validate(f).value) == Validate(f)
  {
    var n, ph, a := Trim(f.name), Trim(f.phone), Trim(f.address);
    assert Trim(n) == n && Trim(ph) == ph && Trim(a) == a by {
      TrimIdempotent(f.name);
      TrimIdempotent(f.phone);
      TrimIdempotent(f.address);
    }
    assert Validate(f).value == Profile(n, ph, a);
    assert Validate(Profile(n, ph, a)) == Check(n, ph, a);
  }

  class ProfileEditor {
    var form: Profile
    var loading: bool
    var saving: bool
    var error: string
    var phoneTouched: bool

    /** The phone input is marked once it was touched and is invalid. */
    predicate PhoneMarked()
      reads this
    {
      phoneTouched && !IsPhoneValid(form.phone)
    }

    constructor ()
      ensures form == Profile("", "", "") && loading && !saving && error == "" && !phoneTouched
    {
      form := Profile("", "", "");
      loading := true;
      saving := false;
      error := "";
      phoneTouched := false;
    }

    /** The first effect, with the `initialStore` prop or the fetched
        record (`None` for a null one). */
    method Load(store: Option<StoreInfo>)
      modifies this`form, this`loading
      ensures form == FormOf(store) && !loading
    {
      form := FormOf(store);
      loading := false;
    }

    /** The first effect when the fetch fails; `message` is the server's
        message, `""` when it has none. */
    method LoadError(message: string)
      modifies this`error, this`loading
      ensures error == (if message != "" then message else LoadFailed) && !loading
    {
      error := if message != "" then message else LoadFailed;
      loading := false;
    }

    /** `onChange`: only the named field changes. */
    method OnChange(field: FieldName, value: string)
      modifies this`form
      ensures form == WithField(old(form), field, value)
    {
      form := WithField(form, field, value);
    }

    /** The phone input's `onBlur`. */
    method PhoneBlur()
      modifies this`phoneTouched
      ensures phoneTouched
      ensures PhoneMarked() <==> !IsPhoneValid(form.phone)
    {
      phoneTouched := true;
    }

    /** `onSubmit` up to the request: clears the error, stops at the first
        broken rule with its message (a bad phone also marks the phone
        field), and otherwise returns the trimmed payload. */
    method Submit() returns (payload: Option<Profile>)
      modifies this`error, this`phoneTouched
      ensures Validate(form).Ok? ==> payload == Some(Validate(form).value) && error == ""
      ensures Validate(form).Err? ==> payload == None && error == Validate(form).error
      ensures phoneTouched == (old(phoneTouched) || Validate(form) == Err(PhoneMalformed))
      ensures Validate(form) == Err(PhoneMalformed) ==> PhoneMarked()
    {
      var name, phone, address := Trim(form.name), Trim(form.phone), Trim(form.address);
      assert Validate(form) == Check(name, phone, address);
      error := "";
      if name == "" {
        error := NameRequired;
        payload := None;
      } else if address == "" {
        error := AddressRequired;
        payload := None;
      } else if phone != "" && !PhoneMatches(phone) {
        phoneTouched := true;
        error := PhoneMalformed;
        payload := None;
      } else {
        payload := Some(Profile(name, phone, address));
      }
    }

    /** The end of `onSubmit`: `updated` is the server's answer, `None`
        when it answered nothing, or the failure's message (`""` when it
        has none). Returns what is handed to `onSaved`. */
    method FinishSave(payload: Profile, response: Result<Option<Profile>, string>) returns (saved: Option<Profile>)
      modifies this`error, this`saving
      ensures !saving
      ensures response.Ok? ==> saved == Some(response.value.GetOr(payload)) && error == old(error)
      ensures response.Err? ==>
        saved == None && error == (if response.error != "" then response.error else SaveFailed)
    {
      saving := true;
      match response {
        case Ok(updated) =>
          saved := Some(updated.GetOr(payload));
        case Err(message) =>
          error := if message != "" then message else SaveFailed;
          saved := None;
      }
      saving := false;
    }
  }
}
