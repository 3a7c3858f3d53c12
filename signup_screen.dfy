/** The sign-up form: its four checks, run together, and the trimmed profile it saves. */
module SignupScreen {
  import opened Base
  import opened Text
  import opened Numbers
  import opened Records
  import opened KeyValue
  import Storage

  const NameInvalid := "* Enter a valid name"
  const ShopInvalid := "* Enter a valid shop name"
  const AddressInvalid := "* Enter a proper address"
  const PhoneInvalid := "* Phone must be 10 digits"

  /** The text in the four fields. */
  datatype SignupForm = SignupForm(name: string, shop: string, address: string, phone: string)

  /** `/^\d{10}$/`: exactly ten ASCII digits and nothing else. */
  predicate IsTenDigits(s: string) {
    |s| == 10 && IsDigits(s)
  }

  /** All four checks pass; lengths are counted in UTF-16 code units after trimming. */
  predicate Accepted(form: SignupForm) {
    Utf16Length(Trim(form.name)) >= 2 && Utf16Length(Trim(form.shop)) >= 2 && Utf16Length(Trim(form.address)) >= 5
    && IsTenDigits(Trim(form.phone))
  }

  /** `validateForm`: every check runs, and each failing field gets its own message. */
  method ValidateSignup(form: SignupForm) returns (errors: map<string, string>)
    ensures "name" in errors <==> Utf16Length(Trim(form.name)) < 2
    ensures "shop" in errors <==> Utf16Length(Trim(form.shop)) < 2
    ensures "address" in errors <==> Utf16Length(Trim(form.address)) < 5
    ensures "phone" in errors <==> !IsTenDigits(Trim(form.phone))
    ensures "name" in errors ==> errors["name"] == NameInvalid
    ensures "shop" in errors ==> errors["shop"] == ShopInvalid
    ensures "address" in errors ==> errors["address"] == AddressInvalid
    ensures "phone" in errors ==> errors["phone"] == PhoneInvalid
    ensures errors.Keys <= {"name", "shop", "address", "phone"}
    ensures errors == map[] <==> Accepted(form)
  {
    errors := map[];
    if Utf16Length(Trim(form.name)) < 2 {
      errors := errors["name" := NameInvalid];
    }
    if Utf16Length(Trim(form.shop)) < 2 {
      errors := errors["shop" := ShopInvalid];
    }
    if Utf16Length(Trim(form.address)) < 5 {
      errors := errors["address" := AddressInvalid];
    }
    if !IsTenDigits(Trim(form.phone)) {
      errors := errors["phone" := PhoneInvalid];
    }
    if !Accepted(form) {
      assert "name" in errors || "shop" in errors || "address" in errors || "phone" in errors;
    }
  }

  /** A phone number of nine or eleven digits, or one with anything but digits once
      trimmed, is refused. */
  lemma PhoneRejected(form: SignupForm)
    requires |Trim(form.phone)| == 9 || |Trim(form.phone)| == 11
             || exists i :: 0 <= i < |Trim(form.phone)| && !IsDigit(Trim(form.phone)[i])
    ensures !Accepted(form)
  {
  }

  /** An emoji is one character but two code units, so a one-emoji name and shop pass the
      two-unit minimum. */
  lemma EmojiNameAccepted()
    ensures Accepted(SignupForm("\U{1F642}", "\U{1F642}", "Main Road", "9876543210"))
  {
    EmojiLength();
    AddressLength();
    PhoneDigits();
  }

  lemma EmojiLength()
    ensures Utf16Length(Trim("\U{1F642}")) == 2
  {
    TrimFixesTrimmed("\U{1F642}");
  }

  lemma AddressLength()
    ensures Utf16Length(Trim("Main Road")) == 9
  {
    TrimFixesTrimmed("Main Road");
    Utf16LengthOfBmp("Main Road");
  }

  lemma PhoneDigits()
    ensures IsTenDigits(Trim("9876543210"))
  {
    TrimFixesTrimmed("9876543210");
  }

  /** The same form with white space added around every field. */
  function Padded(form: SignupForm, before: string, after: string): SignupForm {
    SignupForm(before + form.name + after, before + form.shop + after,
               before + form.address + after, before + form.phone + after)
  }

  /** `trimmed`: the profile `handleSignup` saves. */
  function TrimmedUser(form: SignupForm): User {
    User(Trim(form.name), Trim(form.shop), Trim(form.address), Trim(form.phone))
  }

  /** White space around the fields counts toward no check and is not saved. */
  lemma PaddingIgnored(form: SignupForm, before: string, after: string)
    requires AllSpaces(before) && AllSpaces(after)
    ensures Accepted(Padded(form, before, after)) <==> Accepted(form)
    ensures TrimmedUser(Padded(form, before, after)) == TrimmedUser(form)
  {
    TrimIgnoresPadding(before, form.name, after);
    TrimIgnoresPadding(before, form.shop, after);
    TrimIgnoresPadding(before, form.address, after);
    TrimIgnoresPadding(before, form.phone, after);
  }

  /** A saved profile meets the checks on its own: fed back into the form it is accepted
      and saved unchanged. */
  lemma SavedProfileRoundTrip(form: SignupForm)
    requires Accepted(form)
    ensures var u := TrimmedUser(form);
            Accepted(SignupForm(u.name, u.shop, u.address, u.phone))
            && TrimmedUser(SignupForm(u.name, u.shop, u.address, u.phone)) == u
            && Utf16Length(u.name) >= 2 && Utf16Length(u.shop) >= 2 && Utf16Length(u.address) >= 5 && IsTenDigits(u.phone)
  {
    TrimIdempotent(form.name);
    TrimIdempotent(form.shop);
    TrimIdempotent(form.address);
    TrimIdempotent(form.phone);
  }

  /** `handleSignup`: nothing is saved unless the form is accepted; then the trimmed
      profile is. */
  method HandleSignup(store: KeyValueStore, form: SignupForm) returns (saved: bool)
    modifies store`user
    ensures saved <==> Accepted(form)
    ensures saved ==> store.user == Some(TrimmedUser(form))
    ensures !saved ==> store.user == old(store.user)
  {
    var errors := ValidateSignup(form);
    if errors != map[] {
      return false;
    }
    Storage.SaveUserToStorage(store, TrimmedUser(form));
    saved := true;
  }
}
