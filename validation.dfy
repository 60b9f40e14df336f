/** The checks made before any state changes: the API key entered in the
    settings dialog (`saveApiConfig`, js/app.js:83-95) and the required form
    fields (`handleFormSubmit`, js/app.js:499-507). */
module Validation {
  import opened Wrappers
  import opened Text
  import opened Property

  const EmptyKeyMessage: string := "\U{274C} Please enter a valid API key."
  const MalformedKeyMessage: string := "\U{274C} Please enter a valid Gemini API key "
    + "(should start with \"AIza\")."

  /** The prefix every Gemini API key starts with. */
  const KeyPrefix: string := "AIza"

  /** The shortest key, in UTF-16 code units, that is accepted. */
  const MinimumKeyLength: nat := 30

  /** The key check of `saveApiConfig`: the entered text is trimmed; an
      empty key and a key without the prefix or shorter than 30 code units
      are refused with their messages; otherwise the trimmed key is the one
      to store. */
  function ValidateApiKey(entered: string): Result<string, string>
  {
    CheckTrimmedKey(Trim(entered))
  }

  /** The two checks made on the trimmed key. */
  function CheckTrimmedKey(key: string): Result<string, string>
  {
    if key == "" then Failure(EmptyKeyMessage)
    else if !StartsWith(key, KeyPrefix) || Utf16Length(key) < MinimumKeyLength then
      Failure(MalformedKeyMessage)
    else Success(key)
  }

  /** A key is accepted exactly when its trimmed form starts with the prefix
      and is at least 30 code units long; what is stored is that trimmed
      form, which carries no surrounding whitespace. */
  lemma ValidateApiKeyAccepts(entered: string)
    ensures ValidateApiKey(entered).Success? <==>
      StartsWith(Trim(entered), KeyPrefix) && Utf16Length(Trim(entered)) >= MinimumKeyLength
    ensures ValidateApiKey(entered).Success? ==>
      var key := ValidateApiKey(entered).value;
      key == Trim(entered) && !IsWhitespace(key[0]) && !IsWhitespace(key[|key| - 1])
    ensures ValidateApiKey(entered).Failure? ==>
      (ValidateApiKey(entered).error == EmptyKeyMessage <==> Trim(entered) == "")
  {
    CheckTrimmedKeyAccepts(Trim(entered));
    TrimEnds(entered);
  }

  /** The checks on a trimmed key: it passes exactly when it starts with the
      prefix and is long enough, and then it is kept as it is; the empty-key
      message is given exactly for the empty key. */
  lemma CheckTrimmedKeyAccepts(key: string)
    ensures CheckTrimmedKey(key).Success? <==>
      StartsWith(key, KeyPrefix) && Utf16Length(key) >= MinimumKeyLength
    ensures CheckTrimmedKey(key).Success? ==> CheckTrimmedKey(key).value == key
    ensures CheckTrimmedKey(key).Failure? ==>
      (CheckTrimmedKey(key).error == EmptyKeyMessage <==> key == "")
  {
    if StartsWith(key, KeyPrefix) {
      assert key != "";
    }
    assert EmptyKeyMessage != MalformedKeyMessage by {
      assert EmptyKeyMessage[23] != MalformedKeyMessage[23];
    }
  }

  /** Trimming a string that has no surrounding whitespace changes nothing. */
  lemma TrimOfTrimmed(s: string)
    requires s != [] ==> !IsWhitespace(s[0]) && !IsWhitespace(s[|s| - 1])
    ensures Trim(s) == s
  {
  }

  /** A stored key passes the check again unchanged. */
  lemma ValidateApiKeyIdempotent(entered: string)
    requires ValidateApiKey(entered).Success?
    ensures ValidateApiKey(ValidateApiKey(entered).value) == ValidateApiKey(entered)
  {
    var key := Trim(entered);
    TrimEnds(entered);
    TrimOfTrimmed(key);
    assert ValidateApiKey(key) == CheckTrimmedKey(key);
  }

  /** The fields that must be filled in, in the order they are checked. */
  const RequiredFields: seq<string> :=
    ["address", "city", "state", "zipCode", "price", "propertyType"]

  /** `formData.get(field)` is present and not blank once trimmed. */
  predicate Filled(data: FormData, field: string)
  {
    field in data && Trim(data[field]) != ""
  }

  /** `name.replace(/([A-Z])/g, ' $1')`: a space before every ASCII
      capital. */
  function SpaceBeforeCapitals(name: string): (r: string)
    ensures |r| >= |name|
  {
    if name == [] then []
    else (if 'A' <= name[0] <= 'Z' then [' ', name[0]] else [name[0]])
         + SpaceBeforeCapitals(name[1..])
  }

  /** A camel-case field name as the message shows it: "zipCode" reads
      "zip code". */
  function HumaniseFieldName(name: string): string
  {
    AsciiLower(SpaceBeforeCapitals(name))
  }

  /** `s` holds no ASCII capital. */
  predicate NoCapitals(s: string)
  {
    forall i :: 0 <= i < |s| ==> !('A' <= s[i] <= 'Z')
  }

  /** Spacing inserts one space for each capital; a name without capitals
      is kept as it is. */
  lemma {:induction false} HumaniseShape(name: string)
    ensures |SpaceBeforeCapitals(name)| == |name| + CountCapitals(name)
    ensures CountCapitals(name) == 0 ==> SpaceBeforeCapitals(name) == name
  {
    if name != [] {
      HumaniseShape(name[1..]);
    }
  }

  /** A humanised name holds no capital letter. */
  lemma HumanisedIsLowerCase(name: string)
    ensures NoCapitals(HumaniseFieldName(name))
  {
    var spaced := SpaceBeforeCapitals(name);
    var shown := AsciiLower(spaced);
    forall i | 0 <= i < |shown| ensures !('A' <= shown[i] <= 'Z') {
      assert shown[i] == LowerChar(spaced[i]);
    }
  }

  /** `s` with every space removed. */
  function DropSpaces(s: string): string
  {
    if s == [] then [] else (if s[0] == ' ' then [] else [s[0]]) + DropSpaces(s[1..])
  }

  /** Removing spaces distributes over concatenation. */
  lemma {:induction false} DropSpacesAppend(a: string, b: string)
    ensures DropSpaces(a + b) == DropSpaces(a) + DropSpaces(b)
  {
    if a == [] {
      assert a + b == b;
    } else {
      var ab := a + b;
      assert ab[0] == a[0] && ab[1..] == a[1..] + b;
      var head := if a[0] == ' ' then [] else [a[0]];
      assert DropSpaces(a) == head + DropSpaces(a[1..]);
      DropSpacesAppend(a[1..], b);
      assert DropSpaces(ab) == head + (DropSpaces(a[1..]) + DropSpaces(b));
    }
  }

  /** Lower-casing neither creates nor removes spaces. */
  lemma {:induction false} DropSpacesLower(s: string)
    ensures DropSpaces(AsciiLower(s)) == AsciiLower(DropSpaces(s))
  {
    if s != [] {
      var lower := AsciiLower(s);
      assert lower == [LowerChar(s[0])] + AsciiLower(s[1..]);
      DropSpacesLower(s[1..]);
      var head := if s[0] == ' ' then [] else [s[0]];
      DropSpacesAppend(head, DropSpaces(s[1..]));
      assert AsciiLower(head + DropSpaces(s[1..])) == AsciiLower(head) + AsciiLower(DropSpaces(s[1..]));
    }
  }

  /** Humanising only inserts spaces: with the spaces taken out, the
      spaced name is the name, and the humanised name is the name in lower
      case. For a field name, which has no spaces, this gives back the
      name's letters in order. */
  lemma {:induction false} HumaniseOnlyInsertsSpaces(name: string)
    ensures DropSpaces(SpaceBeforeCapitals(name)) == DropSpaces(name)
    ensures DropSpaces(HumaniseFieldName(name)) == AsciiLower(DropSpaces(name))
  {
    if name != [] {
      HumaniseOnlyInsertsSpaces(name[1..]);
      var head := if 'A' <= name[0] <= 'Z' then [' ', name[0]] else [name[0]];
      DropSpacesAppend(head, SpaceBeforeCapitals(name[1..]));
      assert DropSpaces(head) == (if name[0] == ' ' then [] else [name[0]]);
    }
    DropSpacesLower(SpaceBeforeCapitals(name));
  }

  /** Every ASCII capital of `s` has a space right before it. */
  predicate CapitalsFollowSpaces(s: string)
  {
    forall i :: 0 <= i < |s| && 'A' <= s[i] <= 'Z' ==> i > 0 && s[i - 1] == ' '
  }

  /** Every capital of the spaced name has a space right before it. */
  lemma {:induction false} SpaceBeforeEachCapital(name: string)
    ensures CapitalsFollowSpaces(SpaceBeforeCapitals(name))
  {
    if name != [] {
      SpaceBeforeEachCapital(name[1..]);
      var head := if 'A' <= name[0] <= 'Z' then [' ', name[0]] else [name[0]];
      var rest := SpaceBeforeCapitals(name[1..]);
      var spaced := head + rest;
      forall i | 0 <= i < |spaced| && 'A' <= spaced[i] <= 'Z'
        ensures i > 0 && spaced[i - 1] == ' '
      {
        if i >= |head| {
          var j := i - |head|;
          assert spaced[i] == rest[j];
          assert spaced[i - 1] == rest[j - 1];
        } else {
          assert spaced[i] == head[i];
          assert spaced[0] == head[0];
        }
      }
    }
  }

  /** A name with no capital is shown as it is. */
  lemma {:induction false} LowerNameUnchanged(name: string)
    requires NoCapitals(name)
    ensures SpaceBeforeCapitals(name) == name
    ensures HumaniseFieldName(name) == name
  {
    if name != [] {
      assert NoCapitals(name[1..]) by {
        forall i | 0 <= i < |name[1..]| ensures !('A' <= name[1..][i] <= 'Z') {
          assert name[1..][i] == name[i + 1];
        }
      }
      LowerNameUnchanged(name[1..]);
      assert name == [name[0]] + name[1..];
    }
  }

  /** Spacing capitals works piece by piece. */
  lemma {:induction false} SpaceBeforeCapitalsAppend(a: string, b: string)
    ensures SpaceBeforeCapitals(a + b) == SpaceBeforeCapitals(a) + SpaceBeforeCapitals(b)
  {
    if a == [] {
      assert a + b == b;
    } else {
      assert (a + b)[0] == a[0];
      assert (a + b)[1..] == a[1..] + b;
      SpaceBeforeCapitalsAppend(a[1..], b);
    }
  }

  /** Humanising works piece by piece. */
  lemma HumaniseAppend(a: string, b: string)
    ensures HumaniseFieldName(a + b) == HumaniseFieldName(a) + HumaniseFieldName(b)
  {
    SpaceBeforeCapitalsAppend(a, b);
    AsciiLowerAppend(SpaceBeforeCapitals(a), SpaceBeforeCapitals(b));
  }

  /** Lower-casing works piece by piece. */
  lemma AsciiLowerAppend(x: string, y: string)
    ensures AsciiLower(x + y) == AsciiLower(x) + AsciiLower(y)
  {
    var whole, pieces := AsciiLower(x + y), AsciiLower(x) + AsciiLower(y);
    forall i | 0 <= i < |whole| ensures whole[i] == pieces[i] {
      if i < |x| {
        assert (x + y)[i] == x[i];
      } else {
        assert (x + y)[i] == y[i - |x|];
      }
    }
  }

  /** A capitalised word with no other capital is shown after a space, in
      lower case. */
  lemma CapitalisedWord(word: string)
    requires word != [] && 'A' <= word[0] <= 'Z' && NoCapitals(word[1..])
    ensures HumaniseFieldName(word) == [' ', LowerChar(word[0])] + word[1..]
  {
    LowerNameUnchanged(word[1..]);
    var spaced := SpaceBeforeCapitals(word);
    assert spaced == [' ', word[0]] + word[1..];
    assert AsciiLower(spaced) == [' ', LowerChar(word[0])] + word[1..];
  }

  /** A two-word camel-case name such as "zipCode" or "propertyType" is
      shown as its first word, a space, and its second word in lower case:
      "zip code", "property type". */
  lemma TwoWordNameRead(first: string, second: string)
    requires NoCapitals(first)
    requires second != [] && 'A' <= second[0] <= 'Z' && NoCapitals(second[1..])
    ensures HumaniseFieldName(first + second) == first + [' ', LowerChar(second[0])] + second[1..]
  {
    HumaniseAppend(first, second);
    LowerNameUnchanged(first);
    CapitalisedWord(second);
  }

  /** The number of ASCII capitals in `name`. */
  function CountCapitals(name: string): nat
  {
    if name == [] then 0 else (if 'A' <= name[0] <= 'Z' then 1 else 0) + CountCapitals(name[1..])
  }

  /** The message for a required field left blank. */
  function MissingFieldMessage(field: string): string
  {
    "\U{274C} Please fill in the " + HumaniseFieldName(field) + " field."
  }

  /** The blank-field message names the field in its humanised form. */
  lemma MissingFieldMessageNames(field: string)
    ensures IsInfix(HumaniseFieldName(field), MissingFieldMessage(field))
  {
    var lead := "\U{274C} Please fill in the ";
    assert OccursAt(HumaniseFieldName(field), MissingFieldMessage(field), |lead|);
  }

  /** The required field at `i` is not filled in, and all before it are. */
  predicate FirstUnfilledAt(data: FormData, i: nat)
    requires i < |RequiredFields|
  {
    !Filled(data, RequiredFields[i]) && forall j :: 0 <= j < i ==> Filled(data, RequiredFields[j])
  }

  /** The first required field, in checking order, that is not filled in. */
  method FirstMissingField(data: FormData) returns (missing: Option<string>)
    ensures missing.None? <==> forall i :: 0 <= i < |RequiredFields| ==> Filled(data, RequiredFields[i])
    ensures missing.Some? ==>
      exists i :: 0 <= i < |RequiredFields| && FirstUnfilledAt(data, i) && RequiredFields[i] == missing.value
  {
    for i := 0 to |RequiredFields|
      invariant forall j :: 0 <= j < i ==> Filled(data, RequiredFields[j])
    {
      var field := RequiredFields[i];
      if !(field in data) || Trim(data[field]) == "" {
        assert FirstUnfilledAt(data, i);
        return Some(field);
      }
    }
    return None;
  }
}
