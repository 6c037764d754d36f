/** Per-field validation of the delivery form (validate_field). The two
    regular expressions of the source are written out as character-class
    predicates; the postcode pattern as a parser whose language is shown
    equal to the pattern's. */
module Validation {
  import opened Wrappers
  import opened Text

  /** any(ch.isalpha() for ch in t) */
  predicate HasLetter(t: string) {
    t != [] && (IsLetter(t[0]) || HasLetter(t[1..]))
  }

  lemma {:induction false} HasLetterMeansSome(t: string)
    ensures HasLetter(t) <==> exists i :: 0 <= i < |t| && IsLetter(t[i])
  {
    if t != [] {
      HasLetterMeansSome(t[1..]);
      assert forall i :: 1 <= i < |t| ==> t[i] == t[1..][i - 1];
      if !IsLetter(t[0]) && exists i :: 0 <= i < |t| && IsLetter(t[i]) {
        var i :| 0 <= i < |t| && IsLetter(t[i]);
        assert IsLetter(t[1..][i - 1]);
      }
    }
  }

  /** The class [A-Za-z0-9\s\-]. */
  predicate HouseChar(c: char) {
    IsLetter(c) || IsDigit(c) || IsSpace(c) || c == '-'
  }

  predicate AllHouseChars(t: string) {
    t == [] || (HouseChar(t[0]) && AllHouseChars(t[1..]))
  }

  lemma {:induction false} AllHouseCharsMeansEach(t: string)
    ensures AllHouseChars(t) <==> forall i :: 0 <= i < |t| ==> HouseChar(t[i])
  {
    if t != [] {
      AllHouseCharsMeansEach(t[1..]);
      assert forall i :: 1 <= i < |t| ==> t[i] == t[1..][i - 1];
    }
  }

  /** ^[A-Za-z0-9\s\-]{1,12}$ */
  predicate HouseLike(t: string) {
    1 <= |t| <= 12 && AllHouseChars(t)
  }

  /** One way of reading a string against
      ^[A-Z]{1,2}[0-9][0-9A-Z]?\s?[0-9][A-Z]{2}$ : the letters of the area,
      the district digit, the optional extra character, the optional
      whitespace, the sector digit and the two unit letters. */
  datatype Postcode = Postcode(area: string, district: char, extra: Option<char>,
                               sep: Option<char>, sector: char, unit: string)

  predicate WellFormedPostcode(p: Postcode) {
    && 1 <= |p.area| <= 2
    && (forall i :: 0 <= i < |p.area| ==> IsUpper(p.area[i]))
    && IsDigit(p.district)
    && (p.extra.Some? ==> IsDigit(p.extra.value) || IsUpper(p.extra.value))
    && (p.sep.Some? ==> IsSpace(p.sep.value))
    && IsDigit(p.sector)
    && |p.unit| == 2 && IsUpper(p.unit[0]) && IsUpper(p.unit[1])
  }

  function OptChar(o: Option<char>): string {
    if o.Some? then [o.value] else []
  }

  /** The string a decomposition spells; the pattern's language is exactly
      the set of Render(p) for well-formed p. */
  function Render(p: Postcode): string {
    p.area + [p.district] + OptChar(p.extra) + OptChar(p.sep) + [p.sector] + p.unit
  }

  /** The outward part [A-Z]{1,2}[0-9][0-9A-Z]? : area, district, extra. */
  function ParseOutward(o: string): (r: Option<(string, char, Option<char>)>)
    ensures r.Some? ==>
      var (area, district, extra) := r.value;
      && o == area + [district] + OptChar(extra)
      && 1 <= |area| <= 2 && (forall i :: 0 <= i < |area| ==> IsUpper(area[i]))
      && IsDigit(district)
      && (extra.Some? ==> IsDigit(extra.value) || IsUpper(extra.value))
  {
    if |o| == 2 && IsUpper(o[0]) && IsDigit(o[1]) then Some((o[..1], o[1], None))
    else if |o| == 3 && IsUpper(o[0]) && IsUpper(o[1]) && IsDigit(o[2]) then Some((o[..2], o[2], None))
    else if |o| == 3 && IsUpper(o[0]) && IsDigit(o[1]) && (IsDigit(o[2]) || IsUpper(o[2]))
    then Some((o[..1], o[1], Some(o[2])))
    else if |o| == 4 && IsUpper(o[0]) && IsUpper(o[1]) && IsDigit(o[2]) && (IsDigit(o[3]) || IsUpper(o[3]))
    then Some((o[..2], o[2], Some(o[3])))
    else None
  }

  /** Match the postcode pattern. The inward part is the last three
      characters; whitespace is only allowed just before it, since no other
      class of the pattern admits whitespace. Every match it reports is a
      well-formed reading of the whole string. */
  function ParsePostcode(s: string): (r: Option<Postcode>)
    ensures r.Some? ==> WellFormedPostcode(r.value) && Render(r.value) == s
  {
    if |s| < 5 then None
    else
      var n := |s|;
      if !(IsDigit(s[n - 3]) && IsUpper(s[n - 2]) && IsUpper(s[n - 1])) then None
      else
        var head := s[..n - 3];
        var sep := if head != [] && IsSpace(head[|head| - 1]) then Some(head[|head| - 1]) else None;
        var outward := if sep.Some? then head[..|head| - 1] else head;
        match ParseOutward(outward)
        case None => None
        case Some((area, district, extra)) =>
          var p := Postcode(area, district, extra, sep, s[n - 3], s[n - 2..]);
          assert head == outward + OptChar(sep);
          assert s == head + [s[n - 3]] + s[n - 2..];
          Some(p)
  }

  /** Every string the pattern describes is matched, with its one reading. */
  lemma {:induction false} ParsePostcodeComplete(p: Postcode)
    requires WellFormedPostcode(p)
    ensures ParsePostcode(Render(p)) == Some(p)
  {
    var s := Render(p);
    var n := |s|;
    var outward := p.area + [p.district] + OptChar(p.extra);
    var head := outward + OptChar(p.sep);
    assert s == head + [p.sector] + p.unit;
    assert s[n - 3] == p.sector && s[n - 2..] == p.unit;
    assert s[..n - 3] == head;
    if p.sep.Some? {
      assert head[|head| - 1] == p.sep.value;
      assert head[..|head| - 1] == outward;
    } else {
      assert head == outward;
      assert !IsSpace(outward[|outward| - 1]);
    }
    assert ParseOutward(outward) == Some((p.area, p.district, p.extra)) by {
      if |p.area| == 1 {
        assert outward[..1] == p.area;
      } else {
        assert outward[..2] == p.area;
      }
    }
  }

  /** The postcode rule: upper-case the stripped text, then match. */
  predicate PostcodeLike(t: string) {
    ParsePostcode(Upper(t)).Some?
  }

  /** The name rule: at least three characters and a space. */
  predicate NameLike(t: string) {
    |t| >= 3 && ' ' in t
  }

  /** The street rule: at least three characters and a letter. */
  predicate StreetLike(t: string) {
    |t| >= 3 && HasLetter(t)
  }

  /** The city rule: at least two characters and a letter. */
  predicate CityLike(t: string) {
    |t| >= 2 && HasLetter(t)
  }

  /** The rule of each field on the already-stripped text; a field name
      outside the five accepts anything. */
  predicate FieldRule(field: string, t: string) {
    if field == "name" then NameLike(t)
    else if field == "house" then HouseLike(t)
    else if field == "street" then StreetLike(t)
    else if field == "city" then CityLike(t)
    else if field == "postcode" then PostcodeLike(t)
    else true
  }

  /** validate_field: the field's rule on the stripped text. */
  function ValidateField(field: string, value: string): bool {
    FieldRule(field, Strip(value))
  }

  /** Surrounding whitespace never changes a verdict, so validating the
      already-stripped value (as the form handler does) is the same as
      validating the raw text. */
  lemma {:induction false} ValidateIgnoresSurroundingSpace(field: string, value: string)
    ensures ValidateField(field, Strip(value)) == ValidateField(field, value)
  {
    StripIdempotent(value);
  }

  /** A value without whitespace at its ends is judged as it is. */
  lemma {:induction false} ValidateStripped(field: string, v: string)
    requires Strip(v) == v
    ensures ValidateField(field, v) == FieldRule(field, v)
  {
  }

  /** An accepted name has a space strictly inside it: some non-space
      character before and after, so at least two words. */
  lemma {:induction false} AcceptedNameHasTwoWords(value: string)
    requires ValidateField("name", value)
    ensures var t := Strip(value);
            exists i :: 0 < i < |t| - 1 && t[i] == ' '
  {
    var t := Strip(value);
    var i :| 0 <= i < |t| && t[i] == ' ';
    assert i != 0 && i != |t| - 1;
  }

  /** The two sample names: a single short word is refused, a first and
      last name accepted. */
  lemma {:induction false} NameExamples()
    ensures !ValidateField("name", "Jo")
    ensures ValidateField("name", "Jo Smith")
  {
    StripFixed("Jo");
    ValidateStripped("name", "Jo");
    StripFixed("Jo Smith");
    ValidateStripped("name", "Jo Smith");
    assert "Jo Smith"[2] == ' ';
  }

  /** Each of the five fields is judged by its own rule on the stripped
      text. */
  lemma {:induction false} FieldRules(v: string)
    ensures ValidateField("name", v) == NameLike(Strip(v))
    ensures ValidateField("house", v) == HouseLike(Strip(v))
    ensures ValidateField("street", v) == StreetLike(Strip(v))
    ensures ValidateField("city", v) == CityLike(Strip(v))
    ensures ValidateField("postcode", v) == PostcodeLike(Strip(v))
  {
  }

  /** A short house number with a letter is accepted. */
  lemma {:induction false} HouseAccepted()
    ensures HouseLike("12B")
  {
    assert "12B"[1..] == "2B" && "2B"[1..] == "B" && "B"[1..] == [];
  }

  /** A blank house is refused: nothing is left once it is stripped. */
  lemma {:induction false} HouseBlankRefused()
    ensures !ValidateField("house", "   ")
  {
    assert Strip("   ") == [] by {
      assert "   "[1..] == "  " && "  "[1..] == " " && " "[1..] == [];
    }
  }

  /** One character outside the class is enough to refuse a house. */
  lemma {:induction false} HouseRefusesForeignChar(t: string, i: nat)
    requires i < |t| && !HouseChar(t[i])
    ensures !HouseLike(t)
  {
    AllHouseCharsMeansEach(t);
  }

  /** A slash is outside the house rule's characters. */
  lemma {:induction false} HouseSlashRefused()
    ensures !HouseLike("Flat 1/2")
  {
    HouseRefusesForeignChar("Flat 1/2", 6);
  }

  /** A street needs a letter. */
  lemma {:induction false} StreetWithoutLetterRefused()
    ensures !StreetLike("123")
  {
    HasLetterMeansSome("123");
    assert !IsLetter("123"[0]) && !IsLetter("123"[1]) && !IsLetter("123"[2]);
  }

  lemma {:induction false} StreetWithLetterAccepted()
    ensures StreetLike("1 A")
  {
    HasLetterMeansSome("1 A");
    assert IsLetter("1 A"[2]);
  }

  lemma {:induction false} CityAccepted()
    ensures CityLike("Ely")
  {
    HasLetterMeansSome("Ely");
    assert IsLetter("Ely"[0]);
  }

  /** A field name outside the five accepts anything, even nothing. */
  lemma {:induction false} OtherFieldAcceptsAnything(field: string, v: string)
    requires field !in ["name", "house", "street", "city", "postcode"]
    ensures ValidateField(field, v)
  {
  }

  /** The outward part never holds whitespace. */
  lemma {:induction false} OutwardHasNoSpace(area: string, district: char, extra: Option<char>)
    requires forall i :: 0 <= i < |area| ==> IsUpper(area[i])
    requires IsDigit(district)
    requires extra.Some? ==> IsDigit(extra.value) || IsUpper(extra.value)
    ensures var o := area + [district] + OptChar(extra);
            forall i :: 0 <= i < |o| ==> !IsSpace(o[i])
  {
  }

  /** What every accepted postcode looks like: it ends in a digit and two
      letters, and the only whitespace it may hold is the one character just
      before those three. */
  lemma {:induction false} PostcodeShape(t: string)
    ensures PostcodeLike(t) ==>
      && |t| >= 5
      && IsDigit(t[|t| - 3]) && IsLetter(t[|t| - 2]) && IsLetter(t[|t| - 1])
      && forall i :: 0 <= i < |t| && IsSpace(t[i]) ==> i == |t| - 4
  {
    if PostcodeLike(t) {
      var s := Upper(t);
      var p := ParsePostcode(s).value;
      var outward := p.area + [p.district] + OptChar(p.extra);
      OutwardHasNoSpace(p.area, p.district, p.extra);
      assert s == outward + OptChar(p.sep) + [p.sector] + p.unit;
      assert forall j :: 0 <= j < |outward| ==> s[j] == outward[j];
      forall i | 0 <= i < |t| && IsSpace(t[i]) ensures i == |t| - 4 {
        assert IsSpace(s[i]);
      }
    }
  }

  /** A string whose upper-cased form spells a well-formed reading is
      accepted. */
  lemma {:induction false} PostcodeOfRender(t: string, p: Postcode)
    requires WellFormedPostcode(p) && Upper(t) == Render(p)
    ensures PostcodeLike(t)
  {
    ParsePostcodeComplete(p);
  }

  /** A string without lower-case letters is its own upper-case form. */
  lemma {:induction false} UpperOfNoLower(s: string)
    requires forall i :: 0 <= i < |s| ==> !IsLower(s[i])
    ensures Upper(s) == s
  {
  }

  /** The three sample postcodes: with the space, in lower case, and
      without the space. */
  lemma {:induction false} PostcodeAcceptedWithSpace()
    ensures PostcodeLike("SW1A 1AA")
  {
    var p := Postcode("SW", '1', Some('A'), Some(' '), '1', "AA");
    assert Render(p) == "SW1A 1AA";
    UpperOfNoLower("SW1A 1AA");
    PostcodeOfRender("SW1A 1AA", p);
  }

  lemma {:induction false} PostcodeAcceptedLowerCase()
    ensures PostcodeLike("m1 1ae")
  {
    var p := Postcode("M", '1', None, Some(' '), '1', "AE");
    assert Render(p) == "M1 1AE";
    assert Upper("m1 1ae") == "M1 1AE";
    PostcodeOfRender("m1 1ae", p);
  }

  lemma {:induction false} PostcodeAcceptedWithoutSpace()
    ensures PostcodeLike("DN551PT")
  {
    var p := Postcode("DN", '5', Some('5'), None, '1', "PT");
    assert Render(p) == "DN551PT";
    UpperOfNoLower("DN551PT");
    PostcodeOfRender("DN551PT", p);
  }

  /** A doubled space before the inward part is rejected. */
  lemma {:induction false} PostcodeRejectedDoubleSpace()
    ensures !PostcodeLike("SW1A  1AA")
  {
    PostcodeShape("SW1A  1AA");
    assert IsSpace("SW1A  1AA"[4]);
  }

  /** A string of digits only is rejected. */
  lemma {:induction false} PostcodeRejectedDigits()
    ensures !PostcodeLike("12345")
  {
    PostcodeShape("12345");
    assert !IsLetter("12345"[4]);
  }

  /** Letter case never changes the postcode verdict. */
  lemma {:induction false} PostcodeCaseInsensitive(t: string)
    ensures PostcodeLike(Upper(t)) == PostcodeLike(t)
  {
    assert Upper(Upper(t)) == Upper(t);
  }
}
