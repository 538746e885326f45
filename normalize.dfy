/**
 * Key normalisation: `normalizeCity` (trim, then lower-case with the root locale), `normalizeZip`
 * (trim only), and the location key `"city:" + normCity` / `"zip:" + normZip` built from them.
 */
module Normalize {
  import opened Wrappers

  /** The characters Java's `String.trim()` strips: every code point at or below U+0020. */
  predicate Blank(c: char) {
    c <= ' '
  }

  ghost predicate AllBlank(s: string) {
    forall k :: 0 <= k < |s| ==> Blank(s[k])
  }

  /** A string `trim()` leaves alone: empty, or starting and ending with a non-blank character. */
  ghost predicate Trimmed(s: string) {
    s == [] || (!Blank(s[0]) && !Blank(s[|s| - 1]))
  }

  /** Drops the leading blanks: the result is the suffix of `s` after its longest all-blank prefix. */
  function TrimStart(s: string): (r: string)
    ensures |r| <= |s| && r == s[|s| - |r|..]
    ensures AllBlank(s[..|s| - |r|])
    ensures r == [] || !Blank(r[0])
  {
    if |s| > 0 && Blank(s[0]) then
      var r := TrimStart(s[1..]);
      BlankHeadSlices(s, r);
      r
    else
      s
  }

  /** Drops the trailing blanks: the result is the prefix of `s` before its longest all-blank suffix. */
  function TrimEnd(s: string): (r: string)
    ensures |r| <= |s| && r == s[..|r|]
    ensures AllBlank(s[|r|..])
    ensures r == [] || !Blank(r[|r| - 1])
  {
    if |s| > 0 && Blank(s[|s| - 1]) then
      var r := TrimEnd(s[..|s| - 1]);
      BlankLastSlices(s, r);
      r
    else
      s
  }

  /** One blank dropped from the front: the slicing facts for `TrimStart`'s recursive step. */
  lemma BlankHeadSlices(s: string, r: string)
    requires |s| > 0 && Blank(s[0])
    requires |r| <= |s| - 1 && r == s[1..][|s| - 1 - |r|..] && AllBlank(s[1..][..|s| - 1 - |r|])
    ensures r == s[|s| - |r|..] && AllBlank(s[..|s| - |r|])
  {
    assert s[..|s| - |r|] == [s[0]] + s[1..][..|s| - 1 - |r|];
  }

  /** One blank dropped from the back: the slicing facts for `TrimEnd`'s recursive step. */
  lemma BlankLastSlices(s: string, r: string)
    requires |s| > 0 && Blank(s[|s| - 1])
    requires |r| <= |s| - 1 && r == s[..|s| - 1][..|r|] && AllBlank(s[..|s| - 1][|r|..])
    ensures r == s[..|r|] && AllBlank(s[|r|..])
  {
    assert s[|r|..] == s[..|s| - 1][|r|..] + [s[|s| - 1]];
  }

  /** `r` sits at offset `i` of `s` with only blanks before and after it. */
  ghost predicate BlankPadded(s: string, i: int, r: string) {
    0 <= i <= |s| - |r| && s[i..i + |r|] == r && AllBlank(s[..i]) && AllBlank(s[i + |r|..])
  }

  /** `String.trim()`: the result is a slice of `s` with only blanks cut on either side, and it is trimmed. */
  function Trim(s: string): (r: string)
    ensures Trimmed(r) && |r| <= |s|
    ensures exists i :: BlankPadded(s, i, r)
  {
    var t := TrimStart(s);
    var r := TrimEnd(t);
    NestedSlices(s, t, r);
    r
  }

  /** A prefix cut from a suffix: the slicing facts that make `Trim` a blank-padded slice. */
  lemma NestedSlices(s: string, t: string, r: string)
    requires |t| <= |s| && t == s[|s| - |t|..] && AllBlank(s[..|s| - |t|])
    requires |r| <= |t| && r == t[..|r|] && AllBlank(t[|r|..])
    requires (t == [] || !Blank(t[0])) && (r == [] || !Blank(r[|r| - 1]))
    ensures BlankPadded(s, |s| - |t|, r) && Trimmed(r)
  {
    var i := |s| - |t|;
    assert s[i..i + |r|] == t[..|r|];
    assert s[i + |r|..] == t[|r|..];
  }

  /** The capital letters the model lower-cases: Basic Latin, Latin-1, Greek and basic Cyrillic. */
  predicate IsUpper(c: char) {
    ('A' <= c <= 'Z')
    || ('À' <= c <= 'Þ' && c != '×')
    || ('Α' <= c <= 'Ω' && c != '΢')
    || ('Ѐ' <= c <= 'Я')
  }

  /** The root locale's lower-case mapping on the letters of `IsUpper`; every other character is kept. */
  function LowerChar(c: char): (l: char)
    ensures !IsUpper(l)
    ensures !IsUpper(c) ==> l == c
    ensures IsUpper(c) ==> l != c
    ensures Blank(l) <==> Blank(c)
  {
    if 'A' <= c <= 'Z' then (c as int + 0x20) as char
    else if 'À' <= c <= 'Þ' && c != '×' then (c as int + 0x20) as char
    else if 'Α' <= c <= 'Ω' && c != '΢' then (c as int + 0x20) as char
    else if 'Ѐ' <= c <= 'Џ' then (c as int + 0x50) as char
    else if 'А' <= c <= 'Я' then (c as int + 0x20) as char
    else c
  }

  /** Two different capitals never lower-case to the same letter. */
  lemma LowerCharInjective(c: char, d: char)
    requires IsUpper(c) && IsUpper(d) && LowerChar(c) == LowerChar(d)
    ensures c == d
  {
  }

  /** `toLowerCase(Locale.ROOT)`: same length, each character lower-cased on its own, no capital left. */
  function ToLower(s: string): (r: string)
    ensures |r| == |s|
    ensures forall i :: 0 <= i < |s| ==> r[i] == LowerChar(s[i])
  {
    seq(|s|, i requires 0 <= i < |s| => LowerChar(s[i]))
  }

  /** `normalizeCity`: null stays null; otherwise the trimmed, lower-cased text. */
  function NormalizeCity(city: Option<string>): (r: Option<string>)
    ensures r.None? <==> city.None?
    ensures r.Some? ==> Trimmed(r.value) && forall i :: 0 <= i < |r.value| ==> !IsUpper(r.value[i])
  {
    match city
    case None => None
    case Some(c) =>
      ToLowerKeepsTrimmed(Trim(c));
      Some(ToLower(Trim(c)))
  }

  /** `normalizeZip`: null stays null; otherwise only trimmed, with its case kept. */
  function NormalizeZip(zip: Option<string>): (r: Option<string>)
    ensures r.None? <==> zip.None?
    ensures r.Some? ==> Trimmed(r.value) && |r.value| <= |zip.value|
  {
    match zip
    case None => None
    case Some(z) => Some(Trim(z))
  }

  /** Java string concatenation renders a null reference as the four letters `null`. */
  function NullableText(s: Option<string>): (t: string)
    ensures s.Some? ==> t == s.value
    ensures s.None? ==> t == "null"
  {
    match s
    case None => "null"
    case Some(v) => v
  }

  /** The key of a city lookup, `"city:" + normCity`. */
  function CityKey(normCity: Option<string>): (k: string)
    ensures normCity.Some? ==> k == "city:" + normCity.value
    ensures normCity.None? ==> k == "city:null"
  {
    "city:" + NullableText(normCity)
  }

  /** The key of a zip lookup, `"zip:" + normZip`. */
  function ZipKey(normZip: Option<string>): (k: string)
    ensures normZip.Some? ==> k == "zip:" + normZip.value
    ensures normZip.None? ==> k == "zip:null"
  {
    "zip:" + NullableText(normZip)
  }

  // ----- lemmas -----

  lemma ToLowerKeepsTrimmed(s: string)
    requires Trimmed(s)
    ensures Trimmed(ToLower(s))
  {
  }

  /** A trimmed string is a fixed point of `trim()`. */
  lemma TrimOfTrimmed(s: string)
    requires Trimmed(s)
    ensures Trim(s) == s
  {
  }

  lemma TrimIdempotent(s: string)
    ensures Trim(Trim(s)) == Trim(s)
  {
    TrimOfTrimmed(Trim(s));
  }

  /** A string with no capital letter is a fixed point of lower-casing. */
  lemma ToLowerOfLower(s: string)
    requires forall i :: 0 <= i < |s| ==> !IsUpper(s[i])
    ensures ToLower(s) == s
  {
  }

  lemma ToLowerIdempotent(s: string)
    ensures ToLower(ToLower(s)) == ToLower(s)
  {
    ToLowerOfLower(ToLower(s));
  }

  /** Normalising an already normalised city changes nothing. */
  lemma NormalizeCityIdempotent(city: Option<string>)
    ensures NormalizeCity(NormalizeCity(city)) == NormalizeCity(city)
  {
    if city.Some? {
      var n := NormalizeCity(city).value;
      TrimOfTrimmed(n);
      ToLowerOfLower(n);
    }
  }

  /** Normalising an already normalised zip changes nothing. */
  lemma NormalizeZipIdempotent(zip: Option<string>)
    ensures NormalizeZip(NormalizeZip(zip)) == NormalizeZip(zip)
  {
    if zip.Some? {
      TrimIdempotent(zip.value);
    }
  }

  /** Cutting leading blanks off a concatenation: the blanks may run on from `s` into `t`. */
  lemma {:induction false} TrimStartConcat(s: string, t: string)
    ensures TrimStart(s + t) == if TrimStart(s) == [] then TrimStart(t) else TrimStart(s) + t
  {
    if |s| > 0 && Blank(s[0]) {
      assert (s + t)[1..] == s[1..] + t;
      TrimStartConcat(s[1..], t);
    } else if s == [] {
      assert s + t == t;
    }
  }

  /** Cutting trailing blanks off a concatenation: the blanks may run back from `t` into `s`. */
  lemma {:induction false} TrimEndConcat(s: string, t: string)
    ensures TrimEnd(s + t) == if TrimEnd(t) == [] then TrimEnd(s) else s + TrimEnd(t)
  {
    if |t| > 0 && Blank(t[|t| - 1]) {
      assert (s + t)[..|s + t| - 1] == s + t[..|t| - 1];
      TrimEndConcat(s, t[..|t| - 1]);
    } else if t == [] {
      assert s + t == s;
    }
  }

  /** An all-blank string trims to nothing from either end. */
  lemma AllBlankTrimsAway(w: string)
    requires AllBlank(w)
    ensures TrimStart(w) == [] && TrimEnd(w) == []
  {
  }

  /** Blanks around the text do not change what `trim()` returns. */
  lemma TrimIgnoresSurroundingBlanks(pre: string, s: string, post: string)
    requires AllBlank(pre) && AllBlank(post)
    ensures Trim(pre + s + post) == Trim(s)
  {
    AllBlankTrimsAway(pre);
    AllBlankTrimsAway(post);
    calc {
      TrimStart(pre + s + post);
      { assert pre + s + post == pre + (s + post); }
      TrimStart(pre + (s + post));
      { TrimStartConcat(pre, s + post); }
      TrimStart(s + post);
    }
    TrimStartConcat(s, post);
    if TrimStart(s) != [] {
      TrimEndConcat(TrimStart(s), post);
    }
  }

  lemma {:induction false} TrimStartCommutesWithLower(s: string)
    ensures TrimStart(ToLower(s)) == ToLower(TrimStart(s))
  {
    if |s| > 0 && Blank(s[0]) {
      assert ToLower(s)[1..] == ToLower(s[1..]);
      TrimStartCommutesWithLower(s[1..]);
    }
  }

  lemma {:induction false} TrimEndCommutesWithLower(s: string)
    ensures TrimEnd(ToLower(s)) == ToLower(TrimEnd(s))
  {
    if |s| > 0 && Blank(s[|s| - 1]) {
      assert ToLower(s)[..|s| - 1] == ToLower(s[..|s| - 1]);
      TrimEndCommutesWithLower(s[..|s| - 1]);
    }
  }

  /** Lower-casing never creates or removes a blank, so it commutes with `trim()`. */
  lemma TrimCommutesWithLower(s: string)
    ensures Trim(ToLower(s)) == ToLower(Trim(s))
  {
    TrimStartCommutesWithLower(s);
    TrimEndCommutesWithLower(TrimStart(s));
  }

  /** City normalisation does not see case: a lower-cased input normalises to the same city. */
  lemma NormalizeCityIgnoresCase(s: string)
    ensures NormalizeCity(Some(ToLower(s))) == NormalizeCity(Some(s))
  {
    TrimCommutesWithLower(s);
    ToLowerIdempotent(Trim(s));
  }

  /** City normalisation does not see surrounding blanks. */
  lemma NormalizeCityIgnoresSurroundingBlanks(pre: string, s: string, post: string)
    requires AllBlank(pre) && AllBlank(post)
    ensures NormalizeCity(Some(pre + s + post)) == NormalizeCity(Some(s))
  {
    TrimIgnoresSurroundingBlanks(pre, s, post);
  }

  /** Zip normalisation does not see surrounding blanks either. */
  lemma NormalizeZipIgnoresSurroundingBlanks(pre: string, s: string, post: string)
    requires AllBlank(pre) && AllBlank(post)
    ensures NormalizeZip(Some(pre + s + post)) == NormalizeZip(Some(s))
  {
    TrimIgnoresSurroundingBlanks(pre, s, post);
  }

  /** Zip normalisation keeps case: a trimmed zip, capitals included, comes back as it was. */
  lemma NormalizeZipKeepsCase(z: string)
    requires Trimmed(z)
    ensures NormalizeZip(Some(z)) == Some(z)
  {
    TrimOfTrimmed(z);
  }

  /** The literal split behind the postcode examples: `" SW1A "` is `"SW1A"` between single blanks. */
  lemma PostcodePadded()
    ensures " SW1A " == " " + "SW1A" + " " && AllBlank(" ") && Trimmed("SW1A")
  {
  }

  /** The literal fact behind `PostcodeCityExample`: `"SW1A"` lower-cases to `"sw1a"`. */
  lemma LowerPostcode()
    ensures ToLower("SW1A") == "sw1a"
  {
    var l := ToLower("SW1A");
    assert |l| == 4 && l[0] == LowerChar('S') == 's' && l[1] == LowerChar('W') == 'w';
    assert l[2] == '1' && l[3] == LowerChar('A') == 'a';
  }

  /** The same text is normalised differently as a city and as a zip when it holds a capital. */
  lemma PostcodeZipExample()
    ensures NormalizeZip(Some(" SW1A ")) == Some("SW1A")
  {
    PostcodePadded();
    TrimOfPadded(" ", "SW1A", " ");
  }

  lemma PostcodeCityExample()
    ensures NormalizeCity(Some(" SW1A ")) == Some("sw1a")
  {
    PostcodePadded();
    NormalizeCityOfPadded(" ", "SW1A", " ");
    LowerPostcode();
  }

  /** A trimmed text between blanks trims to itself. */
  lemma TrimOfPadded(pre: string, s: string, post: string)
    requires AllBlank(pre) && AllBlank(post) && Trimmed(s)
    ensures Trim(pre + s + post) == s
  {
    TrimIgnoresSurroundingBlanks(pre, s, post);
    TrimOfTrimmed(s);
  }

  /** A trimmed city between blanks normalises to its lower-case form. */
  lemma NormalizeCityOfPadded(pre: string, s: string, post: string)
    requires AllBlank(pre) && AllBlank(post) && Trimmed(s)
    ensures NormalizeCity(Some(pre + s + post)) == Some(ToLower(s))
  {
    TrimOfPadded(pre, s, post);
  }

  /** The literal fact behind the Kyiv examples: `"Kyiv"` lower-cases to `"kyiv"`. */
  lemma LowerKyiv()
    ensures ToLower("Kyiv") == "kyiv"
  {
    var l := ToLower("Kyiv");
    assert |l| == 4 && l[0] == LowerChar('K') == 'k';
    assert l[1] == 'y' && l[2] == 'i' && l[3] == 'v';
  }

  /** The literal split behind `KyivNormalized`: `"  Kyiv  "` is `"Kyiv"` between blanks. */
  lemma KyivPadded()
    ensures "  Kyiv  " == "  " + "Kyiv" + "  " && AllBlank("  ") && Trimmed("Kyiv")
  {
  }

  /** `"  Kyiv  "` normalises to `"kyiv"`: the blanks go, and so does the capital. */
  lemma KyivNormalized()
    ensures NormalizeCity(Some("  Kyiv  ")) == Some("kyiv")
  {
    KyivPadded();
    NormalizeCityOfPadded("  ", "Kyiv", "  ");
    LowerKyiv();
  }

  /** `"Kyiv"` normalises to `"kyiv"` as well, so both spellings share one key. */
  lemma KyivCapitalised()
    ensures NormalizeCity(Some("Kyiv")) == Some("kyiv")
  {
    KyivPadded();
    assert "" + "Kyiv" + "" == "Kyiv";
    NormalizeCityOfPadded("", "Kyiv", "");
    LowerKyiv();
  }

  /** The city key of the service's own test: `"  Kyiv  "` looks up `"city:kyiv"`. */
  lemma CityKeyExample()
    ensures NormalizeCity(Some("  Kyiv  ")) == Some("kyiv")
    ensures CityKey(NormalizeCity(Some("  Kyiv  "))) == "city:kyiv"
  {
    KyivNormalized();
    KyivKey();
  }

  /** The literal fact behind `CityKeyExample`: the key of `"kyiv"` is `"city:kyiv"`. */
  lemma KyivKey()
    ensures CityKey(Some("kyiv")) == "city:kyiv"
  {
  }

  /** The literal fact behind `LondonKeyExample`: `"London"` lower-cases to `"london"`. */
  lemma LowerLondon()
    ensures ToLower("London") == "london"
  {
    var l := ToLower("London");
    assert |l| == 6 && l[0] == LowerChar('L') == 'l';
    assert l[1] == 'o' && l[2] == 'n' && l[3] == 'd' && l[4] == 'o' && l[5] == 'n';
  }

  /** The literal split behind `LondonKeyExample`: `"London"` has no blanks around it. */
  lemma LondonBare()
    ensures "London" == "" + "London" + "" && AllBlank("") && Trimmed("London")
  {
  }

  /** The literal fact behind `LondonKeyExample`: the key of `"london"` is `"city:london"`. */
  lemma LondonKey()
    ensures CityKey(Some("london")) == "city:london"
  {
  }

  /** The city key of the stale-refresh test: `"London"` looks up `"city:london"`. */
  lemma LondonKeyExample()
    ensures NormalizeCity(Some("London")) == Some("london")
    ensures CityKey(NormalizeCity(Some("London"))) == "city:london"
  {
    LondonBare();
    NormalizeCityOfPadded("", "London", "");
    LowerLondon();
    LondonKey();
  }

  /** The literal split behind `ZipKeyExample`: `"  90210 "` is `"90210"` between blanks. */
  lemma ZipPadded()
    ensures "  90210 " == "  " + "90210" + " " && AllBlank("  ") && AllBlank(" ") && Trimmed("90210")
  {
  }

  /** The zip key of the service's own test: `"  90210 "` looks up `"zip:90210"`. */
  lemma ZipKeyExample()
    ensures NormalizeZip(Some("  90210 ")) == Some("90210")
    ensures ZipKey(NormalizeZip(Some("  90210 "))) == "zip:90210"
  {
    ZipPadded();
    TrimOfPadded("  ", "90210", " ");
    ZipCodeKey();
  }

  /** The literal fact behind `ZipKeyExample`: the key of `"90210"` is `"zip:90210"`. */
  lemma ZipCodeKey()
    ensures ZipKey(Some("90210")) == "zip:90210"
  {
  }

  /** A city key never equals a zip key, whatever the inputs. */
  lemma CityAndZipKeysDisjoint(normCity: Option<string>, normZip: Option<string>)
    ensures CityKey(normCity) != ZipKey(normZip)
  {
    assert CityKey(normCity)[0] == 'c';
    assert ZipKey(normZip)[0] == 'z';
  }

  /** Two present cities share a key exactly when they normalise to the same text. */
  lemma CityKeyInjective(a: string, b: string)
    ensures CityKey(NormalizeCity(Some(a))) == CityKey(NormalizeCity(Some(b)))
        <==> NormalizeCity(Some(a)) == NormalizeCity(Some(b))
  {
    var ka, kb := CityKey(NormalizeCity(Some(a))), CityKey(NormalizeCity(Some(b)));
    if ka == kb {
      assert ka[5..] == NormalizeCity(Some(a)).value;
      assert kb[5..] == NormalizeCity(Some(b)).value;
    }
  }

  /** A null city shares its key with the city `"NULL"`, since Java renders null as `null`. */
  lemma NullCityKeyCollides()
    ensures CityKey(NormalizeCity(None)) == CityKey(NormalizeCity(Some("NULL"))) == "city:null"
  {
    TrimOfTrimmed("NULL");
    assert ToLower("NULL") == "null";
  }
}
