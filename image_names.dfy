/**
 * The image-name normaliser `filter_image_name`: a COCO file name such as
 * `COCO_train2014_000000000009.jpg` loses its split prefix and its last four
 * characters, and what remains is read as a decimal integer the way Python's
 * `int(str)` reads it (without the limit on the number of digits that recent
 * Python releases impose).
 */
module ImageNames {
  import opened Outcomes

  /** Both failures are a `ValueError` in Python; the model tells them apart. */
  datatype NameError =
    | UnknownPrefix   // the name starts with neither split prefix
    | InvalidLiteral  // `int()` rejected what was left after stripping

  const TrainPrefix: string := "COCO_train2014_"
  const ValPrefix: string := "COCO_val2014_"

  /** Number of trailing characters dropped as the extension (`[:-4]`). */
  const ExtensionLength: nat := 4

  /** The two dataset splits whose prefixes are recognised. */
  datatype Split = Train | Val

  function Prefix(split: Split): string
  {
    match split
    case Train => TrainPrefix
    case Val => ValPrefix
  }

  predicate StartsWith(s: string, p: string)
  {
    |p| <= |s| && s[..|p|] == p
  }

  /** Python's `s[start:-4]`: empty when fewer than four characters follow `start`. */
  function Stem(s: string, start: nat): (r: string)
    requires start <= |s|
    ensures start + ExtensionLength <= |s| ==> s == s[..start] + r + s[|s| - ExtensionLength..]
    ensures start + ExtensionLength > |s| ==> r == []
  {
    if start + ExtensionLength <= |s| then s[start..|s| - ExtensionLength] else []
  }

  // ---------------------------------------------------------------------------
  // Python's int(str), base 10, over ASCII

  predicate IsDigit(c: char)
  {
    '0' <= c <= '9'
  }

  /**
   * The ASCII characters `int()` skips around a literal: space and `\t` to `\r`.
   * The separators `\x1c` to `\x1f`, which `str.strip()` would remove, are not among them.
   */
  predicate IsSpace(c: char)
  {
    c == ' ' || '\t' <= c <= '\r'
  }

  predicate AllDigits(d: string)
  {
    forall i :: 0 <= i < |d| ==> IsDigit(d[i])
  }

  function DigitOf(c: char): (v: nat)
    requires IsDigit(c)
    ensures v < 10
  {
    c as int - '0' as int
  }

  function DigitChar(v: nat): (c: char)
    requires v < 10
    ensures IsDigit(c) && DigitOf(c) == v
  {
    ('0' as int + v) as char
  }

  /** The value of a string of decimal digits, most significant first. */
  function DigitsValue(d: string): nat
    requires AllDigits(d)
  {
    if d == [] then 0 else DigitsValue(d[..|d| - 1]) * 10 + DigitOf(d[|d| - 1])
  }

  /** Digits, with single underscores allowed between two digits (PEP 515). */
  predicate IsDigitGroup(b: string)
  {
    && b != []
    && IsDigit(b[0])
    && IsDigit(b[|b| - 1])
    && (forall i :: 0 <= i < |b| ==> IsDigit(b[i]) || b[i] == '_')
    && (forall i :: 0 <= i < |b| - 1 ==> b[i] == '_' ==> b[i + 1] != '_')
  }

  /** The digits of a digit group, underscores removed. */
  function Digits(b: string): (d: string)
    requires forall i :: 0 <= i < |b| ==> IsDigit(b[i]) || b[i] == '_'
    ensures AllDigits(d)
    ensures AllDigits(b) ==> d == b
  {
    if b == [] then []
    else if b[0] == '_' then Digits(b[1..])
    else [b[0]] + Digits(b[1..])
  }

  function TrimLeft(s: string): (r: string)
    ensures r == [] || !IsSpace(r[0])
  {
    if s != [] && IsSpace(s[0]) then TrimLeft(s[1..]) else s
  }

  function TrimRight(s: string): (r: string)
    ensures r == [] || !IsSpace(r[|r| - 1])
  {
    if s != [] && IsSpace(s[|s| - 1]) then TrimRight(s[..|s| - 1]) else s
  }

  /** `int(s)`: surrounding white space, an optional sign, then a digit group. */
  function ParseInt(s: string): (r: Result<int, NameError>)
    ensures r.Err? ==> r.error == InvalidLiteral
  {
    var t := TrimRight(TrimLeft(s));
    if t == [] then Err(InvalidLiteral)
    else
      var body := if t[0] == '+' || t[0] == '-' then t[1..] else t;
      if !IsDigitGroup(body) then Err(InvalidLiteral)
      else
        var magnitude: int := DigitsValue(Digits(body));
        Ok(if t[0] == '-' then -magnitude else magnitude)
  }

  // ---------------------------------------------------------------------------
  // filter_image_name

  /** Strip the split prefix and the extension, then parse the identifier. */
  function FilterImageName(name: string): (r: Result<int, NameError>)
    ensures r == Err(UnknownPrefix) <==>
              !StartsWith(name, TrainPrefix) && !StartsWith(name, ValPrefix)
  {
    if StartsWith(name, TrainPrefix) then ParseInt(Stem(name, |TrainPrefix|))
    else if StartsWith(name, ValPrefix) then ParseInt(Stem(name, |ValPrefix|))
    else Err(UnknownPrefix)
  }

  // ---------------------------------------------------------------------------
  // Decimal rendering, the inverse direction

  /** The shortest decimal rendering of `n`. */
  function Decimal(n: nat): (d: string)
    ensures d != [] && AllDigits(d)
    ensures DigitsValue(d) == n
    decreases n
  {
    if n < 10 then [DigitChar(n)]
    else
      var init := Decimal(n / 10);
      var d := init + [DigitChar(n % 10)];
      assert d[..|d| - 1] == init;
      d
  }

  function Zeros(k: nat): (z: string)
    ensures |z| == k && AllDigits(z)
  {
    if k == 0 then [] else Zeros(k - 1) + ['0']
  }

  /** The decimal rendering of `id`, left-padded with zeros to at least `width` digits. */
  function ZeroPadded(id: nat, width: nat): (d: string)
    ensures d != [] && AllDigits(d)
    ensures |d| >= width
    ensures DigitsValue(d) == id
  {
    var digits := Decimal(id);
    var padding := if |digits| < width then width - |digits| else 0;
    LeadingZerosIgnored(padding, digits);
    Zeros(padding) + digits
  }

  /** A COCO file name: split prefix, zero-padded identifier, extension. */
  function ImageFileName(split: Split, id: nat, width: nat, ext: string): string
  {
    Prefix(split) + ZeroPadded(id, width) + ext
  }

  // ---------------------------------------------------------------------------
  // Properties

  /** No name carries both split prefixes, so the order of the two tests is immaterial. */
  lemma PrefixesExclusive(name: string)
    ensures !(StartsWith(name, TrainPrefix) && StartsWith(name, ValPrefix))
  {
    assert StartsWith(name, TrainPrefix) ==> name[5] == TrainPrefix[5] == 't';
    assert StartsWith(name, ValPrefix) ==> name[5] == ValPrefix[5] == 'v';
  }

  lemma {:induction false} ZerosValue(k: nat)
    ensures DigitsValue(Zeros(k)) == 0
  {
    if k > 0 {
      assert Zeros(k)[..k - 1] == Zeros(k - 1);
      ZerosValue(k - 1);
    }
  }

  /** Leading zeros do not change the value of a digit string. */
  lemma {:induction false} LeadingZerosIgnored(k: nat, d: string)
    requires AllDigits(d)
    ensures AllDigits(Zeros(k) + d)
    ensures DigitsValue(Zeros(k) + d) == DigitsValue(d)
  {
    var z := Zeros(k) + d;
    assert AllDigits(z);
    if d == [] {
      assert z == Zeros(k);
      ZerosValue(k);
    } else {
      var n := |d| - 1;
      assert z[..|z| - 1] == Zeros(k) + d[..n];
      assert z[|z| - 1] == d[n];
      LeadingZerosIgnored(k, d[..n]);
    }
  }

  /** `int()` of a plain digit string is its decimal value. */
  lemma ParseIntDigits(d: string)
    requires d != [] && AllDigits(d)
    ensures ParseInt(d) == Ok(DigitsValue(d))
  {
    assert TrimLeft(d) == d;
    assert TrimRight(d) == d;
    DigitGroupOfDigits(d);
  }

  /** A non-empty digit string is a digit group without underscores. */
  lemma DigitGroupOfDigits(d: string)
    requires d != [] && AllDigits(d)
    ensures IsDigitGroup(d) && Digits(d) == d
  {
    assert IsDigit(d[0]) && IsDigit(d[|d| - 1]);
  }

  /**
   * `int()` honours a leading minus sign. The proof is direct; automatic
   * induction on `d` only slows it down, hence the attribute.
   */
  lemma {:induction false} ParseIntNegative(d: string)
    requires d != [] && AllDigits(d)
    ensures ParseInt(['-'] + d) == Ok(-(DigitsValue(d) as int))
  {
    var s := ['-'] + d;
    assert s[0] == '-' && s[1..] == d && s[|s| - 1] == d[|d| - 1];
    assert IsDigit(d[|d| - 1]);
    assert TrimLeft(s) == s;
    assert TrimRight(s) == s;
    DigitGroupOfDigits(d);
  }

  /** `int()` skips a leading space and a trailing newline around the digits. */
  lemma ParseIntSurroundingSpace(d: string)
    requires d != [] && AllDigits(d)
    ensures ParseInt([' '] + d + ['\n']) == Ok(DigitsValue(d))
  {
    var s := [' '] + d + ['\n'];
    assert s[1..] == d + ['\n'];
    assert IsDigit(d[0]) && IsDigit(d[|d| - 1]);
    assert TrimLeft(d + ['\n']) == d + ['\n'];
    assert TrimLeft(s) == d + ['\n'];
    assert (d + ['\n'])[..|d|] == d;
    assert TrimRight(d) == d;
    assert TrimRight(d + ['\n']) == d;
    DigitGroupOfDigits(d);
  }

  /** An information separator such as `\x1c` is not white space to `int()`: it rejects the text. */
  lemma ParseIntRejectsSeparator(d: string)
    requires d != [] && AllDigits(d)
    ensures ParseInt(['\U{1C}'] + d) == Err(InvalidLiteral)
  {
    var s := ['\U{1C}'] + d;
    assert s[|s| - 1] == d[|d| - 1] && IsDigit(d[|d| - 1]);
    assert TrimLeft(s) == s;
    assert TrimRight(s) == s;
    assert !IsDigitGroup(s);
  }

  /**
   * Either prefix, then a digit string, then any four characters: the result
   * is the value of the digits, leading zeros ignored.
   */
  lemma FilterImageNameRoundTrip(split: Split, d: string, ext: string)
    requires d != [] && AllDigits(d)
    requires |ext| == ExtensionLength
    ensures FilterImageName(Prefix(split) + d + ext) == Ok(DigitsValue(d))
  {
    var p := Prefix(split);
    var name := p + d + ext;
    assert name[..|p|] == p;
    assert Stem(name, |p|) == d;
    ParseIntDigits(d);
    PrefixesExclusive(name);
  }

  /** Rendering an identifier as a COCO file name and filtering it gives the identifier back. */
  lemma FileNameRoundTrip(split: Split, id: nat, width: nat, ext: string)
    requires |ext| == ExtensionLength
    ensures FilterImageName(ImageFileName(split, id, width, ext)) == Ok(id)
  {
    FilterImageNameRoundTrip(split, ZeroPadded(id, width), ext);
  }

  /** A recognised prefix with nothing between it and the extension leaves `int("")`, which fails. */
  lemma FilterShortName(split: Split, name: string)
    requires StartsWith(name, Prefix(split))
    requires |name| <= |Prefix(split)| + ExtensionLength
    ensures FilterImageName(name) == Err(InvalidLiteral)
  {
    PrefixesExclusive(name);
  }

  /**
   * The four-character cut fits `.jpg`: with a five-character extension such as
   * `.jpeg` the dot stays in the stem and `int()` rejects it.
   */
  lemma FilterRejectsFiveCharExtension(split: Split, d: string, ext: string)
    requires d != [] && AllDigits(d)
    requires |ext| == 5 && ext[0] == '.'
    ensures FilterImageName(Prefix(split) + d + ext) == Err(InvalidLiteral)
  {
    var p := Prefix(split);
    var name := p + d + ext;
    assert name[..|p|] == p;
    var stem := Stem(name, |p|);
    assert stem == name[|p|..|name| - ExtensionLength] == d + [ext[0]];
    assert IsDigit(stem[0]);
    assert TrimLeft(stem) == stem;
    assert TrimRight(stem) == stem;
    PrefixesExclusive(name);
  }

  /** A separator character between prefix and digits, as in `COCO_train2014_\x1c9.jpg`, makes `int()` fail. */
  lemma FilterRejectsSeparator(split: Split, d: string, ext: string)
    requires d != [] && AllDigits(d)
    requires |ext| == ExtensionLength
    ensures FilterImageName(Prefix(split) + (['\U{1C}'] + d) + ext) == Err(InvalidLiteral)
  {
    var p := Prefix(split);
    var name := p + (['\U{1C}'] + d) + ext;
    assert name[..|p|] == p;
    assert Stem(name, |p|) == ['\U{1C}'] + d;
    ParseIntRejectsSeparator(d);
    PrefixesExclusive(name);
  }
}
