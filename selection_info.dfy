/** The text of the selection-info element, `CH<channel> #<index>: <letter>`,
    with a dash standing in for a blank letter. A parser for that text shows
    that it names the selected sample and its letter unambiguously. */
module SelectionInfo {
  import opened Wrappers
  import opened Keys

  /** The dash shown for a sample without a letter: an em dash. */
  const Placeholder: string := "\U{2014}"

  /** The placeholder as the source spells it: the three characters that
      the UTF-8 bytes of an em dash become when read as Windows-1252. */
  const PlaceholderAsWritten: string := "\U{00E2}\U{20AC}\U{201D}"

  predicate IsDigit(c: char) { '0' <= c <= '9' }

  predicate AllDigits(s: string) { forall i | 0 <= i < |s| :: IsDigit(s[i]) }

  function DigitChar(d: nat): char
    requires d < 10
  {
    ('0' as int + d) as char
  }

  function DigitValue(c: char): nat
    requires IsDigit(c)
  {
    c as int - '0' as int
  }

  /** Decimal rendering of a non-negative integer, as JavaScript's template
      strings write one: at least one digit, no leading zero. */
  function Decimal(n: nat): (s: string)
    ensures |s| >= 1 && AllDigits(s)
    ensures |s| > 1 ==> s[0] != '0'
    decreases n
  {
    if n < 10 then [DigitChar(n)] else Decimal(n / 10) + [DigitChar(n % 10)]
  }

  /** The number a string of digits denotes. */
  function DigitsValue(s: string): nat
    requires AllDigits(s)
    decreases |s|
  {
    if s == [] then 0 else DigitsValue(s[..|s| - 1]) * 10 + DigitValue(s[|s| - 1])
  }

  /** Reading the decimal rendering back gives the number. */
  lemma {:induction false} DecimalRoundTrip(n: nat)
    ensures DigitsValue(Decimal(n)) == n
    decreases n
  {
    var s := Decimal(n);
    if n >= 10 {
      DecimalRoundTrip(n / 10);
      assert s[..|s| - 1] == Decimal(n / 10);
    }
  }

  /** The longest prefix of `s` made of digits. */
  function LeadingDigits(s: string): (d: string)
    ensures |d| <= |s| && d == s[..|d|] && AllDigits(d)
    ensures |d| < |s| ==> !IsDigit(s[|d|])
    decreases |s|
  {
    if s == [] || !IsDigit(s[0]) then [] else [s[0]] + LeadingDigits(s[1..])
  }

  /** A run of digits followed by a non-digit (or nothing) is read as exactly that run. */
  lemma {:induction false} LeadingDigitsOfRun(d: string, t: string)
    requires AllDigits(d)
    requires t == [] || !IsDigit(t[0])
    ensures LeadingDigits(d + t) == d
    decreases |d|
  {
    if d != [] {
      assert (d + t)[0] == d[0];
      assert (d + t)[1..] == d[1..] + t;
      LeadingDigitsOfRun(d[1..], t);
    }
  }

  /** What the letter part of the text shows: the letter, or `placeholder`
      when the display is blank. Reading back (`Unshown`) recovers every
      label, provided the placeholder is not itself a one-letter label. */
  function Shown(placeholder: string, letter: string): (s: string)
    ensures IsLabel(letter) && (placeholder == "" || !IsLabel(placeholder)) ==>
      Unshown(placeholder, s) == letter
  {
    if letter == "" then placeholder else letter
  }

  /** The letter a shown letter part stands for. */
  function Unshown(placeholder: string, shown: string): string {
    if shown == placeholder then "" else shown
  }

  /** The selection-info text for the sample at `index` of `channel` whose
      letter display holds `letter`, with `placeholder` for a blank one. */
  function InfoTextWith(placeholder: string, channel: nat, index: nat, letter: string): (t: string)
    ensures |t| >= 8 + |Shown(placeholder, letter)|
    ensures t[..2] == "CH"
    ensures t[|t| - |Shown(placeholder, letter)|..] == Shown(placeholder, letter)
  {
    "CH" + Decimal(channel) + " #" + Decimal(index) + ": " + Shown(placeholder, letter)
  }

  /** The selection-info text with the intended em dash for a blank letter. */
  function InfoText(channel: nat, index: nat, letter: string): (t: string)
    ensures |t| >= 8 + |letter|
    ensures t[..2] == "CH"
    ensures letter == "" ==> t[|t| - 1..] == Placeholder
    ensures letter != "" ==> t[|t| - |letter|..] == letter
  {
    InfoTextWith(Placeholder, channel, index, letter)
  }

  /** The selection-info text as the source writes it, with the misencoded
      placeholder for a blank letter; this is what the editor shows. */
  function InfoTextAsWritten(channel: nat, index: nat, letter: string): (t: string)
    ensures |t| >= 8 + |letter|
    ensures t[..2] == "CH"
    ensures letter == "" ==> t[|t| - 3..] == PlaceholderAsWritten
    ensures letter != "" ==> t[|t| - |letter|..] == letter
  {
    InfoTextWith(PlaceholderAsWritten, channel, index, letter)
  }

  /** The fields a selection-info text names. */
  datatype InfoFields = InfoFields(channel: nat, index: nat, letter: string)

  /** Reads `tag` followed by a non-empty run of digits off the front of
      `s`, giving the number and what follows it. */
  function ReadNumberAfter(tag: string, s: string): Option<(nat, string)> {
    if |s| < |tag| || s[..|tag|] != tag then None
    else
      var d := LeadingDigits(s[|tag|..]);
      if d == [] then None else Some((DigitsValue(d), s[|tag| + |d|..]))
  }

  /** A tag and a decimal number followed by a non-digit read back as that number. */
  lemma ReadNumberAfterRoundTrip(tag: string, n: nat, t: string)
    requires t == [] || !IsDigit(t[0])
    ensures ReadNumberAfter(tag, tag + Decimal(n) + t) == Some((n, t))
  {
    var d := Decimal(n);
    var s := tag + d + t;
    assert s[..|tag|] == tag;
    assert s[|tag|..] == d + t;
    LeadingDigitsOfRun(d, t);
    assert s[|tag| + |d|..] == t;
    DecimalRoundTrip(n);
  }

  /** Reads a selection-info text, written with `placeholder`, back into its fields. */
  function ParseInfoWith(placeholder: string, s: string): Option<InfoFields> {
    match ReadNumberAfter("CH", s)
    case None => None
    case Some((channel, r1)) =>
      match ReadNumberAfter(" #", r1)
      case None => None
      case Some((index, r2)) =>
        if |r2| < 2 || r2[..2] != ": " then None
        else Some(InfoFields(channel, index, Unshown(placeholder, r2[2..])))
  }

  /** Reads the intended selection-info text back into its fields. */
  function ParseInfo(s: string): Option<InfoFields> {
    ParseInfoWith(Placeholder, s)
  }

  /** Reads the selection-info text as the editor writes it back into its fields. */
  function ParseInfoAsWritten(s: string): Option<InfoFields> {
    ParseInfoWith(PlaceholderAsWritten, s)
  }

  /** The parser reads the channel after "CH", the index after " #", and the
      letter after ": ". */
  lemma ParseInfoReads(placeholder: string, s: string, r1: string, r2: string, channel: nat, index: nat)
    requires ReadNumberAfter("CH", s) == Some((channel, r1))
    requires ReadNumberAfter(" #", r1) == Some((index, r2))
    requires |r2| >= 2 && r2[..2] == ": "
    ensures ParseInfoWith(placeholder, s) == Some(InfoFields(channel, index, Unshown(placeholder, r2[2..])))
  {
  }

  /** The text names its sample and letter, whatever placeholder it uses
      for a blank letter, as long as that placeholder is not a letter itself. */
  lemma InfoTextWithRoundTrip(placeholder: string, channel: nat, index: nat, letter: string)
    requires IsLabel(letter)
    requires placeholder == "" || !IsLabel(placeholder)
    ensures ParseInfoWith(placeholder, InfoTextWith(placeholder, channel, index, letter))
            == Some(InfoFields(channel, index, letter))
  {
    var shown := Shown(placeholder, letter);
    var tail := ": " + shown;
    var r1 := " #" + Decimal(index) + tail;
    var s := InfoTextWith(placeholder, channel, index, letter);
    assert ReadNumberAfter("CH", s) == Some((channel, r1)) by {
      assert s == "CH" + Decimal(channel) + r1;
      ReadNumberAfterRoundTrip("CH", channel, r1);
    }
    assert ReadNumberAfter(" #", r1) == Some((index, tail)) by {
      ReadNumberAfterRoundTrip(" #", index, tail);
    }
    assert tail[..2] == ": " && tail[2..] == shown;
    ParseInfoReads(placeholder, s, r1, tail, channel, index);
  }

  /** The intended text names its sample and letter: parsing it gives them
      back, for every letter a sample can hold. */
  lemma InfoTextRoundTrip(channel: nat, index: nat, letter: string)
    requires IsLabel(letter)
    ensures ParseInfo(InfoText(channel, index, letter)) == Some(InfoFields(channel, index, letter))
  {
    InfoTextWithRoundTrip(Placeholder, channel, index, letter);
  }

  /** The text the editor actually writes names its sample and letter just
      as well: the misencoded placeholder is no letter either. */
  lemma InfoTextAsWrittenRoundTrip(channel: nat, index: nat, letter: string)
    requires IsLabel(letter)
    ensures ParseInfoAsWritten(InfoTextAsWritten(channel, index, letter)) == Some(InfoFields(channel, index, letter))
  {
    InfoTextWithRoundTrip(PlaceholderAsWritten, channel, index, letter);
  }

  /** Two selections show the same intended text only if they name the same
      sample with the same letter. */
  lemma InfoTextInjective(c1: nat, i1: nat, l1: string, c2: nat, i2: nat, l2: string)
    requires IsLabel(l1) && IsLabel(l2)
    requires InfoText(c1, i1, l1) == InfoText(c2, i2, l2)
    ensures c1 == c2 && i1 == i2 && l1 == l2
  {
    InfoTextRoundTrip(c1, i1, l1);
    InfoTextRoundTrip(c2, i2, l2);
  }

  /** Two selections show the same text in the editor only if they name the
      same sample with the same letter. */
  lemma InfoTextAsWrittenInjective(c1: nat, i1: nat, l1: string, c2: nat, i2: nat, l2: string)
    requires IsLabel(l1) && IsLabel(l2)
    requires InfoTextAsWritten(c1, i1, l1) == InfoTextAsWritten(c2, i2, l2)
    ensures c1 == c2 && i1 == i2 && l1 == l2
  {
    InfoTextAsWrittenRoundTrip(c1, i1, l1);
    InfoTextAsWrittenRoundTrip(c2, i2, l2);
  }

  /** Windows-1252 reading of the bytes this finding involves: 0x80 is the
      euro sign, 0x94 a right double quotation mark, and 0xA0-0xFF are the
      Latin-1 characters of the same number. */
  function Cp1252(b: nat): Option<char> {
    if b == 0x80 then Some('\U{20AC}')
    else if b == 0x94 then Some('\U{201D}')
    else if 0xA0 <= b <= 0xFF then Some(b as char)
    else None
  }

  /** The UTF-8 bytes of a code point that takes three of them. */
  function Utf8ThreeBytes(cp: nat): seq<nat>
    requires 0x800 <= cp < 0x10000
  {
    [0xE0 + cp / 0x1000, 0x80 + (cp / 0x40) % 0x40, 0x80 + cp % 0x40]
  }

  /** The placeholder as written is the em dash's UTF-8 encoding misread as
      Windows-1252, so an unlabelled selection shows three stray characters
      where one dash was meant. */
  lemma PlaceholderAsWrittenIsMisencoded()
    ensures Placeholder == ['\U{2014}']
    ensures Utf8ThreeBytes(0x2014) == [0xE2, 0x80, 0x94]
    ensures PlaceholderAsWritten
            == [Cp1252(0xE2).value, Cp1252(0x80).value, Cp1252(0x94).value]
    ensures InfoTextAsWritten(1, 0, "") != InfoText(1, 0, "")
    ensures InfoTextAsWritten(1, 0, "") == "CH1 #0: \U{00E2}\U{20AC}\U{201D}"
  {
  }

  /** The two spellings agree on every sample that carries a letter. */
  lemma AsWrittenAgreesOnLetters(channel: nat, index: nat, letter: string)
    requires letter != ""
    ensures InfoTextAsWritten(channel, index, letter) == InfoText(channel, index, letter)
  {
  }
}
