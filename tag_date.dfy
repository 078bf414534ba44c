/** `extract_date_from_tag`, whose code both scripts share: find the
    leftmost place where the configured prefix, taken literally, is followed by
    `DDDD-DD-DD` (the `full-date` shape of section 5.6 of RFC 3339), then accept
    the digits only if they name a real calendar date.  Also the scan that picks
    a product's release-date tag: the first tag that starts with the prefix and
    yields a date. */
module TagDate {
  import opened Options
  import opened Calendar

  predicate IsDigit(c: char) {
    '0' <= c <= '9'
  }

  function DigitValue(c: char): int {
    c as int - '0' as int
  }

  /** The decimal number written by a run of digits, as `int("0042") == 42`. */
  function DigitsValue(s: seq<char>): int {
    if s == [] then 0 else 10 * DigitsValue(s[..|s| - 1]) + DigitValue(s[|s| - 1])
  }

  predicate StartsWith(s: seq<char>, prefix: seq<char>) {
    |prefix| <= |s| && s[..|prefix|] == prefix
  }

  /** `s[i..i+10]` has the shape `DDDD-DD-DD`. */
  predicate DateShapeAt(s: seq<char>, i: int) {
    0 <= i && i + 10 <= |s|
    && IsDigit(s[i]) && IsDigit(s[i + 1]) && IsDigit(s[i + 2]) && IsDigit(s[i + 3])
    && s[i + 4] == '-'
    && IsDigit(s[i + 5]) && IsDigit(s[i + 6])
    && s[i + 7] == '-'
    && IsDigit(s[i + 8]) && IsDigit(s[i + 9])
  }

  /** The pattern matches `tag` at position `i`: the prefix, character for
      character, then the date shape. */
  predicate MatchesAt(tag: string, prefix: string, i: int) {
    0 <= i && i + |prefix| <= |tag| && tag[i..i + |prefix|] == prefix
    && DateShapeAt(tag, i + |prefix|)
  }

  /** `i` is where a search from the start of `tag` finds the pattern. */
  predicate IsLeftmostMatch(tag: string, prefix: string, i: int) {
    MatchesAt(tag, prefix, i) && forall j :: 0 <= j < i ==> !MatchesAt(tag, prefix, j)
  }

  /** The three captured groups of a match, read as numbers. */
  function DateAt(tag: string, prefix: string, i: int): Date
    requires MatchesAt(tag, prefix, i)
  {
    var k := i + |prefix|;
    Date(DigitsValue(tag[k..k + 4]), DigitsValue(tag[k + 5..k + 7]), DigitsValue(tag[k + 8..k + 10]))
  }

  /** The leftmost match at or after `from`. */
  function FindMatch(tag: string, prefix: string, from: nat): (r: Option<nat>)
    ensures r.Some? ==> from <= r.value && MatchesAt(tag, prefix, r.value)
    ensures r.Some? ==> forall j :: from <= j < r.value ==> !MatchesAt(tag, prefix, j)
    ensures r.None? ==> forall j :: from <= j ==> !MatchesAt(tag, prefix, j)
    decreases |tag| - from
  {
    if |tag| < from + |prefix| + 10 then None
    else if MatchesAt(tag, prefix, from) then Some(from)
    else FindMatch(tag, prefix, from + 1)
  }

  /** The release date in a tag name, or `None`. */
  function ExtractDate(tag: string, prefix: string): (r: Option<Date>)
    ensures r.Some? ==> IsValidDate(r.value)
  {
    match FindMatch(tag, prefix, 0)
    case None => None
    case Some(i) =>
      var d := DateAt(tag, prefix, i);
      if IsValidDate(d) then Some(d) else None
  }

  /** `ExtractDate` returns `None` unless the prefix followed by the date shape
      occurs somewhere in the tag.  Only the leftmost occurrence is considered:
      it yields its date when that date is valid, and `None` otherwise, even if
      a later occurrence would be valid. */
  lemma ExtractDateSpec(tag: string, prefix: string)
    ensures (forall i :: !MatchesAt(tag, prefix, i)) ==> ExtractDate(tag, prefix).None?
    ensures forall i :: IsLeftmostMatch(tag, prefix, i) ==>
      ExtractDate(tag, prefix) == (if IsValidDate(DateAt(tag, prefix, i)) then Some(DateAt(tag, prefix, i)) else None)
  {
    var m := FindMatch(tag, prefix, 0);
    forall i | IsLeftmostMatch(tag, prefix, i) ensures m == Some(i) {
    }
  }

  function DigitChar(n: int): char
    requires 0 <= n < 10
  {
    ('0' as int + n) as char
  }

  /** A number below 100 written with two digits. */
  function Pad2(n: int): (s: string)
    requires 0 <= n < 100
    ensures |s| == 2
  {
    [DigitChar(n / 10), DigitChar(n % 10)]
  }

  /** The fields fit the `YYYY-MM-DD` widths; every valid date does. */
  predicate IsWritable(d: Date) {
    0 <= d.year < 10000 && 0 <= d.month < 100 && 0 <= d.day < 100
  }

  /** A date written as `YYYY-MM-DD`, with leading zeros. */
  function FormatDate(d: Date): (s: string)
    requires IsWritable(d)
    ensures |s| == 10
  {
    Pad2(d.year / 100) + Pad2(d.year % 100) + "-" + Pad2(d.month) + "-" + Pad2(d.day)
  }

  lemma DigitRoundTrip(n: int)
    requires 0 <= n < 10
    ensures IsDigit(DigitChar(n)) && DigitValue(DigitChar(n)) == n
  {
  }

  lemma TwoDigits(n: int)
    requires 0 <= n < 100
    ensures DigitsValue(Pad2(n)) == n
  {
    var s := Pad2(n);
    DigitRoundTrip(n / 10); DigitRoundTrip(n % 10);
    assert s[..1][..0] == [] && s[..|s| - 1] == s[..1];
    assert DigitsValue(s[..1]) == n / 10;
  }

  lemma FourDigits(n: int)
    requires 0 <= n < 10000
    ensures DigitsValue(Pad2(n / 100) + Pad2(n % 100)) == n
  {
    var hi, lo := Pad2(n / 100), Pad2(n % 100);
    var s := hi + lo;
    TwoDigits(n / 100); TwoDigits(n % 100);
    DigitRoundTrip(n % 100 / 10); DigitRoundTrip(n % 100 % 10);
    assert s[..3][..2] == hi && s[..|s| - 1] == s[..3];
    assert DigitsValue(s[..3]) == 10 * DigitsValue(hi) + n % 100 / 10;
  }

  /** A tag made of the prefix, a date written `YYYY-MM-DD` and anything after
      it matches at its start, and the match reads back as that date. */
  lemma FormattedMatch(prefix: string, d: Date, rest: string)
    requires IsWritable(d)
    ensures IsLeftmostMatch(prefix + FormatDate(d) + rest, prefix, 0)
    ensures DateAt(prefix + FormatDate(d) + rest, prefix, 0) == d
  {
    var tag := prefix + FormatDate(d) + rest;
    var k := |prefix|;
    assert tag[0..k] == prefix;
    assert tag[k..k + 10] == FormatDate(d);
    assert MatchesAt(tag, prefix, 0);
    assert tag[k..k + 4] == Pad2(d.year / 100) + Pad2(d.year % 100);
    assert tag[k + 5..k + 7] == Pad2(d.month) && tag[k + 8..k + 10] == Pad2(d.day);
    FourDigits(d.year);
    TwoDigits(d.month);
    TwoDigits(d.day);
  }

  /** Round trip: a tag made of the prefix, a date written `YYYY-MM-DD`, and
      anything after it, yields exactly that date when it is a calendar date
      and `None` when it is not (whatever a later part of the tag holds). */
  lemma ExtractFormatted(prefix: string, d: Date, rest: string)
    requires IsWritable(d)
    ensures ExtractDate(prefix + FormatDate(d) + rest, prefix) == if IsValidDate(d) then Some(d) else None
  {
    FormattedMatch(prefix, d, rest);
    ExtractDateSpec(prefix + FormatDate(d) + rest, prefix);
  }

  /** The prefix is compared character by character: a `.` in it matches only a
      `.`, never an arbitrary character as it would in a raw pattern. */
  lemma PrefixIsLiteral()
    ensures ExtractDate("axb-2025-01-01", "a.b-") == None
  {
    var tag, prefix := "axb-2025-01-01", "a.b-";
    forall i ensures !MatchesAt(tag, prefix, i) {
      if 0 <= i && i + 14 <= |tag| {
        assert i == 0 && tag[0..4] == "axb-";
      }
    }
    ExtractDateSpec(tag, prefix);
  }

  /** A well-formed tag whose digits are no calendar date yields `None`. */
  lemma InvalidDateIsAbsent()
    ensures ExtractDate("new release-2025-13-40", "new release-") == None
  {
    var tag, prefix := "new release-2025-13-40", "new release-";
    assert tag[0..|prefix|] == prefix;
    assert MatchesAt(tag, prefix, 0) && IsLeftmostMatch(tag, prefix, 0);
    ExtractDateSpec(tag, prefix);
    assert tag[17..19] == Pad2(13);
    TwoDigits(13);
  }

  /** A tag name qualifies as a release-date tag: it starts with the prefix and
      the parser finds a date in it. */
  predicate IsDateTag(name: string, prefix: string) {
    StartsWith(name, prefix) && ExtractDate(name, prefix).Some?
  }

  datatype DateTag = DateTag(name: string, date: Date)

  /** The first qualifying tag, in the given order; later ones are ignored. */
  function FirstDateTag(names: seq<string>, prefix: string): (r: Option<DateTag>)
    ensures r.Some? ==> StartsWith(r.value.name, prefix) && ExtractDate(r.value.name, prefix) == Some(r.value.date)
    ensures r.Some? ==> IsValidDate(r.value.date)
  {
    if names == [] then None
    else if IsDateTag(names[0], prefix) then Some(DateTag(names[0], ExtractDate(names[0], prefix).value))
    else FirstDateTag(names[1..], prefix)
  }

  /** `FirstDateTag` finds a tag exactly when some name qualifies, and then it is
      the name at the smallest qualifying position. */
  lemma {:induction false} FirstDateTagIsFirst(names: seq<string>, prefix: string)
    ensures var r := FirstDateTag(names, prefix);
      && (r.None? <==> forall k :: 0 <= k < |names| ==> !IsDateTag(names[k], prefix))
      && (r.Some? ==> exists k :: 0 <= k < |names| && names[k] == r.value.name && IsDateTag(names[k], prefix)
                                 && forall j :: 0 <= j < k ==> !IsDateTag(names[j], prefix))
  {
    if names != [] && !IsDateTag(names[0], prefix) {
      var rest := names[1..];
      FirstDateTagIsFirst(rest, prefix);
      var r := FirstDateTag(rest, prefix);
      if r.Some? {
        var k :| 0 <= k < |rest| && rest[k] == r.value.name && IsDateTag(rest[k], prefix)
                 && forall j :: 0 <= j < k ==> !IsDateTag(rest[j], prefix);
        assert names[k + 1] == rest[k];
        forall j | 0 <= j < k + 1 ensures !IsDateTag(names[j], prefix) {
          if j > 0 { assert names[j] == rest[j - 1]; }
        }
      } else {
        forall k | 0 <= k < |names| ensures !IsDateTag(names[k], prefix) {
          if k > 0 { assert names[k] == rest[k - 1]; }
        }
      }
    }
  }

  /** How the scan proceeds one name at a time: a qualifying name ends it,
      any other name is passed over. */
  lemma FirstDateTagCons(name: string, rest: seq<string>, prefix: string)
    ensures FirstDateTag([name] + rest, prefix) ==
      if IsDateTag(name, prefix) then Some(DateTag(name, ExtractDate(name, prefix).value))
      else FirstDateTag(rest, prefix)
  {
    assert ([name] + rest)[1..] == rest;
  }
}
