/** The pure parts of the Prepare stage: the zodiac sign of a birthdate
    string, and the object key under which the prepared input file is
    stored (and recorded as the batch's `input_file`). */
module BatchPrepare {
  import opened Values

  const OUTPUT_PREFIX: string := "openai/input"

  /** A table entry: from (month, day) on, the sign is `sign`. */
  datatype Cutoff = Cutoff(month: int, day: int, sign: string)

  const Zodiac: seq<Cutoff> := [
    Cutoff(1, 20, "Aquarius"), Cutoff(2, 19, "Pisces"), Cutoff(3, 21, "Aries"),
    Cutoff(4, 20, "Taurus"), Cutoff(5, 21, "Gemini"), Cutoff(6, 21, "Cancer"),
    Cutoff(7, 23, "Leo"), Cutoff(8, 23, "Virgo"), Cutoff(9, 23, "Libra"),
    Cutoff(10, 23, "Scorpio"), Cutoff(11, 22, "Sagittarius"),
    Cutoff(12, 22, "Capricorn")
  ]

  const SignNames: set<string> := {
    "Aquarius", "Pisces", "Aries", "Taurus", "Gemini", "Cancer",
    "Leo", "Virgo", "Libra", "Scorpio", "Sagittarius", "Capricorn"
  }

  /** Python's `s[lo:hi]`: out-of-range bounds are clamped, never an error. */
  function Slice(s: string, lo: nat, hi: nat): (r: string)
    requires lo <= hi
    ensures |r| <= hi - lo
    ensures hi <= |s| ==> r == s[lo..hi]
  {
    if lo >= |s| then "" else if hi >= |s| then s[lo..] else s[lo..hi]
  }

  predicate IsDigit(c: char) {
    '0' <= c <= '9'
  }

  predicate AllDigits(s: string) {
    forall i :: 0 <= i < |s| ==> IsDigit(s[i])
  }

  /** The value of one decimal digit. */
  function DigitValue(c: char): nat
    requires IsDigit(c)
  {
    (c - '0') as nat
  }

  /** The value of a string of decimal digits. */
  function DigitsValue(s: string): nat
    requires AllDigits(s)
  {
    if s == "" then 0 else DigitsValue(s[..|s| - 1]) * 10 + DigitValue(s[|s| - 1])
  }

  /** `int(s)`, restricted to a non-empty run of ASCII decimal digits;
      None where Python raises ValueError. */
  function ParseInt(s: string): Option<int> {
    if s != "" && AllDigits(s) then Some(DigitsValue(s)) else None
  }

  /** `(month, day) >= (m, d)` on Python tuples: lexicographic. */
  predicate AtOrAfter(month: int, day: int, k: nat)
    requires k < |Zodiac|
  {
    month > Zodiac[k].month || (month == Zodiac[k].month && day >= Zodiac[k].day)
  }

  /** `for (m, d), sign in reversed(zodiac)` over the first `n` entries,
      returning at the first cutoff the date is at or after. */
  function ScanReversed(month: int, day: int, n: nat): (r: string)
    requires n <= |Zodiac|
    ensures r in SignNames
  {
    if n == 0 then "Capricorn"
    else if AtOrAfter(month, day, n - 1) then Zodiac[n - 1].sign
    else ScanReversed(month, day, n - 1)
  }

  function SignOf(month: int, day: int): string {
    ScanReversed(month, day, |Zodiac|)
  }

  /** `get_zodiac_sign`: month from characters 0-1, day from 3-4. */
  function ZodiacSign(birthdate: string): (r: string)
    ensures r in SignNames || r == "Unknown"
  {
    var month := ParseInt(Slice(birthdate, 0, 2));
    var day := ParseInt(Slice(birthdate, 3, 5));
    if month.None? || day.None? then "Unknown" else SignOf(month.value, day.value)
  }

  /** The cutoffs are in strictly increasing order. */
  lemma CutoffsIncrease(i: nat, j: nat)
    requires i < j < |Zodiac|
    ensures Zodiac[i].month < Zodiac[j].month
  {
  }

  /** Being at or after a cutoff implies being at or after every earlier one. */
  lemma AtOrAfterEarlier(month: int, day: int, i: nat, j: nat)
    requires i < j < |Zodiac| && AtOrAfter(month, day, j)
    ensures AtOrAfter(month, day, i)
  {
    CutoffsIncrease(i, j);
  }

  /** The scan returns the sign of the latest cutoff (among the first `n`)
      that the date is at or after. */
  lemma {:induction false} ScanFindsLatest(month: int, day: int, n: nat, k: nat)
    requires k < n <= |Zodiac|
    requires AtOrAfter(month, day, k)
    requires forall j :: k < j < n ==> !AtOrAfter(month, day, j)
    ensures ScanReversed(month, day, n) == Zodiac[k].sign
  {
    if n - 1 > k {
      ScanFindsLatest(month, day, n - 1, k);
    }
  }

  /** The scan answers "Capricorn" exactly when the date precedes every
      cutoff considered, or is at or after the last one (12/22). */
  lemma {:induction false} ScanCapricorn(month: int, day: int, n: nat)
    requires n <= |Zodiac|
    ensures ScanReversed(month, day, n) == "Capricorn" <==>
      (forall j :: 0 <= j < n ==> !AtOrAfter(month, day, j)) || (n == |Zodiac| && AtOrAfter(month, day, n - 1))
  {
    if n > 0 && !AtOrAfter(month, day, n - 1) {
      ScanCapricorn(month, day, n - 1);
    }
  }

  /** `get_zodiac_sign` on a parsed date: the sign of the latest cutoff the
      date is at or after, and "Capricorn" when there is none. */
  lemma SignOfIsLatestCutoff(month: int, day: int)
    ensures (forall j :: 0 <= j < |Zodiac| ==> !AtOrAfter(month, day, j)) ==> SignOf(month, day) == "Capricorn"
    ensures forall k :: (0 <= k < |Zodiac| && AtOrAfter(month, day, k) &&
                         (forall j :: k < j < |Zodiac| ==> !AtOrAfter(month, day, j)))
                        ==> SignOf(month, day) == Zodiac[k].sign
  {
    ScanCapricorn(month, day, |Zodiac|);
    forall k | 0 <= k < |Zodiac| && AtOrAfter(month, day, k) &&
      (forall j :: k < j < |Zodiac| ==> !AtOrAfter(month, day, j))
      ensures SignOf(month, day) == Zodiac[k].sign
    {
      ScanFindsLatest(month, day, |Zodiac|, k);
    }
  }

  /** Between one cutoff (included) and the next (excluded) the sign is the
      first cutoff's. */
  lemma SignOfInterval(month: int, day: int, k: nat)
    requires k < |Zodiac| && AtOrAfter(month, day, k)
    requires k + 1 < |Zodiac| ==> !AtOrAfter(month, day, k + 1)
    ensures SignOf(month, day) == Zodiac[k].sign
  {
    forall j | k < j < |Zodiac| ensures !AtOrAfter(month, day, j) {
      if AtOrAfter(month, day, j) && j > k + 1 {
        AtOrAfterEarlier(month, day, k + 1, j);
      }
    }
    ScanFindsLatest(month, day, |Zodiac|, k);
  }

  /** A cutoff date itself has the new sign; the day before has the previous one
      (03/21 is Aries, 03/20 is Pisces; 01/19 is Capricorn). */
  lemma CutoffBoundaries(k: nat)
    requires k < |Zodiac|
    ensures SignOf(Zodiac[k].month, Zodiac[k].day) == Zodiac[k].sign
    ensures SignOf(Zodiac[k].month, Zodiac[k].day - 1) == if k == 0 then "Capricorn" else Zodiac[k - 1].sign
  {
    var m, d := Zodiac[k].month, Zodiac[k].day;
    var before := d - 1;
    SignOfInterval(m, d, k);
    if k == 0 {
      ScanCapricorn(m, before, |Zodiac|);
      forall j | 0 <= j < |Zodiac| ensures !AtOrAfter(m, before, j) {
        if j > 0 { CutoffsIncrease(0, j); }
      }
    } else {
      SignOfInterval(m, before, k - 1);
    }
  }

  /** "Capricorn" covers exactly the dates before 01/20 and those from 12/22
      on; month and day are not range-checked, so 13/40 is Capricorn and so
      is 00/15. */
  lemma CapricornWraps(month: int, day: int)
    ensures SignOf(month, day) == "Capricorn" <==> !AtOrAfter(month, day, 0) || AtOrAfter(month, day, |Zodiac| - 1)
  {
    ScanCapricorn(month, day, |Zodiac|);
    if AtOrAfter(month, day, 0) {
      assert !(forall j :: 0 <= j < |Zodiac| ==> !AtOrAfter(month, day, j));
    } else {
      forall j | 0 <= j < |Zodiac| ensures !AtOrAfter(month, day, j) {
        if j > 0 && AtOrAfter(month, day, j) { AtOrAfterEarlier(month, day, 0, j); }
      }
    }
  }

  /** The result is "Unknown" exactly when one of the two slices does not parse. */
  lemma UnknownIffUnparsable(birthdate: string)
    ensures ZodiacSign(birthdate) == "Unknown" <==>
      ParseInt(Slice(birthdate, 0, 2)).None? || ParseInt(Slice(birthdate, 3, 5)).None?
  {
  }

  lemma ParseTwoDigits(s: string)
    requires |s| == 2 && IsDigit(s[0]) && IsDigit(s[1])
    ensures ParseInt(s) == Some(DigitValue(s[0]) * 10 + DigitValue(s[1]))
  {
    var first := s[..1];
    assert first[..0] == [] && first[0] == s[0] && AllDigits(first);
    assert DigitsValue(first) == DigitValue(s[0]);
    assert s[..|s| - 1] == first;
    assert DigitsValue(s) == DigitsValue(first) * 10 + DigitValue(s[1]);
  }

  /** A birthdate starting with two digits, a separator and two more digits
      is read as month and day, whatever the separator and the rest. */
  lemma ZodiacOfPadded(birthdate: string)
    requires |birthdate| >= 5
    requires IsDigit(birthdate[0]) && IsDigit(birthdate[1]) && IsDigit(birthdate[3]) && IsDigit(birthdate[4])
    ensures ZodiacSign(birthdate) ==
      SignOf(DigitValue(birthdate[0]) * 10 + DigitValue(birthdate[1]), DigitValue(birthdate[3]) * 10 + DigitValue(birthdate[4]))
  {
    ParseTwoDigits(birthdate[0..2]);
    ParseTwoDigits(birthdate[3..5]);
  }

  /** A padded birthdate whose digits spell `month` and `day`. */
  lemma ZodiacOfDigits(birthdate: string, month: nat, day: nat)
    requires |birthdate| >= 5
    requires IsDigit(birthdate[0]) && IsDigit(birthdate[1]) && IsDigit(birthdate[3]) && IsDigit(birthdate[4])
    requires DigitValue(birthdate[0]) * 10 + DigitValue(birthdate[1]) == month
    requires DigitValue(birthdate[3]) * 10 + DigitValue(birthdate[4]) == day
    ensures ZodiacSign(birthdate) == SignOf(month, day)
  {
    ZodiacOfPadded(birthdate);
  }

  /** 21 March is the first day of Aries, 20 March the last of Pisces. */
  lemma ZodiacAriesBoundary()
    ensures ZodiacSign("03/21/1990") == "Aries"
    ensures ZodiacSign("03/20/1990") == "Pisces"
  {
    ZodiacOfDigits("03/21/1990", 3, 21);
    ZodiacOfDigits("03/20/1990", 3, 20);
    CutoffBoundaries(2);
    assert Zodiac[2].month == 3 && Zodiac[2].day - 1 == 20;
    assert Zodiac[2].sign == "Aries" && Zodiac[1].sign == "Pisces";
  }

  /** The month and day are not range-checked: a date past the last cutoff
      of the table, even an impossible one, is Capricorn. */
  lemma ZodiacOutOfRange()
    ensures ZodiacSign("13/40/1990") == "Capricorn"
  {
    ZodiacOfDigits("13/40/1990", 13, 40);
    CapricornWraps(13, 40);
  }

  /** A month written with one digit puts the separator into the month slice. */
  lemma ZodiacUnpadded()
    ensures ZodiacSign("3/21/1990") == "Unknown"
  {
    assert Slice("3/21/1990", 0, 2) == "3/";
    assert !IsDigit('/');
  }

  /** The prepared input file's key:
      `{OUTPUT_PREFIX}/{target_date}-{first 8 characters of the uuid}.jsonl`. */
  function InputFileKey(targetDate: string, uuid: string): string {
    OUTPUT_PREFIX + "/" + targetDate + "-" + Slice(uuid, 0, 8) + ".jsonl"
  }

  /** Reads the target date and the 8-character tag back out of a key. */
  function SplitInputKey(key: string): Option<(string, string)> {
    var pre := |OUTPUT_PREFIX| + 1;
    if |key| >= pre + 15 && key[..pre] == OUTPUT_PREFIX + "/" && key[|key| - 15] == '-'
       && key[|key| - 6..] == ".jsonl"
    then Some((key[pre..|key| - 15], key[|key| - 14..|key| - 6]))
    else None
  }

  /** The key records its target date and the uuid's first 8 characters,
      both recoverable from it. */
  lemma InputKeyRoundTrip(targetDate: string, uuid: string)
    requires |uuid| >= 8
    ensures SplitInputKey(InputFileKey(targetDate, uuid)) == Some((targetDate, uuid[..8]))
  {
    var key := InputFileKey(targetDate, uuid);
    var pre := |OUTPUT_PREFIX| + 1;
    assert key == (OUTPUT_PREFIX + "/") + targetDate + "-" + uuid[..8] + ".jsonl";
    assert key[..pre] == OUTPUT_PREFIX + "/";
    assert key[pre..|key| - 15] == targetDate;
    assert key[|key| - 14..|key| - 6] == uuid[..8];
    assert key[|key| - 6..] == ".jsonl";
  }

  /** Two keys coincide only for the same target date and uuid prefix. */
  lemma InputKeyInjective(d1: string, u1: string, d2: string, u2: string)
    requires |u1| >= 8 && |u2| >= 8
    requires InputFileKey(d1, u1) == InputFileKey(d2, u2)
    ensures d1 == d2 && u1[..8] == u2[..8]
  {
    InputKeyRoundTrip(d1, u1);
    InputKeyRoundTrip(d2, u2);
  }
}
