/** Order identifiers: `ORD-<YYMMDD>-<n>` with n a per-day counter,
    zero-padded to at least two digits. */
module OrderIds {
  import opened Wrappers
  import opened Text

  /** strftime("%y%m%d"): two-digit year, month and day. */
  function DayStamp(year: nat, month: nat, day: nat): (stamp: string)
    requires 1 <= month <= 12 && 1 <= day <= 31
    ensures |stamp| == 6 && AllDigits(stamp)
  {
    Pad2(year % 100) + Pad2(month) + Pad2(day)
  }

  /** The stamp reads back as the date: year modulo 100, month and day,
      two digits each. */
  lemma {:induction false} DayStampRoundTrip(year: nat, month: nat, day: nat)
    requires 1 <= month <= 12 && 1 <= day <= 31
    ensures var stamp := DayStamp(year, month, day);
            StringToNat(stamp[..2]) == year % 100
            && StringToNat(stamp[2..4]) == month
            && StringToNat(stamp[4..]) == day
  {
    var stamp := DayStamp(year, month, day);
    assert stamp[..2] == Pad2(year % 100);
    assert stamp[2..4] == Pad2(month);
    assert stamp[4..] == Pad2(day);
    Pad2RoundTrip(year % 100);
    Pad2RoundTrip(month);
    Pad2RoundTrip(day);
  }

  function FormatOrderId(day: string, n: nat): string {
    "ORD-" + day + "-" + Pad2(n)
  }

  /** The number today's next order gets: one more than today's counter,
      which starts at 0. */
  function NextNumber(counters: map<string, nat>, today: string): (n: nat)
    ensures n >= 1
    ensures today !in counters ==> n == 1
    ensures today in counters ==> n == counters[today] + 1
  {
    Get(counters, today, 0) + 1
  }

  /** Read an identifier back, given the length of its day part. */
  function ParseOrderId(id: string, dayLength: nat): Option<(string, nat)> {
    if |id| < 5 + dayLength || id[..4] != "ORD-" || id[4 + dayLength] != '-' then None
    else
      var digits := id[5 + dayLength..];
      if digits == [] || !AllDigits(digits) then None
      else Some((id[4..4 + dayLength], StringToNat(digits)))
  }

  /** An identifier reads back as the day and number it was made from. */
  lemma {:induction false} ParseFormatted(day: string, n: nat)
    ensures ParseOrderId(FormatOrderId(day, n), |day|) == Some((day, n))
  {
    var id := FormatOrderId(day, n);
    var k := |day|;
    assert id[..4] == "ORD-";
    assert id[4..4 + k] == day;
    assert id[4 + k] == '-';
    assert id[5 + k..] == Pad2(n);
    Pad2RoundTrip(n);
  }

  /** Days of one length (as DayStamp's always are): different days or
      different numbers give different identifiers. */
  lemma {:induction false} FormatOrderIdInjective(d1: string, n1: nat, d2: string, n2: nat)
    requires |d1| == |d2| && FormatOrderId(d1, n1) == FormatOrderId(d2, n2)
    ensures d1 == d2 && n1 == n2
  {
    ParseFormatted(d1, n1);
    ParseFormatted(d2, n2);
  }

  /** The first order of 16 October 2026. */
  lemma {:induction false} FirstOrderOfTheDay()
    ensures FormatOrderId(DayStamp(2026, 10, 16), NextNumber(map[], DayStamp(2026, 10, 16))) == "ORD-261016-01"
  {
    Pad2TwoDigits(26);
    Pad2TwoDigits(10);
    Pad2TwoDigits(16);
    Pad2TwoDigits(1);
    assert DayStamp(2026, 10, 16) == "261016";
  }

  /** The counters after minting one identifier per listed day, in order. */
  function CountersAfter(counters: map<string, nat>, days: seq<string>): map<string, nat> {
    if days == [] then counters
    else
      var before := CountersAfter(counters, days[..|days| - 1]);
      var today := days[|days| - 1];
      before[today := NextNumber(before, today)]
  }

  /** The numbers those identifiers get. */
  function NumbersMinted(counters: map<string, nat>, days: seq<string>): (nums: seq<nat>)
    ensures |nums| == |days|
  {
    if days == [] then []
    else
      var prefix := days[..|days| - 1];
      NumbersMinted(counters, prefix) + [NextNumber(CountersAfter(counters, prefix), days[|days| - 1])]
  }

  function IdsMinted(counters: map<string, nat>, days: seq<string>): (ids: seq<string>)
    ensures |ids| == |days|
  {
    var nums := NumbersMinted(counters, days);
    seq(|days|, i requires 0 <= i < |days| => FormatOrderId(days[i], nums[i]))
  }

  /** Numbers of one day go up strictly and never exceed that day's counter;
      other days' counters are left alone. */
  lemma {:induction false} NumbersIncrease(counters: map<string, nat>, days: seq<string>)
    ensures var nums := NumbersMinted(counters, days);
            var final := CountersAfter(counters, days);
            && (forall i :: 0 <= i < |days| ==> nums[i] <= Get(final, days[i], 0))
            && (forall i, j :: 0 <= i < j < |days| && days[i] == days[j] ==> nums[i] < nums[j])
  {
    if days != [] {
      var prefix := days[..|days| - 1];
      var today := days[|days| - 1];
      NumbersIncrease(counters, prefix);
      var before := CountersAfter(counters, prefix);
      var nums := NumbersMinted(counters, days);
      assert nums[..|prefix|] == NumbersMinted(counters, prefix);
      forall i | 0 <= i < |prefix|
        ensures nums[i] <= Get(before, prefix[i], 0)
      {
        assert nums[i] == NumbersMinted(counters, prefix)[i];
      }
    }
  }

  /** Identifiers minted one after another, with day stamps of one length,
      are pairwise distinct. */
  lemma {:induction false} MintedIdsDistinct(counters: map<string, nat>, days: seq<string>)
    requires forall i :: 0 <= i < |days| ==> |days[i]| == 6
    ensures var ids := IdsMinted(counters, days);
            forall i, j :: 0 <= i < j < |ids| ==> ids[i] != ids[j]
  {
    var ids := IdsMinted(counters, days);
    var nums := NumbersMinted(counters, days);
    NumbersIncrease(counters, days);
    forall i, j | 0 <= i < j < |ids| ensures ids[i] != ids[j] {
      if ids[i] == ids[j] {
        FormatOrderIdInjective(days[i], nums[i], days[j], nums[j]);
      }
    }
  }
}
