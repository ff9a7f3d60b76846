/**
 * Selection of the hourly forecast slot that matches the sunset hour: the slot whose
 * timestamp contains "T" followed by the zero-padded hour and a colon, the first such
 * slot winning, and slot 0 when no timestamp matches.
 */
module HourSlot {

  import opened Wrappers

  /** An hour of the day, as a datetime's `hour` field gives it. */
  type Hour = h: int | 0 <= h <= 23

  /** The numeric value of a decimal digit character. */
  function DigitValue(c: char): int
  {
    c as int - '0' as int
  }

  function DigitChar(d: int): (c: char)
    requires 0 <= d <= 9
    ensures '0' <= c <= '9' && DigitValue(c) == d
  {
    ('0' as int + d) as char
  }

  /** The hour written with two digits, zero-padded (the `02d` format). */
  function Pad2(h: Hour): (s: string)
    ensures |s| == 2
    ensures '0' <= s[0] <= '9' && '0' <= s[1] <= '9'
    ensures DigitValue(s[0]) * 10 + DigitValue(s[1]) == h
  {
    [DigitChar(h / 10), DigitChar(h % 10)]
  }

  /** The text searched for in each timestamp, e.g. "T17:" for hour 17. */
  function HourPattern(h: Hour): string
  {
    "T" + Pad2(h) + ":"
  }

  /** `p` occurs in `t` starting at position `k`. */
  ghost predicate OccursAt(t: string, p: string, k: nat)
  {
    k + |p| <= |t| && t[k..k + |p|] == p
  }

  /** Substring test: `p in t`. */
  function Contains(t: string, p: string): bool
    decreases |t|
  {
    if |t| < |p| then false
    else if t[..|p|] == p then true
    else Contains(t[1..], p)
  }

  /** `Contains` holds exactly when the pattern occurs at some position. */
  lemma {:induction false} ContainsIff(t: string, p: string)
    ensures Contains(t, p) <==> exists k: nat :: OccursAt(t, p, k)
    decreases |t|
  {
    if |t| < |p| {
    } else if t[..|p|] == p {
      assert OccursAt(t, p, 0);
    } else {
      ContainsIff(t[1..], p);
      if Contains(t[1..], p) {
        var k: nat :| OccursAt(t[1..], p, k);
        assert t[1..][k..k + |p|] == t[k + 1..k + 1 + |p|];
        assert OccursAt(t, p, k + 1);
      } else {
        forall k: nat | OccursAt(t, p, k)
          ensures false
        {
          assert k != 0;
          assert t[1..][k - 1..k - 1 + |p|] == t[k..k + |p|];
          assert OccursAt(t[1..], p, k - 1);
        }
      }
    }
  }

  /** The first index at or after `i` whose timestamp contains `p`, if any. */
  function FindFrom(times: seq<string>, p: string, i: nat): (r: Option<nat>)
    requires i <= |times|
    ensures r.Some? ==> i <= r.value < |times| && Contains(times[r.value], p)
    ensures r.Some? ==> forall j :: i <= j < r.value ==> !Contains(times[j], p)
    ensures r.None? <==> forall j :: i <= j < |times| ==> !Contains(times[j], p)
    decreases |times| - i
  {
    if i == |times| then None
    else if Contains(times[i], p) then Some(i)
    else FindFrom(times, p, i + 1)
  }

  /** The slot chosen for hour `h`: the first matching timestamp, or 0 when none matches. */
  function SlotIndex(times: seq<string>, h: Hour): (k: nat)
    ensures (exists i :: 0 <= i < |times| && Contains(times[i], HourPattern(h))) ==>
              k < |times| && Contains(times[k], HourPattern(h)) &&
              forall j :: 0 <= j < k ==> !Contains(times[j], HourPattern(h))
    ensures (forall i :: 0 <= i < |times| ==> !Contains(times[i], HourPattern(h))) ==> k == 0
  {
    match FindFrom(times, HourPattern(h), 0)
    case Some(k) => k
    case None => 0
  }

  /** No 'T' anywhere in `s`. */
  ghost predicate NoT(s: string)
  {
    forall k :: 0 <= k < |s| ==> s[k] != 'T'
  }

  /** An ISO-8601 local timestamp at hour resolution: date, 'T', hour, ':', minutes. */
  function Timestamp(date: string, h: Hour, minutes: string): string
  {
    date + "T" + Pad2(h) + ":" + minutes
  }

  /** Two hours with the same two-digit rendering are the same hour. */
  lemma Pad2Injective(a: Hour, b: Hour)
    requires Pad2(a) == Pad2(b)
    ensures a == b
  {
    assert Pad2(a)[0] == Pad2(b)[0] && Pad2(a)[1] == Pad2(b)[1];
  }

  /** A well-formed timestamp matches the pattern of its own hour and of no other hour. */
  lemma {:induction false} TimestampMatchesOwnHour(date: string, stamped: Hour, minutes: string, h: Hour)
    requires NoT(date) && NoT(minutes)
    ensures Contains(Timestamp(date, stamped, minutes), HourPattern(h)) <==> h == stamped
  {
    var t := Timestamp(date, stamped, minutes);
    var p := HourPattern(h);
    var n := |date|;
    assert |t| == n + 4 + |minutes|;
    assert t[n..n + 4] == HourPattern(stamped);
    ContainsIff(t, p);
    if h == stamped {
      assert OccursAt(t, p, n);
    } else {
      forall k: nat | OccursAt(t, p, k)
        ensures false
      {
        assert t[k] == p[0];
        if k == n {
          assert Pad2(stamped) == t[n + 1..n + 3] == p[1..3] == Pad2(h);
          Pad2Injective(stamped, h);
        }
      }
    }
  }

  /** On a series of well-formed timestamps, the selected slot is the first one whose
      hour is `h`, and slot 0 when no timestamp carries that hour. */
  lemma SlotOfHourlySeries(times: seq<string>, dates: seq<string>, hours: seq<Hour>,
                           minutes: seq<string>, h: Hour)
    requires |dates| == |times| && |hours| == |times| && |minutes| == |times|
    requires forall i :: 0 <= i < |times| ==>
               NoT(dates[i]) && NoT(minutes[i]) && times[i] == Timestamp(dates[i], hours[i], minutes[i])
    ensures (exists i :: 0 <= i < |hours| && hours[i] == h) ==>
              SlotIndex(times, h) < |times| && hours[SlotIndex(times, h)] == h &&
              forall j :: 0 <= j < SlotIndex(times, h) ==> hours[j] != h
    ensures (forall i :: 0 <= i < |hours| ==> hours[i] != h) ==> SlotIndex(times, h) == 0
  {
    forall i | 0 <= i < |times|
      ensures Contains(times[i], HourPattern(h)) <==> hours[i] == h
    {
      TimestampMatchesOwnHour(dates[i], hours[i], minutes[i], h);
    }
  }
}
