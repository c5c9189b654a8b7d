/**
 * Wind bearing to one of eight arrows. The table lists, per arrow, half-open integer ranges
 * `[lo, hi)` (a bearing is in `range(lo, hi)`), north owning both ends of the circle.
 */
module WindDirection {
  import opened Outcomes

  const North: string := "\U{2B06}"
  const NorthEast: string := "\U{2197}"
  const East: string := "\U{27A1}"
  const SouthEast: string := "\U{2198}"
  const South: string := "\U{2B07}"
  const SouthWest: string := "\U{2199}"
  const West: string := "\U{2B05}"
  const NorthWest: string := "\U{2196}"

  /** Returned for a missing bearing and for a bearing that falls in no range. */
  const Unknown: string := "\U{262F}"

  /** One entry of `WIND_DIRECTION_EMOJI`: an arrow and the ranges that select it. */
  datatype Bucket = Bucket(arrow: string, ranges: seq<(int, int)>)

  /** `WIND_DIRECTION_EMOJI`, in dictionary order. */
  const WindDirectionEmoji: seq<Bucket> := [
    Bucket(North, [(338, 360), (0, 23)]),
    Bucket(NorthEast, [(23, 68)]),
    Bucket(East, [(68, 113)]),
    Bucket(SouthEast, [(113, 158)]),
    Bucket(South, [(158, 203)]),
    Bucket(SouthWest, [(203, 248)]),
    Bucket(West, [(248, 293)]),
    Bucket(NorthWest, [(293, 338)])]

  /** The eight arrows clockwise from north. */
  const Arrows: seq<string> := [North, NorthEast, East, SouthEast, South, SouthWest, West, NorthWest]

  /** A bearing with no fractional part, as an integer. */
  predicate Integral(w: real)
  {
    w.Floor as real == w
  }

  /**
   * `check_presense`: `w in range(lo, hi)`. A float equal to an integer in the range is
   * found; any other float is not.
   */
  predicate CheckPresence(w: real, range: (int, int))
    ensures CheckPresence(w, range) ==> range.0 as real <= w < range.1 as real
  {
    Integral(w) && range.0 <= w.Floor < range.1
  }

  /** `any(check_presense(w, r) for r in ranges)`. */
  predicate AnyPresent(w: real, ranges: seq<(int, int)>)
  {
    exists k :: 0 <= k < |ranges| && CheckPresence(w, ranges[k])
  }

  /** The arrow of the first bucket, in table order, with a range holding `w`. */
  function FirstArrow(table: seq<Bucket>, w: real): (r: Option<string>)
    ensures r.None? <==> forall k :: 0 <= k < |table| ==> !AnyPresent(w, table[k].ranges)
    ensures r.Some? ==> exists k :: 0 <= k < |table| && AnyPresent(w, table[k].ranges) && table[k].arrow == r.value
  {
    if |table| == 0 then None
    else if AnyPresent(w, table[0].ranges) then Some(table[0].arrow)
    else
      var r := FirstArrow(table[1..], w);
      assert forall k :: 1 <= k < |table| ==> table[k] == table[1..][k - 1];
      r
  }

  /** `get_wind_direction_emoji`: `None` and bearings in no range give the unknown symbol. */
  function GetWindDirectionEmoji(w: Option<real>): (r: string)
    ensures r == Unknown || r in Arrows
  {
    match w
    case None => Unknown
    case Some(d) =>
      match FirstArrow(WindDirectionEmoji, d)
      case Some(arrow) => arrow
      case None => Unknown
  }

  /** Independent reference: 45-degree sectors centred on the compass points, counted from north. */
  function CompassIndex(d: int): (i: nat)
    requires 0 <= d < 360
    ensures i < 8
  {
    ((d + 22) / 45) % 8
  }

  /** Whole division by 45 pins the quotient between consecutive multiples. */
  lemma DivBy45(x: int, q: int)
    requires 0 <= x
    ensures x / 45 == q <==> 45 * q <= x < 45 * q + 45
  {
  }

  /** Sector `i` of the reference is the bearings from `45i - 22` up to `45i + 22`, north wrapping round. */
  lemma CompassSector(i: nat, d: int)
    requires i < 8 && 0 <= d < 360
    ensures i == CompassIndex(d) <==>
      if i == 0 then 338 <= d || d < 23 else 45 * i - 22 <= d < 45 * i + 23
  {
    var q := (d + 22) / 45;
    DivBy45(d + 22, q);
    assert 0 <= q <= 8;
    if i == 0 {
      DivBy45(d + 22, 0);
      DivBy45(d + 22, 8);
    } else {
      DivBy45(d + 22, i);
    }
  }

  /** Bucket `i` carries arrow `i`; its ranges are two around north, one `[45i - 22, 45i + 23)` otherwise. */
  lemma BucketRanges(i: nat)
    requires i < 8
    ensures WindDirectionEmoji[i].arrow == Arrows[i]
    ensures i == 0 ==> WindDirectionEmoji[i].ranges == [(338, 360), (0, 23)]
    ensures i > 0 ==> WindDirectionEmoji[i].ranges == [(45 * i - 22, 45 * i + 23)]
  {
    if i == 1 {} else if i == 2 {} else if i == 3 {} else if i == 4 {}
    else if i == 5 {} else if i == 6 {} else if i == 7 {}
  }

  /** Bucket `i` of the table holds bearing `d` exactly when `d` lies in sector `i`. */
  lemma BucketMembership(i: nat, d: int)
    requires i < 8 && 0 <= d < 360
    ensures AnyPresent(d as real, WindDirectionEmoji[i].ranges) <==> i == CompassIndex(d)
  {
    var w := d as real;
    assert w.Floor == d;
    var ranges := WindDirectionEmoji[i].ranges;
    BucketRanges(i);
    CompassSector(i, d);
    if i == 0 {
      assert AnyPresent(w, ranges) <==> CheckPresence(w, ranges[0]) || CheckPresence(w, ranges[1]);
    } else {
      assert AnyPresent(w, ranges) <==> CheckPresence(w, ranges[0]);
    }
  }

  /** The table agrees with the reference on every whole bearing from 0 to 359. */
  lemma MatchesCompass(d: int)
    requires 0 <= d < 360
    ensures GetWindDirectionEmoji(Some(d as real)) == Arrows[CompassIndex(d)]
  {
    var i := CompassIndex(d);
    forall k | 0 <= k < i
      ensures !AnyPresent(d as real, WindDirectionEmoji[k].ranges)
    {
      BucketMembership(k, d);
    }
    BucketMembership(i, d);
    FirstHit(WindDirectionEmoji, d as real, i);
    BucketRanges(i);
  }

  lemma {:induction false} FirstHit(table: seq<Bucket>, w: real, i: nat)
    requires i < |table| && AnyPresent(w, table[i].ranges)
    requires forall k :: 0 <= k < i ==> !AnyPresent(w, table[k].ranges)
    ensures FirstArrow(table, w) == Some(table[i].arrow)
  {
    if i > 0 {
      assert !AnyPresent(w, table[0].ranges);
      FirstHit(table[1..], w, i - 1);
    }
  }

  /**
   * The eight buckets partition the whole bearings 0..359: each such bearing lies in
   * exactly one bucket.
   */
  lemma BucketsPartition(d: int)
    requires 0 <= d < 360
    ensures exists i :: 0 <= i < 8 && AnyPresent(d as real, WindDirectionEmoji[i].ranges)
    ensures forall i, j :: 0 <= i < j < 8 ==>
      !(AnyPresent(d as real, WindDirectionEmoji[i].ranges) && AnyPresent(d as real, WindDirectionEmoji[j].ranges))
  {
    forall k | 0 <= k < 8
      ensures AnyPresent(d as real, WindDirectionEmoji[k].ranges) <==> k == CompassIndex(d)
    {
      BucketMembership(k, d);
    }
    assert AnyPresent(d as real, WindDirectionEmoji[CompassIndex(d)].ranges);
  }

  /** North covers 338..359 and 0..22, the asymmetric first bucket. */
  lemma NorthBucket(d: int)
    requires 338 <= d <= 359 || 0 <= d <= 22
    ensures GetWindDirectionEmoji(Some(d as real)) == North
  {
    CompassSector(0, d);
    MatchesCompass(d);
  }

  /** Each other bucket `[45i - 22, 45i + 23)` gives its own arrow; for example 45 is north-east. */
  lemma OtherBuckets(i: nat, d: int)
    requires 1 <= i < 8 && 45 * i - 22 <= d < 45 * i + 23
    ensures GetWindDirectionEmoji(Some(d as real)) == Arrows[i]
  {
    CompassSector(i, d);
    MatchesCompass(d);
  }

  /** A missing bearing, a bearing outside 0..359 and a fractional bearing give the unknown symbol. */
  lemma UnknownBearings(w: Option<real>)
    requires w.None? || w.value < 0.0 || w.value >= 360.0 || !Integral(w.value)
    ensures GetWindDirectionEmoji(w) == Unknown
  {
    if w.Some? {
      var d := w.value;
      forall k | 0 <= k < |WindDirectionEmoji|
        ensures !AnyPresent(d, WindDirectionEmoji[k].ranges)
      {
        var ranges := WindDirectionEmoji[k].ranges;
        forall j | 0 <= j < |ranges| ensures !CheckPresence(d, ranges[j]) {
          assert 0 <= ranges[j].0 && ranges[j].1 <= 360;
        }
      }
    }
  }
}
