/** Trading-day arithmetic over any finite set of holidays; a date is its proleptic ordinal number. */
module TradingCalendar {
  import opened Prelude

  type Date = int

  /** Monday is 0; ordinal 1 is a Monday. */
  function Weekday(d: Date): int {
    (d + 6) % 7
  }

  predicate IsTradingDay(d: Date, holidays: set<Date>) {
    Weekday(d) < 5 && d !in holidays
  }

  /** Ordinals that are multiples of seven are Sundays. */
  predicate IsWeekend(d: Date) {
    d % 7 == 0 || d % 7 == 6
  }

  /** The least trading day after `d`. */
  ghost predicate IsNext(d: Date, holidays: set<Date>, r: Date) {
    d < r && IsTradingDay(r, holidays) && forall x :: d < x < r ==> !IsTradingDay(x, holidays)
  }

  // ----- There always is a next trading day -----

  lemma {:induction false} HolidaysEnd(holidays: set<Date>, d: Date) returns (last: Date)
    ensures d <= last && forall h :: h in holidays ==> h <= last
    decreases |holidays|
  {
    if h :| h in holidays {
      last := HolidaysEnd(holidays - {h}, d);
      assert forall x :: x in holidays ==> x == h || x in holidays - {h};
      if last < h {
        last := h;
      }
    } else {
      last := d;
    }
  }

  /** Among any seven days after the last holiday there is a Monday. */
  lemma SomeLaterTradingDay(d: Date, holidays: set<Date>) returns (t: Date)
    ensures d < t && IsTradingDay(t, holidays)
  {
    var last := HolidaysEnd(holidays, d);
    t := last + 7 - Weekday(last);
  }

  lemma {:induction false} LeastBetween(d: Date, holidays: set<Date>, t: Date) returns (r: Date)
    requires d < t && IsTradingDay(t, holidays)
    ensures IsNext(d, holidays, r)
    decreases t - d
  {
    if IsTradingDay(d + 1, holidays) {
      r := d + 1;
    } else {
      r := LeastBetween(d + 1, holidays, t);
    }
  }

  lemma NextExists(d: Date, holidays: set<Date>)
    ensures exists r :: IsNext(d, holidays, r)
  {
    var t := SomeLaterTradingDay(d, holidays);
    var r := LeastBetween(d, holidays, t);
  }

  ghost function Next(d: Date, holidays: set<Date>): (r: Date)
    ensures IsNext(d, holidays, r)
  {
    NextExists(d, holidays);
    var r :| IsNext(d, holidays, r);
    r
  }

  /** The day-by-day search terminates for every finite holiday set, at the least later trading day. */
  method NextTradingDay(value: Date, holidays: set<Date>) returns (current: Date)
    ensures IsNext(value, holidays, current)
    ensures value < current && !IsWeekend(current) && current !in holidays
    ensures forall x :: value < x < current ==> IsWeekend(x) || x in holidays
    ensures current == Next(value, holidays)
  {
    forall x
      ensures IsWeekend(x) || x in holidays <==> !IsTradingDay(x, holidays)
    {
    }
    current := value;
    while true
      invariant value <= current < Next(value, holidays)
      invariant forall x :: value < x <= current ==> !IsTradingDay(x, holidays)
      decreases Next(value, holidays) - current
    {
      current := current + 1;
      if IsTradingDay(current, holidays) {
        return;
      }
    }
  }

  // ----- Adding trading days -----

  ghost function Add(d: Date, n: nat, holidays: set<Date>): Date
    decreases n
  {
    if n == 0 then d else Add(Next(d, holidays), n - 1, holidays)
  }

  /** add_cn_equity_trading_days: a negative count is an error, zero returns the date itself. */
  method AddTradingDays(value: Date, count: int, holidays: set<Date>) returns (r: Option<Date>)
    ensures r == if count < 0 then None else Some(Add(value, count, holidays))
  {
    if count < 0 {
      return None;
    }
    var current := value;
    var remaining: nat := count;
    while remaining > 0
      invariant Add(current, remaining, holidays) == Add(value, count, holidays)
    {
      current := NextTradingDay(current, holidays);
      remaining := remaining - 1;
    }
    return Some(current);
  }

  /** Adding in two portions is adding once. */
  lemma {:induction false} AddComposes(d: Date, a: nat, b: nat, holidays: set<Date>)
    ensures Add(d, a + b, holidays) == Add(Add(d, a, holidays), b, holidays)
    decreases a
  {
    if a > 0 {
      AddComposes(Next(d, holidays), a - 1, b, holidays);
    }
  }

  /** Trading days in the half-open interval after `lo`, up to and including `hi`. */
  function CountTradingDays(lo: Date, hi: Date, holidays: set<Date>): nat
    decreases hi - lo
  {
    if hi <= lo then 0
    else CountTradingDays(lo, hi - 1, holidays) + if IsTradingDay(hi, holidays) then 1 else 0
  }

  lemma {:induction false} CountSplits(lo: Date, mid: Date, hi: Date, holidays: set<Date>)
    requires lo <= mid <= hi
    ensures CountTradingDays(lo, hi, holidays)
        == CountTradingDays(lo, mid, holidays) + CountTradingDays(mid, hi, holidays)
    decreases hi - mid
  {
    if mid < hi {
      CountSplits(lo, mid, hi - 1, holidays);
    }
  }

  lemma {:induction false} CountOfGap(lo: Date, hi: Date, holidays: set<Date>)
    requires lo <= hi && forall x :: lo < x <= hi ==> !IsTradingDay(x, holidays)
    ensures CountTradingDays(lo, hi, holidays) == 0
    decreases hi - lo
  {
    if lo < hi {
      CountOfGap(lo, hi - 1, holidays);
    }
  }

  lemma CountToNext(d: Date, holidays: set<Date>)
    ensures CountTradingDays(d, Next(d, holidays), holidays) == 1
  {
    CountOfGap(d, Next(d, holidays) - 1, holidays);
  }

  lemma {:induction false} AddReaches(d: Date, n: nat, holidays: set<Date>)
    requires n > 0
    ensures var r := Add(d, n, holidays);
            d < r && IsTradingDay(r, holidays) && CountTradingDays(d, r, holidays) == n
    decreases n
  {
    var next := Next(d, holidays);
    CountToNext(d, holidays);
    if n > 1 {
      AddReaches(next, n - 1, holidays);
      CountSplits(d, next, Add(next, n - 1, holidays), holidays);
    }
  }

  /**
   * Adding n > 0 days lands on a trading day with exactly n trading days in the interval after the start, and it
   * is the only such date.
   */
  lemma AddCountsExactly(d: Date, n: nat, holidays: set<Date>)
    requires n > 0
    ensures
      var r := Add(d, n, holidays);
      && d < r && IsTradingDay(r, holidays) && CountTradingDays(d, r, holidays) == n
      && forall q :: d < q && IsTradingDay(q, holidays) && CountTradingDays(d, q, holidays) == n ==> q == r
  {
    AddReaches(d, n, holidays);
    var r := Add(d, n, holidays);
    forall q | d < q && IsTradingDay(q, holidays) && CountTradingDays(d, q, holidays) == n
      ensures q == r
    {
      if q <= r {
        CountIdentifiesTradingDay(d, q, r, holidays);
      } else {
        CountIdentifiesTradingDay(d, r, q, holidays);
      }
    }
  }

  lemma CountIdentifiesTradingDay(d: Date, r: Date, q: Date, holidays: set<Date>)
    requires d < r <= q && IsTradingDay(r, holidays) && IsTradingDay(q, holidays)
    requires CountTradingDays(d, r, holidays) == CountTradingDays(d, q, holidays)
    ensures r == q
  {
    CountSplits(d, r, q, holidays);
  }

  // ----- Iterating -----

  /** The iterator yields exactly the trading days of the closed interval, in order. */
  method IterTradingDays(start: Date, end: Date, holidays: set<Date>) returns (days: seq<Date>)
    ensures ListsTradingDays(days, start, end, holidays)
    ensures |days| == CountTradingDays(start - 1, end, holidays)
  {
    days := [];
    if end < start {
      return;
    }
    var current := start;
    while current <= end
      invariant start <= current <= end + 1
      invariant forall i, j :: 0 <= i < j < |days| ==> days[i] < days[j]
      invariant forall x :: x in days <==> start <= x < current && IsTradingDay(x, holidays)
      invariant |days| == CountTradingDays(start - 1, current - 1, holidays)
    {
      if IsTradingDay(current, holidays) {
        assert forall i :: 0 <= i < |days| ==> days[i] in days;
        days := days + [current];
      }
      current := current + 1;
    }
  }

  /** What the iterator promises about its result. */
  ghost predicate ListsTradingDays(days: seq<Date>, start: Date, end: Date, holidays: set<Date>) {
    && (forall i, j :: 0 <= i < j < |days| ==> days[i] < days[j])
    && (forall x :: x in days <==> start <= x <= end && IsTradingDay(x, holidays))
  }

  lemma {:induction false} ListedDayHasItsCount(days: seq<Date>, d: Date, end: Date, holidays: set<Date>, k: nat)
    requires ListsTradingDays(days, d + 1, end, holidays) && k < |days|
    ensures d < days[k] && CountTradingDays(d, days[k], holidays) == k + 1
    decreases k
  {
    assert days[k] in days;
    var from := if k == 0 then d else days[k - 1];
    if k > 0 {
      ListedDayHasItsCount(days, d, end, holidays, k - 1);
    }
    forall x | from < x < days[k]
      ensures !IsTradingDay(x, holidays)
    {
      forall i | 0 <= i < |days|
        ensures days[i] != x
      {
        assert i < k - 1 ==> days[i] < days[k - 1];
        assert i > k ==> days[i] > days[k];
      }
      assert x !in days;
    }
    CountOfGap(from, days[k] - 1, holidays);
    CountSplits(d, from, days[k], holidays);
  }

  /** Iterating over the days after the start up to the n-th added one yields exactly the n added days, in order. */
  lemma IteratorYieldsTheAddedDays(days: seq<Date>, d: Date, n: nat, holidays: set<Date>)
    requires n > 0 && ListsTradingDays(days, d + 1, Add(d, n, holidays), holidays)
    ensures |days| == n
    ensures forall k :: 0 <= k < n ==> days[k] == Add(d, k + 1, holidays)
  {
    AddCountsExactly(d, n, holidays);
    var last := Add(d, n, holidays);
    assert last in days;
    var m := |days| - 1;
    assert days[m] in days;
    ListedDayHasItsCount(days, d, last, holidays, m);
    assert days[m] == last by {
      var i :| 0 <= i < |days| && days[i] == last;
    }
    forall k | 0 <= k < n
      ensures days[k] == Add(d, k + 1, holidays)
    {
      ListedDayHasItsCount(days, d, last, holidays, k);
      AddCountsExactly(d, k + 1, holidays);
      assert days[k] in days;
    }
  }
}
