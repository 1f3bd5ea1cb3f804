/** Stage 3 of the billing pipeline (`FairBilling.processFileAsList`): sessions still
    missing a time are closed with the first and last event times of the whole log,
    then each user's sessions are counted and their seconds summed, in first-seen user
    order. Counters are Java `int`s and wrap around. */
module Billing {
  import opened Optional
  import opened Int32
  import opened TimeOfDay
  import opened LineParser
  import opened Sessions
  import opened OrderedMap
  import opened Reconstruction
  import opened Matching

  /** `UserResult`: one row of the report. */
  datatype UserResult = UserResult(userId: string, numberOfSessions: int, billableTimeInSeconds: int)

  /** `LocalTime.parse` rejected the time of a kept line (an uncaught exception in the source). */
  datatype BillingError = TimeOutOfRange

  /** A missing start becomes the window's `first` time, a missing end its `last` time. */
  function FillSession(s: Session, first: Time, last: Time): (r: Session)
    ensures r.userId == s.userId && r.startTime.Some? && r.endTime.Some?
    ensures r.startTime == if s.startTime.Some? then s.startTime else Some(first)
    ensures r.endTime == if s.endTime.Some? then s.endTime else Some(last)
  {
    var started := if s.startTime.None? then SetStartTime(s, Some(first)) else s;
    if started.endTime.None? then SetEndTime(started, Some(last)) else started
  }

  /** `Duration.between(start, end).getSeconds()` of the filled session; negative when
      the end is earlier in the day than the start. */
  function FilledSeconds(s: Session, first: Time, last: Time): (d: int)
    ensures d == (if s.endTime.Some? then s.endTime.value else last)
               - (if s.startTime.Some? then s.startTime.value else first)
  {
    var f := FillSession(s, first, last);
    f.endTime.value - f.startTime.value
  }

  /** The mathematical total of a user's filled sessions. */
  function Billable(ss: seq<Session>, first: Time, last: Time): (total: int) {
    if |ss| == 0 then 0
    else Billable(ss[..|ss| - 1], first, last) + FilledSeconds(ss[|ss| - 1], first, last)
  }

  /** `numberOfSessions++` over the list, on a Java `int`. */
  function RunningCount(ss: seq<Session>): (n: int)
    ensures InRange(n)
  {
    if |ss| == 0 then 0 else Wrap(RunningCount(ss[..|ss| - 1]) + 1)
  }

  /** `total += ...getSeconds()` over the list: the `long` sum narrowed back to `int`
      at every step. */
  function RunningTotal(ss: seq<Session>, first: Time, last: Time): (total: int)
    ensures InRange(total)
  {
    if |ss| == 0 then 0
    else Wrap(RunningTotal(ss[..|ss| - 1], first, last) + FilledSeconds(ss[|ss| - 1], first, last))
  }

  lemma {:induction false} RunningCountIsWrappedLength(ss: seq<Session>)
    ensures RunningCount(ss) == Wrap(|ss|)
  {
    if |ss| > 0 {
      RunningCountIsWrappedLength(ss[..|ss| - 1]);
      WrapAdd(|ss| - 1, 1);
    }
  }

  lemma {:induction false} RunningTotalIsWrappedSum(ss: seq<Session>, first: Time, last: Time)
    ensures RunningTotal(ss, first, last) == Wrap(Billable(ss, first, last))
  {
    if |ss| > 0 {
      var init := ss[..|ss| - 1];
      RunningTotalIsWrappedSum(init, first, last);
      WrapAdd(Billable(init, first, last), FilledSeconds(ss[|ss| - 1], first, last));
    }
  }

  /** The report row of one map entry: the session count and the wrapped total. */
  function Summarise(e: Entry<seq<Session>>, first: Time, last: Time): (r: UserResult)
    ensures r.userId == e.key
    ensures r.numberOfSessions == Wrap(|e.value|)
    ensures r.billableTimeInSeconds == Wrap(Billable(e.value, first, last))
  {
    RunningCountIsWrappedLength(e.value);
    RunningTotalIsWrappedSum(e.value, first, last);
    UserResult(e.key, RunningCount(e.value), RunningTotal(e.value, first, last))
  }

  /** The loop over `map.keySet()`: one row per entry, in the map's order. */
  function Summaries(m: SessionMap, first: Time, last: Time): (r: seq<UserResult>)
    ensures |r| == |m|
    ensures forall k :: 0 <= k < |m| ==> r[k] == Summarise(m[k], first, last)
  {
    if |m| == 0 then [] else [Summarise(m[0], first, last)] + Summaries(m[1..], first, last)
  }

  /** The observation window: the times of the first and last kept events. */
  function WindowStart(es: seq<Pieces>): (t: Time)
    requires AllInDay(es) && |es| > 0
  {
    TimeOf(es[0])
  }

  function WindowEnd(es: seq<Pieces>): (t: Time)
    requires AllInDay(es) && |es| > 0
  {
    TimeOf(es[|es| - 1])
  }

  /** `FairBilling.processFileAsList`. */
  function ProcessFileAsList(lines: seq<string>): (r: Result<seq<UserResult>, BillingError>)
    ensures |lines| == 0 ==> r == Success([])
    ensures r.Failure? <==> !AllInDay(ParseAllTheLines(lines))
    ensures r.Success? && ParseAllTheLines(lines) == [] ==> r.value == []
  {
    if |lines| == 0 then Success([])
    else
      var pieces := ParseAllTheLines(lines);
      if !AllInDay(pieces) then Failure(TimeOutOfRange)
      // With no events the map is empty, so the window bounds are never read.
      else if |pieces| == 0 then Success([])
      else Success(Summaries(ProcessLines(pieces), WindowStart(pieces), WindowEnd(pieces)))
  }

  /** One row per distinct user of the kept events, in first-seen order. */
  lemma ProcessFileAsListUsers(lines: seq<string>)
    requires ProcessFileAsList(lines).Success?
    ensures var us := FirstSeen(UserIds(ParseAllTheLines(lines)));
      && |ProcessFileAsList(lines).value| == |us|
      && forall k :: 0 <= k < |us| ==> ProcessFileAsList(lines).value[k].userId == us[k]
  {
    var pieces := ParseAllTheLines(lines);
    if |lines| > 0 && |pieces| > 0 {
      ProcessLinesKeys(pieces);
    }
  }

  /** Each row counts the user's reconstructed sessions and sums their filled durations
      (both wrapped to `int`); the count is the user's Starts plus their orphan Ends. */
  lemma ProcessFileAsListRow(lines: seq<string>, k: nat)
    requires ProcessFileAsList(lines).Success?
    requires k < |ProcessFileAsList(lines).value|
    ensures var pieces := ParseAllTheLines(lines);
      var row := ProcessFileAsList(lines).value[k];
      var es := EventsOf(pieces, row.userId);
      var ss := Replay(es);
      && |pieces| > 0
      && row.userId in UserIds(pieces)
      && row.numberOfSessions == Wrap(|ss|)
      && |ss| == NumStarts(es) + MaxDeficit(es)
      && row.billableTimeInSeconds
         == Wrap(Billable(ss, WindowStart(pieces), WindowEnd(pieces)))
  {
    var pieces := ParseAllTheLines(lines);
    EntryIsReplay(pieces, k);
    SessionCount(EventsOf(pieces, ProcessLines(pieces)[k].key));
  }

  /** Each event adds at most one session. */
  lemma {:induction false} ReplayLength(es: seq<Pieces>)
    requires AllInDay(es)
    ensures |Replay(es)| <= |es|
  {
    if |es| > 0 {
      var init := es[..|es| - 1];
      ReplayLength(init);
      var ss := Replay(init);
      var p := es[|es| - 1];
      if IsEnd(p) && FirstOpen(ss).Some? {
        var i := FirstOpen(ss).value;
        assert ProcessLine(p, ss) == ss[i := ss[i].(endTime := Some(TimeOf(p)))];
      }
    }
  }

  lemma MulMonotone(a: nat, b: nat, x: nat, y: nat)
    requires a <= x && b <= y
    ensures a * b <= x * y
  {
    assert a * b <= x * b;
  }

  /** Each filled session inside the window lasts between nothing and the whole window. */
  lemma FilledWithin(s: Session, first: Time, last: Time)
    requires first <= last
    requires s.startTime.Some? ==> first <= s.startTime.value <= last
    requires s.endTime.Some? ==> first <= s.endTime.value <= last
    requires s.startTime.Some? && s.endTime.Some? ==> s.startTime.value <= s.endTime.value
    ensures 0 <= FilledSeconds(s, first, last) <= last - first
  {
  }

  lemma MulSucc(n: nat, w: int)
    ensures n * w + w == (n + 1) * w
  {
  }

  /** Sessions inside the window bill between nothing and the whole window each. */
  lemma {:induction false} BillableBounds(ss: seq<Session>, first: Time, last: Time)
    requires first <= last && TimesWithin(ss, first, last)
    ensures 0 <= Billable(ss, first, last) <= |ss| * (last - first)
  {
    if |ss| > 0 {
      var n := |ss| - 1;
      var init := ss[..n];
      var w := last - first;
      assert TimesWithin(init, first, last) by {
        forall i | 0 <= i < n
          ensures init[i] == ss[i]
        {
        }
      }
      BillableBounds(init, first, last);
      FilledWithin(ss[n], first, last);
      MulSucc(n, w);
    }
  }

  /** A user's events happen inside the observation window of the whole log. */
  lemma EventsOfWithin(pieces: seq<Pieces>, u: string)
    requires NonDecreasing(pieces) && |pieces| > 0
    ensures forall i :: 0 <= i < |EventsOf(pieces, u)| ==>
      WindowStart(pieces) <= TimeOf(EventsOf(pieces, u)[i]) <= WindowEnd(pieces)
  {
    var es := EventsOf(pieces, u);
    forall i | 0 <= i < |es|
      ensures WindowStart(pieces) <= TimeOf(es[i]) <= WindowEnd(pieces)
    {
      var j :| 0 <= j < |pieces| && pieces[j] == es[i];
    }
  }

  /** For ordered events, a user's bill lies between zero and the session count times
      the window length. */
  lemma UserBillBounds(pieces: seq<Pieces>, u: string)
    requires NonDecreasing(pieces) && |pieces| > 0
    ensures var ss := Replay(EventsOf(pieces, u));
      && |ss| <= |pieces|
      && 0 <= Billable(ss, WindowStart(pieces), WindowEnd(pieces))
           <= |ss| * (WindowEnd(pieces) - WindowStart(pieces))
  {
    var es := EventsOf(pieces, u);
    var first := WindowStart(pieces);
    var last := WindowEnd(pieces);
    EventsOfNonDecreasing(pieces, u);
    EventsOfWithin(pieces, u);
    ReplayTimes(es, first, last);
    ReplayLength(es);
    BillableBounds(Replay(es), first, last);
  }

  /** At most 24855 sessions of at most a day each stay inside the `int` range. */
  lemma NoWrap(n: nat, w: nat, b: int)
    requires n <= 24855 && w < SECONDS_PER_DAY && 0 <= b <= n * w
    ensures InRange(n) && InRange(b)
  {
    MulMonotone(n, w, 24855, 86399);
  }

  /** For a log whose times never go backwards and that is short enough for no `int`
      to wrap, each row holds the plain session count and a total between zero and the
      count times the window length. */
  lemma ProcessFileAsListNonNegative(lines: seq<string>, k: nat)
    requires ProcessFileAsList(lines).Success?
    requires k < |ProcessFileAsList(lines).value|
    requires NonDecreasing(ParseAllTheLines(lines))
    requires |lines| <= 24855
    ensures var pieces := ParseAllTheLines(lines);
      var row := ProcessFileAsList(lines).value[k];
      var ss := Replay(EventsOf(pieces, row.userId));
      && |pieces| > 0
      && row.numberOfSessions == |ss|
      && row.billableTimeInSeconds == Billable(ss, WindowStart(pieces), WindowEnd(pieces))
      && 0 <= row.billableTimeInSeconds
      && row.billableTimeInSeconds
         <= row.numberOfSessions * (WindowEnd(pieces) - WindowStart(pieces))
  {
    ProcessFileAsListRow(lines, k);
    var pieces := ParseAllTheLines(lines);
    var row := ProcessFileAsList(lines).value[k];
    var ss := Replay(EventsOf(pieces, row.userId));
    var w := WindowEnd(pieces) - WindowStart(pieces);
    UserBillBounds(pieces, row.userId);
    NoWrap(|ss|, w, Billable(ss, WindowStart(pieces), WindowEnd(pieces)));
  }
}
